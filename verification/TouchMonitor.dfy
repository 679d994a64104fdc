/** What a run of the touch gesture reorderer may look like, said without the ring.

    Packets carry a sequence number modulo CYCLE. Here every packet of a gesture has an absolute
    index instead: Start has its own sequence number, and what follows counts on without ever
    wrapping. `Step` is a machine over observable events; it breaks as soon as a gesture plays
    anything but the next index, plays something that was not accepted under that index, ends
    with the wrong contacts, or starts while the previous one has not been reset or finished. */
module TouchMonitor {
  import opened Wrappers

  const CYCLE := 100
  const WINDOW := 50

  /** An identifier's source, its order among the gestures of that source, and its time of issue. */
  datatype Source = Source(source: string, order: nat, issuedAt: Option<nat>)

  /** A gesture identifier: its text, and what the identifier format reads from that text. */
  datatype Id = Id(text: string, names: Option<Source>)

  datatype Kind = Down | Move | Up | Reset | Commit

  datatype Metadata = Metadata(kind: Kind, contact: Option<int>)

  /** A caller's closure (told apart by a number) with what the caller said about it, the closure
      that ends the gesture, or the no-op that fills a skipped position. */
  datatype Packet = Input(callback: nat, metadata: Option<Metadata>) | StopGesture | Filler

  datatype Reason = BufferFull | DidNotStart | TailTimedOut | SequenceTimedOut | WindowExceeded | SourceLimit

  datatype Event =
    | Activated(id: Option<Id>, start: nat)
    | Accepted(id: Option<Id>, index: nat, packet: Packet)
    | Skipped(index: nat)
    | Ran(index: nat, packet: Packet)
    | ResetCalled
    | Finished(held: set<int>)
    | Reported(reason: Reason)

  /** What the caller sees: the closures that run, in order, and the calls that end a gesture. */
  datatype Call = Played(packet: Packet) | WasReset | Ended(held: set<int>)

  function CallOf(e: Event): seq<Call> {
    match e
    case Ran(_, packet) => [Played(packet)]
    case ResetCalled => [WasReset]
    case Finished(held) => [Ended(held)]
    case _ => []
  }

  function CallsOf(trace: seq<Event>): seq<Call> {
    if trace == [] then [] else CallsOf(trace[..|trace| - 1]) + CallOf(trace[|trace| - 1])
  }

  lemma CallsOneMore(trace: seq<Event>, e: Event)
    ensures CallsOf(trace + [e]) == CallsOf(trace) + CallOf(e)
  {
    assert (trace + [e])[..|trace|] == trace;
  }

  datatype Phase =
    | Idle
    | Playing(id: Option<Id>, first: nat, accepted: map<nat, Packet>, played: seq<Packet>)
    | Broken

  /** The absolute index a playing gesture waits for. */
  function Base(phase: Phase): nat {
    if phase.Playing? then phase.first + |phase.played| else 0
  }

  /** `seen` holds the identifiers activated so far. */
  datatype Monitor = Monitor(seen: set<Id>, phase: Phase)

  /** What executing a packet does to the contacts on the screen. */
  function Touch(held: set<int>, packet: Packet): set<int> {
    match packet
    case Input(_, Some(Metadata(Reset, _))) => {}
    case Input(_, Some(Metadata(Down, Some(c)))) => if 0 <= c < 32 then held + {c} else held
    case Input(_, Some(Metadata(Up, Some(c)))) => if 0 <= c < 32 then held - {c} else held
    case _ => held
  }

  /** The contacts down after playing packets from an empty screen. */
  function HeldBy(played: seq<Packet>): set<int> {
    if played == [] then {} else Touch(HeldBy(played[..|played| - 1]), played[|played| - 1])
  }

  lemma HeldByOneMore(played: seq<Packet>, packet: Packet)
    ensures HeldBy(played + [packet]) == Touch(HeldBy(played), packet)
  {
    assert (played + [packet])[..|played|] == played;
  }

  /** A packet that may follow a lost one: it cannot depend on a Down that was missed. */
  predicate Continues(held: set<int>, packet: Packet) {
    match packet
    case Input(_, None) => false
    case Input(_, Some(Metadata(Down, _))) => false
    case Input(_, Some(Metadata(Reset, _))) => false
    case Input(_, Some(Metadata(Commit, _))) => true
    case Input(_, Some(Metadata(_, contact))) => contact.Some? && contact.value in held
    case StopGesture => true
    case Filler => true
  }

  ghost function Between(accepted: map<nat, Packet>, low: nat, high: nat): set<nat> {
    set i | i in accepted && low < i <= high
  }

  /** At least four packets are buffered from the hole up to `high`, and all of them are harmless. */
  ghost predicate Harmless(held: set<int>, accepted: map<nat, Packet>, hole: nat, high: nat) {
    && |Between(accepted, hole, high)| >= 4
    && forall i | i in Between(accepted, hole, high) :: Continues(held, accepted[i])
  }

  ghost predicate RecoversAfter(held: set<int>, accepted: map<nat, Packet>, hole: nat) {
    exists high: nat :: Harmless(held, accepted, hole, high)
  }

  ghost predicate SafeToSkip(held: set<int>, accepted: map<nat, Packet>, hole: nat) {
    held != {} && hole !in accepted && RecoversAfter(held, accepted, hole)
  }

  /** The stop has been played: all that may follow is the end of the gesture. */
  predicate Over(played: seq<Packet>) {
    played != [] && played[|played| - 1].StopGesture?
  }

  predicate Ends(e: Event) {
    e.ResetCalled? || e.Finished?
  }

  ghost function Step(strict: bool, m: Monitor, e: Event): Monitor {
    match (m.phase, e)
    case (Broken, _) => m
    case (_, Reported(_)) => m
    case (_, ResetCalled) => m.(phase := Idle)
    case (Idle, Activated(id, start)) =>
      if strict && id.Some? && id.value in m.seen then m.(phase := Broken)
      else Monitor(if id.Some? then m.seen + {id.value} else m.seen, Playing(id, start + 1, map[], []))
    case (Playing(id, first, accepted, played), Accepted(id', i, p)) =>
      if id' == id && i >= first + |played| && i !in accepted && !Over(played)
      then m.(phase := Playing(id, first, accepted[i := p], played))
      else m.(phase := Broken)
    case (Playing(id, first, accepted, played), Skipped(i)) =>
      if i == first + |played| && SafeToSkip(HeldBy(played), accepted, i) && !Over(played)
      then m.(phase := Playing(id, first, accepted[i := Filler], played))
      else m.(phase := Broken)
    case (Playing(id, first, accepted, played), Ran(i, p)) =>
      if i == first + |played| && i in accepted && accepted[i] == p && !Over(played)
      then m.(phase := Playing(id, first, accepted, played + [p]))
      else m.(phase := Broken)
    case (Playing(_, _, _, played), Finished(held)) =>
      if held == HeldBy(played) && Over(played) then m.(phase := Idle) else m.(phase := Broken)
    case _ => m.(phase := Broken)
  }

  ghost function Watch(strict: bool, trace: seq<Event>): Monitor {
    if trace == [] then Monitor({}, Idle)
    else Step(strict, Watch(strict, trace[..|trace| - 1]), trace[|trace| - 1])
  }

  lemma WatchOneMore(strict: bool, trace: seq<Event>, e: Event)
    ensures Watch(strict, trace + [e]) == Step(strict, Watch(strict, trace), e)
  {
    assert (trace + [e])[..|trace|] == trace;
  }

  /** No gesture goes on after its stop. */
  predicate Running(phase: Phase) {
    phase.Playing? ==> !Over(phase.played)
  }

  ghost predicate Conforms(strict: bool, trace: seq<Event>) {
    !Watch(strict, trace).phase.Broken?
  }
}
