/** What a conforming trace promises, without reference to the machine that watches it. */
module TouchProperties {
  import opened Wrappers
  import opened TouchMonitor
  import opened TouchRing
  import opened TouchGestures

  lemma WatchStep(strict: bool, trace: seq<Event>, n: nat)
    requires n < |trace|
    ensures Watch(strict, trace[..n + 1]) == Step(strict, Watch(strict, trace[..n]), trace[n])
  {
    assert trace[..n + 1] == trace[..n] + [trace[n]];
    WatchOneMore(strict, trace[..n], trace[n]);
  }

  /** A broken run stays broken, and no identifier is forgotten. */
  lemma {:induction false} WatchPrefix(strict: bool, trace: seq<Event>, n: nat, m: nat)
    requires n <= m <= |trace|
    ensures Watch(strict, trace[..n]).phase.Broken? ==> Watch(strict, trace[..m]).phase.Broken?
    ensures Watch(strict, trace[..n]).seen <= Watch(strict, trace[..m]).seen
    decreases m - n
  {
    if n < m {
      WatchPrefix(strict, trace, n, m - 1);
      WatchStep(strict, trace, m - 1);
    }
  }

  lemma ConformsBefore(strict: bool, trace: seq<Event>, n: nat)
    requires Conforms(strict, trace) && n <= |trace|
    ensures !Watch(strict, trace[..n]).phase.Broken?
  {
    WatchPrefix(strict, trace, n, |trace|);
    assert trace[..|trace|] == trace;
  }

  /** Under one owner no identifier is activated twice. */
  lemma {:induction false} NeverTwice(trace: seq<Event>, i: nat, j: nat)
    requires Conforms(true, trace) && i < j < |trace|
    requires trace[i].Activated? && trace[i].id.Some? && trace[j].Activated?
    ensures trace[i].id != trace[j].id
  {
    WatchStep(true, trace, i);
    WatchStep(true, trace, j);
    ConformsBefore(true, trace, i + 1);
    ConformsBefore(true, trace, j + 1);
    WatchPrefix(true, trace, i + 1, j);
  }

  lemma {:induction false} StillPlaying(strict: bool, trace: seq<Event>, i: nat, n: nat)
    requires Conforms(strict, trace) && i < n <= |trace| && trace[i].Activated?
    requires forall k | i < k < n :: !Ends(trace[k])
    ensures Watch(strict, trace[..n]).phase.Playing?
    decreases n
  {
    ConformsBefore(strict, trace, n);
    WatchStep(strict, trace, n - 1);
    if i + 1 < n {
      StillPlaying(strict, trace, i, n - 1);
    }
  }

  /** Between two activations the device was reset or the first gesture was finished. */
  lemma {:induction false} EndsBetween(strict: bool, trace: seq<Event>, i: nat, j: nat)
    requires Conforms(strict, trace) && i < j < |trace|
    requires trace[i].Activated? && trace[j].Activated?
    ensures exists k :: i < k < j && Ends(trace[k])
  {
    if forall k | i < k < j :: !Ends(trace[k]) {
      StillPlaying(strict, trace, i, j);
      WatchStep(strict, trace, j);
      ConformsBefore(strict, trace, j + 1);
    }
  }

  function RunBy(e: Event): seq<Packet> {
    if e.Ran? then [e.packet] else []
  }

  /** The packets played by a stretch of the trace. */
  function RunsIn(events: seq<Event>): seq<Packet> {
    if events == [] then [] else RunsIn(events[..|events| - 1]) + RunBy(events[|events| - 1])
  }

  lemma RunsInOneMore(events: seq<Event>, e: Event)
    ensures RunsIn(events + [e]) == RunsIn(events) + RunBy(e)
  {
    assert (events + [e])[..|events|] == events;
  }

  function AcceptedBy(m: map<nat, Packet>, e: Event): map<nat, Packet> {
    match e
    case Accepted(_, i, p) => m[i := p]
    case Skipped(i) => m[i := Filler]
    case _ => m
  }

  /** The packets accepted in a stretch of the trace, under their indices; a skipped one is filled. */
  function AcceptedIn(events: seq<Event>): map<nat, Packet> {
    if events == [] then map[] else AcceptedBy(AcceptedIn(events[..|events| - 1]), events[|events| - 1])
  }

  lemma AcceptedInOneMore(events: seq<Event>, e: Event)
    ensures AcceptedIn(events + [e]) == AcceptedBy(AcceptedIn(events), e)
  {
    assert (events + [e])[..|events|] == events;
  }

  /** The gesture activated at index `a` is still playing at the end, and `phase` is its history. */
  ghost predicate PlaysSince(trace: seq<Event>, a: nat, phase: Phase) {
    && phase.Playing? && a < |trace|
    && trace[a].Activated? && trace[a].id == phase.id && phase.first == trace[a].start + 1
    && (forall k | a < k < |trace| :: !Ends(trace[k]) && !trace[k].Activated?)
    && phase.played == RunsIn(trace[a + 1..]) && phase.accepted == AcceptedIn(trace[a + 1..])
    && (forall i | i in phase.accepted :: WasAccepted(trace, a, phase.id, i, phase.accepted[i]))
  }

  ghost predicate WasAccepted(trace: seq<Event>, a: nat, id: Option<Id>, i: nat, packet: Packet) {
    exists c :: a < c < |trace| &&
      (trace[c] == Accepted(id, i, packet) || (trace[c] == Skipped(i) && packet == Filler))
  }

  lemma {:induction false} PhaseTellsHistory(strict: bool, trace: seq<Event>)
    requires Watch(strict, trace).phase.Playing?
    ensures exists a: nat :: PlaysSince(trace, a, Watch(strict, trace).phase)
    decreases |trace|
  {
    var n := |trace| - 1;
    var before, e := trace[..n], trace[n];
    assert trace == before + [e];
    WatchOneMore(strict, before, e);
    if e.Activated? {
      assert PlaysSince(trace, n, Watch(strict, trace).phase);
    } else {
      PhaseTellsHistory(strict, before);
      var a: nat :| PlaysSince(before, a, Watch(strict, before).phase);
      HistoryGrows(strict, before, e, a);
    }
  }

  lemma HistoryGrows(strict: bool, before: seq<Event>, e: Event, a: nat)
    requires PlaysSince(before, a, Watch(strict, before).phase) && !e.Activated?
    requires Step(strict, Watch(strict, before), e).phase.Playing?
    ensures PlaysSince(before + [e], a, Step(strict, Watch(strict, before), e).phase)
  {
    hide Watch, SafeToSkip, HeldBy, WasAccepted, RunsIn, AcceptedIn;
    var trace, p0, p1 := before + [e], Watch(strict, before).phase, Step(strict, Watch(strict, before), e).phase;
    assert trace[a + 1..] == before[a + 1..] + [e];
    RunsInOneMore(before[a + 1..], e);
    AcceptedInOneMore(before[a + 1..], e);
    forall i | i in p1.accepted
      ensures WasAccepted(trace, a, p1.id, i, p1.accepted[i])
    {
      AcceptanceStays(before, e, a, p1.id, i, p1.accepted[i]);
    }
  }

  lemma AcceptanceStays(before: seq<Event>, e: Event, a: nat, id: Option<Id>, i: nat, packet: Packet)
    requires a < |before|
    requires WasAccepted(before, a, id, i, packet) || e == Accepted(id, i, packet) || (e == Skipped(i) && packet == Filler)
    ensures WasAccepted(before + [e], a, id, i, packet)
  {
    var trace := before + [e];
    if WasAccepted(before, a, id, i, packet) {
      var c :| a < c < |before| &&
        (before[c] == Accepted(id, i, packet) || (before[c] == Skipped(i) && packet == Filler));
      assert trace[c] == before[c];
    } else {
      assert trace[|before|] == e;
    }
  }

  /** The gesture activated at index `a` is the one playing when event `k` happens. */
  ghost predicate PlaysAt(trace: seq<Event>, a: nat, k: nat) {
    && a < k < |trace| && trace[a].Activated?
    && forall e | a < e < k :: !Ends(trace[e]) && !trace[e].Activated?
  }

  lemma {:induction false} HistoryBefore(strict: bool, trace: seq<Event>, k: nat) returns (a: nat)
    requires k < |trace| && Watch(strict, trace[..k]).phase.Playing?
    ensures PlaysAt(trace, a, k)
    ensures var phase := Watch(strict, trace[..k]).phase;
      && phase.id == trace[a].id && phase.first == trace[a].start + 1 && phase.played == RunsIn(trace[a + 1..k])
      && phase.accepted == AcceptedIn(trace[a + 1..k])
      && forall i | i in phase.accepted :: WasAccepted(trace[..k], a, phase.id, i, phase.accepted[i])
  {
    hide Watch, WasAccepted, AcceptedIn, RunsIn;
    var before := trace[..k];
    PhaseTellsHistory(strict, before);
    a :| PlaysSince(before, a, Watch(strict, before).phase);
    assert before[a + 1..] == trace[a + 1..k];
    forall e | a <= e < k
      ensures before[e] == trace[e]
    {
    }
  }

  /** Whatever runs is the packet accepted under the next index of the gesture that is playing:
      start + 1, start + 2 and so on, none left out and none twice. */
  lemma {:induction false} RunsInRingOrder(strict: bool, trace: seq<Event>, k: nat)
    requires Conforms(strict, trace) && k < |trace| && trace[k].Ran?
    ensures exists a: nat ::
      && PlaysAt(trace, a, k)
      && trace[k].index == trace[a].start + 1 + |RunsIn(trace[a + 1..k])|
      && WasAccepted(trace[..k], a, trace[a].id, trace[k].index, trace[k].packet)
  {
    hide Watch, WasAccepted;
    WatchStep(strict, trace, k);
    ConformsBefore(strict, trace, k + 1);
    var a := HistoryBefore(strict, trace, k);
  }

  /** Stops, fillers and commits may follow a lost packet, and so may the move or lift of a held contact; a
      packet that says nothing of itself, puts a contact down or resets the touch may not. */
  predicate MayFollowLoss(held: set<int>, packet: Packet) {
    || packet == StopGesture || packet == Filler
    || (packet.Input? && packet.metadata.Some? && packet.metadata.value.kind == Commit)
    || exists c | c in held :: packet.Input? && packet.metadata in {Some(Metadata(Move, Some(c))), Some(Metadata(Up, Some(c)))}
  }

  ghost function Behind(accepted: map<nat, Packet>, hole: nat, high: nat): set<nat> {
    set i | i in accepted && hole < i <= high
  }

  /** The four packets nearest to the hole, and perhaps more, may all follow a lost one. */
  ghost predicate FourMayFollow(held: set<int>, accepted: map<nat, Packet>, hole: nat) {
    exists high: nat ::
      |Behind(accepted, hole, high)| >= 4 && forall i | i in Behind(accepted, hole, high) :: MayFollowLoss(held, accepted[i])
  }

  lemma ContinuesMeansMayFollow(held: set<int>, packet: Packet)
    ensures Continues(held, packet) <==> MayFollowLoss(held, packet)
  {
    if Continues(held, packet) && packet.Input? && packet.metadata.value.kind != Commit {
      var c := packet.metadata.value.contact.value;
      assert packet.metadata == Some(Metadata(packet.metadata.value.kind, Some(c)));
    }
  }

  lemma RecoversMeansFourFollow(held: set<int>, accepted: map<nat, Packet>, hole: nat)
    ensures RecoversAfter(held, accepted, hole) <==> FourMayFollow(held, accepted, hole)
  {
    forall packet
      ensures Continues(held, packet) <==> MayFollowLoss(held, packet)
    {
      ContinuesMeansMayFollow(held, packet);
    }
    hide Continues, MayFollowLoss;
    forall high: nat
      ensures Between(accepted, hole, high) == Behind(accepted, hole, high)
    {
    }
    if RecoversAfter(held, accepted, hole) {
      var high: nat :| Harmless(held, accepted, hole, high);
      assert |Behind(accepted, hole, high)| >= 4;
    }
    if FourMayFollow(held, accepted, hole) {
      var high: nat :| |Behind(accepted, hole, high)| >= 4
        && forall i | i in Behind(accepted, hole, high) :: MayFollowLoss(held, accepted[i]);
      assert Harmless(held, accepted, hole, high);
    }
  }

  /** A position is skipped only when it is the next and missing, while contacts are held, and with at
      least four packets behind it that may follow a lost one, the nearest ones and none left out. */
  lemma {:induction false} SkipsAreSafe(strict: bool, trace: seq<Event>, k: nat)
    requires Conforms(strict, trace) && k < |trace| && trace[k].Skipped?
    ensures exists a: nat ::
      && PlaysAt(trace, a, k)
      && trace[k].index == trace[a].start + 1 + |RunsIn(trace[a + 1..k])|
      && trace[k].index !in AcceptedIn(trace[a + 1..k])
      && HeldBy(RunsIn(trace[a + 1..k])) != {}
      && FourMayFollow(HeldBy(RunsIn(trace[a + 1..k])), AcceptedIn(trace[a + 1..k]), trace[k].index)
  {
    hide Watch, WasAccepted, HeldBy, RecoversAfter, FourMayFollow, AcceptedIn, RunsIn;
    WatchStep(strict, trace, k);
    ConformsBefore(strict, trace, k + 1);
    var a := HistoryBefore(strict, trace, k);
    RecoversMeansFourFollow(HeldBy(RunsIn(trace[a + 1..k])), AcceptedIn(trace[a + 1..k]), trace[k].index);
  }

  /** Between operations no position is left open that could be skipped safely. */
  lemma NoSafeHoleIsLeft(g: TouchGesture)
    requires g.Valid() && g.current.Some?
    ensures g.phase.Playing?
    ensures g.current.value.held == {} || !FourMayFollow(g.current.value.held, g.phase.accepted, Base(g.phase))
  {
    hide g.LimitsOk, g.WaitingOk, g.ProtectedOk, g.SeenOk, g.AcceptedOk, g.SourcesKnown, g.SubmittedOk, PendingOk,
      CurrentOk, RecoversAfter, FourMayFollow, HeldBy;
    CurrentPlays(g.current.value, g.phase);
    RecoversMeansFourFollow(g.current.value.held, g.phase.accepted, Base(g.phase));
  }

  predicate Lowers(packet: Packet, c: int) {
    packet.Input? && packet.metadata == Some(Metadata(Down, Some(c)))
  }

  predicate Lifts(packet: Packet, c: int) {
    packet.Input? && packet.metadata.Some? &&
    (packet.metadata.value.kind == Reset || packet.metadata.value == Metadata(Up, Some(c)))
  }

  /** The contact went down and was neither lifted nor reset afterwards. */
  ghost predicate LeftDown(played: seq<Packet>, c: int) {
    0 <= c < 32 && exists i :: 0 <= i < |played| && Lowers(played[i], c) && forall j | i < j < |played| :: !Lifts(played[j], c)
  }

  /** The contacts held after some packets are those that were left down. */
  lemma {:induction false} HeldMeansLeftDown(played: seq<Packet>, c: int)
    ensures c in HeldBy(played) <==> LeftDown(played, c)
    decreases |played|
  {
    if played != [] {
      var front, last := played[..|played| - 1], played[|played| - 1];
      HeldMeansLeftDown(front, c);
      if LeftDown(played, c) && !Lowers(last, c) {
        var i :| 0 <= i < |played| && Lowers(played[i], c) && forall j | i < j < |played| :: !Lifts(played[j], c);
        assert front[i] == played[i];
        assert forall j | i < j < |front| :: front[j] == played[j];
      }
      if LeftDown(front, c) && !Lifts(last, c) {
        var i :| 0 <= i < |front| && Lowers(front[i], c) && forall j | i < j < |front| :: !Lifts(front[j], c);
        assert Lowers(played[i], c);
        assert forall j | i < j < |played| :: played[j] == if j < |front| then front[j] else last;
      }
      if Lowers(last, c) {
        assert played[|played| - 1] == last;
      }
    }
  }

  /** A finished gesture reports exactly the contacts its packets have left down. */
  lemma {:induction false} FinishTellsHeld(strict: bool, trace: seq<Event>, k: nat)
    requires Conforms(strict, trace) && k < |trace| && trace[k].Finished?
    ensures exists a: nat :: PlaysAt(trace, a, k) && forall c :: c in trace[k].held <==> LeftDown(RunsIn(trace[a + 1..k]), c)
  {
    hide Watch, WasAccepted, HeldBy, LeftDown;
    WatchStep(strict, trace, k);
    ConformsBefore(strict, trace, k + 1);
    var a := HistoryBefore(strict, trace, k);
    forall c
      ensures c in trace[k].held <==> LeftDown(RunsIn(trace[a + 1..k]), c)
    {
      HeldMeansLeftDown(RunsIn(trace[a + 1..k]), c);
    }
  }

  /** The stop has run, and nothing but reports has come since. */
  ghost predicate JustStopped(trace: seq<Event>, k: nat) {
    exists j :: 0 <= j < k <= |trace| && IsStop(trace[j]) && forall i | j < i < k :: trace[i].Reported?
  }

  predicate IsStop(e: Event) {
    e.Ran? && e.packet.StopGesture?
  }

  predicate PlaysPastStop(phase: Phase) {
    phase.Playing? && Over(phase.played)
  }

  lemma StopStep(strict: bool, m: Monitor, e: Event)
    requires !Step(strict, m, e).phase.Broken?
    ensures PlaysPastStop(Step(strict, m, e).phase) <==> IsStop(e) || (PlaysPastStop(m.phase) && e.Reported?)
    ensures PlaysPastStop(m.phase) ==> Ends(e) || e.Reported?
    ensures e.Finished? ==> PlaysPastStop(m.phase)
  {
    hide SafeToSkip, HeldBy;
  }

  lemma JustStoppedStep(trace: seq<Event>, k: nat)
    requires 0 < k <= |trace|
    ensures JustStopped(trace, k) <==> IsStop(trace[k - 1]) || (JustStopped(trace, k - 1) && trace[k - 1].Reported?)
  {
    if JustStopped(trace, k) && !IsStop(trace[k - 1]) {
      var j :| 0 <= j < k && IsStop(trace[j]) && forall i | j < i < k :: trace[i].Reported?;
      assert j < k - 1;
    }
  }

  lemma {:induction false} OverMeansJustStopped(strict: bool, trace: seq<Event>, k: nat)
    requires Conforms(strict, trace) && k <= |trace|
    ensures PlaysPastStop(Watch(strict, trace[..k]).phase) <==> JustStopped(trace, k)
    decreases k
  {
    hide Step, JustStopped, PlaysPastStop;
    if k > 0 {
      OverMeansJustStopped(strict, trace, k - 1);
      WatchStep(strict, trace, k - 1);
      ConformsBefore(strict, trace, k);
      StopStep(strict, Watch(strict, trace[..k - 1]), trace[k - 1]);
      JustStoppedStep(trace, k);
    } else {
      NothingStopped(strict, trace);
    }
  }

  lemma NothingStopped(strict: bool, trace: seq<Event>)
    ensures !PlaysPastStop(Watch(strict, trace[..0]).phase) && !JustStopped(trace, 0)
  {
  }

  /** Once its stop has run, a gesture can only end: nothing more of it is accepted, skipped or run. */
  lemma StopIsLast(strict: bool, trace: seq<Event>, k: nat)
    requires Conforms(strict, trace) && k < |trace| && JustStopped(trace, k)
    ensures Ends(trace[k]) || trace[k].Reported?
  {
    hide Step, JustStopped, PlaysPastStop;
    OverMeansJustStopped(strict, trace, k);
    WatchStep(strict, trace, k);
    ConformsBefore(strict, trace, k + 1);
    StopStep(strict, Watch(strict, trace[..k]), trace[k]);
  }

  /** A gesture is finished by its own stop and by nothing else. */
  lemma FinishFollowsStop(strict: bool, trace: seq<Event>, k: nat)
    requires Conforms(strict, trace) && k < |trace| && trace[k].Finished?
    ensures JustStopped(trace, k)
  {
    hide Step, JustStopped, PlaysPastStop;
    OverMeansJustStopped(strict, trace, k);
    WatchStep(strict, trace, k);
    ConformsBefore(strict, trace, k + 1);
    StopStep(strict, Watch(strict, trace[..k]), trace[k]);
  }

  /** No stop is left without an end: between operations nothing has just been stopped. */
  lemma EveryStopHasEnded(g: TouchGesture)
    requires g.Valid()
    ensures !JustStopped(g.trace, |g.trace|)
  {
    hide g.LimitsOk, g.WaitingOk, g.ProtectedOk, g.SeenOk, g.AcceptedOk, g.SourcesKnown, g.SubmittedOk, PendingOk,
      CurrentOk, HeldBy, JustStopped;
    EveryRunConforms(g);
    OverMeansJustStopped(g.owner.Reserved?, g.trace, |g.trace|);
    assert g.trace[..|g.trace|] == g.trace;
  }

  /** What has been played is what was accepted, index by index. */
  ghost predicate PlayedWasAccepted(phase: Phase) {
    phase.Playing? ==> forall i | phase.first <= i < Base(phase) ::
      i in phase.accepted && phase.accepted[i] == phase.played[i - phase.first]
  }

  lemma StepKeepsPlayed(strict: bool, m: Monitor, e: Event)
    requires PlayedWasAccepted(m.phase)
    ensures PlayedWasAccepted(Step(strict, m, e).phase)
  {
    hide SafeToSkip, HeldBy;
  }

  lemma {:induction false} PlayedWereAccepted(strict: bool, trace: seq<Event>)
    ensures PlayedWasAccepted(Watch(strict, trace).phase)
    decreases |trace|
  {
    hide Step;
    if trace != [] {
      var before, e := trace[..|trace| - 1], trace[|trace| - 1];
      PlayedWereAccepted(strict, before);
      StepKeepsPlayed(strict, Watch(strict, before), e);
    }
  }

  /** Between operations the current gesture has played exactly the packets accepted without a
      gap after its start, and waits for the first one missing; its queue is in step with that. */
  lemma PlaysLongestPrefix(g: TouchGesture)
    requires g.Valid() && g.current.Some?
    ensures g.phase.Playing? && g.phase.id == g.current.value.id && PlayedWasAccepted(g.phase)
    ensures Base(g.phase) !in g.phase.accepted
    ensures g.current.value.held == HeldBy(g.phase.played)
    ensures var gesture := g.current.value;
      gesture.queue.waiting == |gesture.buffered| == |set i | i in g.phase.accepted && i > Base(g.phase)| <= WINDOW - 1
  {
    hide g.LimitsOk, g.WaitingOk, g.ProtectedOk, g.SeenOk, g.AcceptedOk, g.SourcesKnown, g.SubmittedOk, PendingOk,
      CurrentOk;
    PlayedWereAccepted(g.owner.Reserved?, g.trace);
    CurrentPlays(g.current.value, g.phase);
    BufferedAreAhead(g.current.value, g.phase);
  }

  lemma BufferedAreAhead(g: Gesture, phase: Phase)
    requires CurrentOk(g, phase) && Settled(g) && !g.queue.locked
    ensures phase.Playing? && g.queue.waiting == |g.buffered| <= WINDOW - 1
    ensures |g.buffered| == |set i | i in phase.accepted && i > Base(phase)|
  {
    hide HeldBy;
    forall s | s in g.buffered
      ensures s < CYCLE && Base(phase) < Index(Base(phase), s) < Base(phase) + WINDOW
    {
      IndexIsSentAs(Base(phase), s);
    }
    HalfRingIsSmall(Base(phase), g.buffered.Keys);
    IndicesMatchSlots(g.buffered, phase.accepted, Base(phase));
  }

  /** Every trace the class can produce under an owner conforms. */
  lemma EveryRunConforms(g: TouchGesture)
    requires g.Valid()
    ensures Conforms(g.owner.Reserved?, g.trace)
    ensures Watch(g.owner.Reserved?, g.trace).seen == g.seen
  {
    hide g.LimitsOk, g.WaitingOk, g.ProtectedOk, g.SeenOk, g.AcceptedOk, g.SourcesKnown, g.SubmittedOk, PendingOk;
  }

  /** Whatever runs for an owner was pushed since that owner came, for the gesture that is playing and
      under the sequence number of its index. */
  lemma RunsWhatItsOwnerPushed(g: TouchGesture, k: nat)
    requires g.Valid() && k < |g.trace| && g.trace[k].Ran? && g.trace[k].packet != Filler
    ensures exists a: nat :: PlaysAt(g.trace, a, k) && (g.trace[a].id, SlotOf(g.trace[k].index), g.trace[k].packet) in g.submitted
  {
    hide g.LimitsOk, g.WaitingOk, g.ProtectedOk, g.SeenOk, g.SourcesKnown, g.SubmittedOk, PendingOk, Watch, RunsIn;
    EveryRunConforms(g);
    RunsInRingOrder(g.owner.Reserved?, g.trace, k);
    var a: nat :| PlaysAt(g.trace, a, k) && WasAccepted(g.trace[..k], a, g.trace[a].id, g.trace[k].index, g.trace[k].packet);
    var before, e := g.trace[..k], g.trace[k];
    var c :| a < c < |before| &&
      (before[c] == Accepted(g.trace[a].id, e.index, e.packet) || (before[c] == Skipped(e.index) && e.packet == Filler));
    assert g.trace[c] == before[c] && g.trace[c].Accepted?;
  }

  // ---------------------------------------------------------------- what the requests look at

  /** A start comes too late exactly if its gesture is on the list of the retired ones, is playing, has started, or
      is not later than the latest of its source. */
  lemma TooLateIff(g: TouchGesture, id: Option<Id>)
    requires g.Valid()
    ensures g.TooLate(id) <==>
      || (exists r :: r in g.retired && id == Some(r))
      || (g.current.Some? && g.current.value.id == id)
      || (exists k :: k in g.waiting && k == id)
      || (exists n :: id.Some? && id.value.names == Some(n) && (n.order == 0 || (n.source in g.sources && n.order <= g.sources[n.source].order)))
  {
    hide g.LimitsOk, g.WaitingOk, g.ProtectedOk, g.SeenOk, g.AcceptedOk, g.SourcesKnown, g.SubmittedOk, CurrentOk;
    g.WaitingArePending();
    if id.Some? && id.value.names.Some? {
      var n := id.value.names.value;
      assert id.value.names == Some(n);
    }
  }

  /** Without an owner any identifier that is neither empty nor too long will do; nobody is heard between owners;
      and under an owner only its reservation is, for gestures that say when they were issued. */
  lemma AllowedIff(g: TouchGesture, id: Option<Id>, reservation: Option<string>)
    ensures g.Allowed(id, reservation) <==>
      && (id.Some? ==> id.value.text != "" && |id.value.text| <= 128)
      && match g.owner
         case Unprotected => true
         case Nobody => false
         case Reserved(r) =>
           reservation == Some(r) && exists s, n, t :: id.Some? && id.value.names == Some(Source(s, n, Some(t)))
  {
    if g.owner.Reserved? && id.Some? && id.value.names.Some? && id.value.names.value.issuedAt.Some? {
      var n := id.value.names.value;
      assert id.value.names == Some(Source(n.source, n.order, Some(n.issuedAt.value)));
    }
  }

  /** A push is heard under its own identifier, or for the current gesture if it has none and there is no owner,
      unless the gesture is retired. */
  lemma HeardIff(g: TouchGesture, slot: int, id: Option<Id>, reservation: Option<string>)
    ensures g.KeyFor(id) == match id
      case Some(_) => id
      case None => if g.current.Some? && g.owner == Unprotected then g.current.value.id else None
    ensures g.Heard(slot, id, reservation) <==>
      0 <= slot < 100 && g.Allowed(id, reservation) && forall r | r in g.retired :: g.KeyFor(id) != Some(r)
  {
    hide g.Allowed;
  }

  /** A source may be forgotten exactly if it has nothing pending or playing, has not been heard of for long, and its
      latest start was issued too long ago to be repeated. */
  lemma EvictableIff(g: TouchGesture, s: string, now: int)
    requires g.Valid()
    ensures g.Evictable(s, now) <==>
      && s in g.sources && g.sources[s].seen + g.sourceIdle <= now
      && (exists t: nat :: g.sources[s].issuedAt == Some(t) && t + g.maxStartAge <= now)
      && (forall k: Option<Id>, n | k in g.pending && n == g.SourceOf(k) && n.Some? :: n.value.source != s)
      && (forall n | g.current.Some? && n == g.SourceOf(g.current.value.id) && n.Some? :: n.value.source != s)
  {
    hide g.LimitsOk, g.WaitingOk, g.ProtectedOk, g.SeenOk, g.AcceptedOk, g.SourcesKnown, g.SubmittedOk, CurrentOk;
    g.PendingAreNamed();
    if s in g.sources && g.sources[s].issuedAt.Some? {
      assert g.sources[s].issuedAt == Some(g.sources[s].issuedAt.value);
    }
  }

  /** A stop ends the current gesture at once exactly if it is 50 or more packets ahead of the next one, which the
      ring cannot tell from one that is behind. */
  lemma OutOfWindowIff(g: TouchGesture, slot: int, key: Option<Id>, i: nat)
    requires g.Valid() && g.current.Some? && SlotOf(i) == slot && Base(g.phase) <= i < Base(g.phase) + 100
    ensures g.OutOfWindow(slot, key) <==> key == g.current.value.id && i >= Base(g.phase) + 50
  {
    hide g.LimitsOk, g.WaitingOk, g.ProtectedOk, g.SeenOk, g.AcceptedOk, g.SourcesKnown, g.SubmittedOk, PendingOk,
      RingHolds,
      QueueHolds, HeldBy;
    var d := i - Base(g.phase);
    assert i == Base(g.phase) + d;
  }
}
