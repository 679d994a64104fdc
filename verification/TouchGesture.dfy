/** The reorderer of touch packets: it plays every gesture of the current reservation in ring
    order, lets the next gesture of the same source wait for its turn, and never plays a gesture
    identifier twice.

    Gesture records are values held in `current` and `pending`; `waiting` holds their keys. A
    timer is a flag on the gesture, and its firing is one of the methods below. */
module TouchGestures {
  import opened Wrappers
  import opened TouchMonitor
  import opened TouchRing
  import opened MapSize
  import opened SeqQueues
  import opened Sequences

  datatype SourceState = SourceState(order: nat, seen: int, issuedAt: Option<nat>)

  /** Before the first `SetOwner` packets need no reservation at all. */
  datatype Owner = Unprotected | Nobody | Reserved(reservation: string)

  datatype Timer = NoTimer | StartTimer | TailTimer | GapTimer

  datatype Gesture = Gesture(
    id: Option<Id>,
    queue: Ring<Packet>,
    pending: Option<map<nat, Packet>>,
    buffered: map<nat, Packet>,
    timer: Timer,
    gap: Option<nat>,
    next: Option<nat>,
    start: Option<nat>,
    held: set<int>)

  function NewGesture(id: Option<Id>): Gesture {
    Gesture(id, EmptyRing(CYCLE), Some(map[]), map[], StartTimer, None, None, None, {})
  }

  /** Nothing has reached the queue of a gesture that is not current yet. */
  predicate Untouched(g: Gesture) {
    g.queue == EmptyRing(CYCLE) && g.buffered == map[] && g.held == {} && g.next.None? && g.gap.None?
  }

  function Size(g: Gesture): nat {
    if g.pending.Some? then |g.pending.value| else 0
  }

  ghost function Total(pending: map<Option<Id>, Gesture>): nat {
    if pending == map[] then 0 else
      var k :| k in pending;
      Size(pending[k]) + Total(pending - {k})
  }

  lemma {:induction false} TotalWithout(pending: map<Option<Id>, Gesture>, k: Option<Id>)
    requires k in pending
    ensures Total(pending) == Size(pending[k]) + Total(pending - {k})
    decreases |pending|
  {
    var j :| j in pending && Total(pending) == Size(pending[j]) + Total(pending - {j});
    if j != k {
      OneFewer(pending, j);
      OneFewer(pending, k);
      TotalWithout(pending - {j}, k);
      TotalWithout(pending - {k}, j);
      assert pending - {j} - {k} == pending - {k} - {j};
    }
  }

  lemma TotalUpdate(pending: map<Option<Id>, Gesture>, k: Option<Id>, g: Gesture)
    ensures Total(pending[k := g]) == Size(g) + if k in pending then Total(pending) - Size(pending[k]) else Total(pending)
  {
    TotalWithout(pending[k := g], k);
    assert pending[k := g] - {k} == pending - {k};
    if k in pending {
      TotalWithout(pending, k);
    } else {
      assert pending - {k} == pending;
    }
  }

  function Without(pending: map<Option<Id>, Gesture>, k: Option<Id>): map<Option<Id>, Gesture> {
    pending - {k}
  }

  /** The queue's slots are exactly the buffered packets. */
  predicate QueueHolds(queue: Ring<Packet>, buffered: map<nat, Packet>) {
    && |queue.list| == CYCLE
    && queue.waiting == |buffered|
    && (forall s | s in buffered :: s < CYCLE)
    && (forall s | 0 <= s < CYCLE :: queue.list[s] == if s in buffered then Some(buffered[s]) else None)
  }

  /** What is buffered on the ring is what was accepted under an absolute index not played yet. */
  ghost predicate RingHolds(buffered: map<nat, Packet>, accepted: map<nat, Packet>, base: nat) {
    && (forall s | s in buffered :: s < CYCLE)
    && (forall s {:trigger Index(base, s)} | s in buffered ::
          Index(base, s) < base + WINDOW && Index(base, s) in accepted && accepted[Index(base, s)] == buffered[s])
    && (forall i | i in accepted && i >= base :: i < base + WINDOW && SlotOf(i) in buffered)
  }

  ghost predicate CurrentOk(g: Gesture, phase: Phase) {
    && phase.Playing? && phase.id == g.id
    && g.pending.None? && g.start.Some? && g.next.Some?
    && var base := Base(phase);
    && g.next.value == SlotOf(base)
    && g.held == HeldBy(phase.played)
    && QueueHolds(g.queue, g.buffered)
    && RingHolds(g.buffered, phase.accepted, base)
    && g.start.value < CYCLE && phase.first == g.start.value + 1
    && (g.queue.locked ==> phase.played == [])
    && (!g.queue.locked ==> SlotOf(g.queue.lo) == g.next.value && g.queue.lo <= CYCLE)
    && !g.timer.StartTimer? && !g.timer.TailTimer?
  }

  /** A packet goes into its slot and into `buffered`. */
  function Pushed(g: Gesture, slot: nat, packet: Packet): Gesture
    requires slot < |g.queue.list|
  {
    g.(buffered := g.buffered[slot := packet], queue := Put(g.queue, slot, packet))
  }

  lemma RingPush(buffered: map<nat, Packet>, accepted: map<nat, Packet>, base: nat, slot: nat, packet: Packet)
    requires RingHolds(buffered, accepted, base) && slot < CYCLE && slot !in buffered
    requires Index(base, slot) < base + WINDOW
    ensures Index(base, slot) !in accepted
    ensures RingHolds(buffered[slot := packet], accepted[Index(base, slot) := packet], base)
  {
    hide Index, SlotOf;
    IndexIsSentAs(base, slot);
    forall s | s in buffered
      ensures Index(base, s) != Index(base, slot)
    {
      IndexIsSentAs(base, s);
    }
  }

  lemma PushKeeps(g: Gesture, phase: Phase, slot: nat, packet: Packet)
    requires CurrentOk(g, phase) && slot < CYCLE && slot !in g.buffered
    requires Ahead(slot, g.next.value) < WINDOW
    ensures var i := Index(Base(phase), slot);
      && i !in phase.accepted && i >= Base(phase)
      && CurrentOk(Pushed(g, slot, packet), phase.(accepted := phase.accepted[i := packet]))
  {
    hide RingHolds, HeldBy, SlotOf;
    RingPush(g.buffered, phase.accepted, Base(phase), slot, packet);
  }

  /** The slot the queue stands on has been played. */
  function Taken(g: Gesture, packet: Packet): Gesture
    requires g.queue.lo < |g.queue.list| && 0 < g.queue.waiting
  {
    g.(buffered := g.buffered - {g.queue.lo}, next := Some(SlotOf(g.queue.lo + 1)),
       queue := Advanced(g.queue), held := Touch(g.held, packet))
  }

  lemma RingTake(buffered: map<nat, Packet>, accepted: map<nat, Packet>, base: nat)
    requires RingHolds(buffered, accepted, base) && SlotOf(base) in buffered
    ensures base in accepted && accepted[base] == buffered[SlotOf(base)]
    ensures RingHolds(buffered - {SlotOf(base)}, accepted, base + 1)
  {
    hide Index, SlotOf;
    IndexOfNext(base);
    forall s | s in buffered && s != SlotOf(base)
      ensures Index(base + 1, s) == Index(base, s)
    {
      IndexAfterNext(base, s);
    }
    forall i | i in accepted && i >= base + 1
      ensures SlotOf(i) != SlotOf(base)
    {
      RingTestIsExact(base, i);
    }
  }

  lemma TakeKeeps(g: Gesture, phase: Phase)
    requires CurrentOk(g, phase) && !g.queue.locked && g.queue.lo < CYCLE && g.queue.list[g.queue.lo].Some?
    ensures g.queue.waiting > 0
    ensures var base, packet := Base(phase), g.queue.list[g.queue.lo].value;
      && base in phase.accepted && phase.accepted[base] == packet
      && CurrentOk(Taken(g, packet), phase.(played := phase.played + [packet]))
  {
    hide RingHolds, HeldBy, Touch, SlotOf;
    assert SlotOf(g.queue.lo) == g.queue.lo by {
      SlotOfSmall(g.queue.lo);
    }
    HeldByOneMore(phase.played, g.queue.list[g.queue.lo].value);
    OneFewer(g.buffered, g.queue.lo);
    IndexOfNext(Base(phase));
    RingTake(g.buffered, phase.accepted, Base(phase));
  }

  lemma CurrentPlays(g: Gesture, phase: Phase)
    requires CurrentOk(g, phase)
    ensures phase.Playing? && phase.id == g.id && g.pending.None? && g.start.Some?
    ensures g.next == Some(SlotOf(Base(phase)))
    ensures g.held == HeldBy(phase.played) && |g.queue.list| == CYCLE
    ensures g.queue.locked ==> g.held == {} && phase.played == []
    ensures !g.queue.locked && Settled(g) ==> Base(phase) !in phase.accepted
    ensures forall i | i in phase.accepted :: i < Base(phase) + WINDOW
  {
  }

  lemma OpenedStandsAtNext(g: Gesture, phase: Phase)
    requires CurrentOk(g, phase) && g.queue.locked
    ensures g.start.Some? && CurrentOk(g.(queue := Opened(g.queue, g.start.value)), phase)
  {
    hide RingHolds, HeldBy;
  }

  /** The slot the queue stands on holds the next packet, if there is one. */
  lemma QueueStandsAtNext(g: Gesture, phase: Phase)
    requires CurrentOk(g, phase) && !g.queue.locked
    ensures |g.queue.list| == CYCLE && CurrentOk(g.(queue := Wrapped(g.queue)), phase)
    ensures var q := Wrapped(g.queue); q.lo < CYCLE && (q.list[q.lo].None? <==> Settled(g))
    ensures g.queue.waiting == 0 ==> Settled(g)
  {
    hide RingHolds, HeldBy, SlotOf;
    var q := Wrapped(g.queue);
    SlotOfSmall(q.lo);
    SlotOfCycle();
  }

  /** Walking the ring from the next position meets the accepted indices in order. */
  lemma RingAt(buffered: map<nat, Packet>, accepted: map<nat, Packet>, base: nat, d: nat)
    requires RingHolds(buffered, accepted, base) && d < CYCLE
    ensures SlotOf(base + d) in buffered <==> base + d in accepted
    ensures base + d in accepted ==> buffered[SlotOf(base + d)] == accepted[base + d]
  {
    IndexAhead(base, d);
  }

  /** How many of the buffered packets nearest to the hole may follow it, up to the first that may not. */
  method CountSafe(g: Gesture, ghost phase: Phase) returns (safe: nat)
    requires CurrentOk(g, phase) && !g.queue.locked && Settled(g)
    ensures safe >= 4 <==> RecoversAfter(g.held, phase.accepted, Base(phase))
  {
    hide RingHolds, QueueHolds, HeldBy, Continues;
    ghost var base := Base(phase);
    ghost var accepted := phase.accepted;
    safe := 0;
    var d := 1;
    while d < CYCLE
      invariant 1 <= d <= CYCLE
      invariant safe == |Between(accepted, base, base + d - 1)|
      invariant forall i | i in Between(accepted, base, base + d - 1) :: Continues(g.held, accepted[i])
    {
      var slot := SlotOf(g.next.value + d);
      SlotOfSum(base, d);
      RingAt(g.buffered, accepted, base, d);
      OneFurther(accepted, base, base + d);
      if slot in g.buffered {
        if !Continues(g.held, g.buffered[slot]) {
          break;
        }
        safe := safe + 1;
      }
      d := d + 1;
    }
    if safe >= 4 {
      assert Harmless(g.held, accepted, base, base + d - 1);
    }
    forall high: nat | Harmless(g.held, accepted, base, high)
      ensures safe >= 4
    {
      NothingBeyond(g.buffered, accepted, base);
      SubsetIsSmaller(Between(accepted, base, high), Between(accepted, base, base + d - 1));
    }
  }

  lemma OneFurther(accepted: map<nat, Packet>, low: nat, high: nat)
    requires low < high
    ensures Between(accepted, low, high) ==
      Between(accepted, low, high - 1) + if high in accepted then {high} else {}
    ensures |Between(accepted, low, high)| ==
      |Between(accepted, low, high - 1)| + if high in accepted then 1 else 0
  {
    assert Between(accepted, low, high) ==
      Between(accepted, low, high - 1) + if high in accepted then {high} else {};
  }

  lemma SkipHasFollowers(accepted: map<nat, Packet>, held: set<int>, hole: nat)
    requires RecoversAfter(held, accepted, hole)
    ensures exists i :: i in accepted && hole < i
  {
    var high: nat :| Harmless(held, accepted, hole, high);
    var i :| i in Between(accepted, hole, high);
  }

  lemma NothingBeyond(buffered: map<nat, Packet>, accepted: map<nat, Packet>, base: nat)
    requires RingHolds(buffered, accepted, base)
    ensures forall i | i in accepted :: i < base + WINDOW
  {
  }

  /** For a packet whose absolute index lies in the window around the next one, the ring test and
      the buffer tell exactly whether it was played or buffered already. */
  lemma IgnoresExactly(g: Gesture, phase: Phase, i: nat)
    requires CurrentOk(g, phase) && Base(phase) <= i + WINDOW && i < Base(phase) + WINDOW
    ensures Ignores(g, SlotOf(i)) <==> i < Base(phase) || i in phase.accepted
    ensures !Ignores(g, SlotOf(i)) ==> Index(Base(phase), SlotOf(i)) == i
  {
    hide QueueHolds, HeldBy, SlotOf;
    RingTestIsExact(Base(phase), i);
    if Base(phase) <= i {
      RingAt(g.buffered, phase.accepted, Base(phase), i - Base(phase));
    }
  }

  lemma {:induction false} IndicesMatchSlots(buffered: map<nat, Packet>, accepted: map<nat, Packet>, base: nat)
    requires RingHolds(buffered, accepted, base) && SlotOf(base) !in buffered
    ensures |buffered| == |set i | i in accepted && i > base|
  {
    var ahead := set i | i in accepted && i > base;
    SameSize(base, buffered.Keys, ahead);
  }

  lemma {:induction false} SameSize(base: nat, slots: set<nat>, ahead: set<nat>)
    requires forall s {:trigger Index(base, s)} | s in slots :: s < CYCLE && Index(base, s) in ahead
    requires forall s | s in slots :: s < CYCLE
    requires forall i | i in ahead :: base < i < base + WINDOW && SlotOf(i) in slots
    ensures |slots| == |ahead|
    decreases ahead
  {
    if s0 :| s0 in slots {
      var i := Index(base, s0);
      IndexIsSentAs(base, s0);
      forall s | s in slots && s != s0
        ensures Index(base, s) != i
      {
        IndexIsSentAs(base, s);
      }
      forall j | j in ahead && j != i
        ensures SlotOf(j) != s0
      {
        RingTestIsExact(base, j);
      }
      SameSize(base, slots - {s0}, ahead - {i});
    } else {
      assert ahead == {};
    }
  }

  /** No missing position is left that it is safe to go on without. */
  ghost predicate NoSafeHole(phase: Phase) {
    phase.Playing? ==> !SafeToSkip(HeldBy(phase.played), phase.accepted, Base(phase))
  }

  lemma HoleIsUnsafe(g: Gesture, phase: Phase)
    requires CurrentOk(g, phase) && Settled(g)
    requires g.queue.locked || g.held == {} || |g.buffered| < 4 || !RecoversAfter(g.held, phase.accepted, Base(phase))
    ensures NoSafeHole(phase)
  {
    CurrentPlays(g, phase);
    if !g.queue.locked && RecoversAfter(g.held, phase.accepted, Base(phase)) {
      FewDoNotRecover(g, phase);
    }
  }

  lemma FewDoNotRecover(g: Gesture, phase: Phase)
    requires CurrentOk(g, phase) && Settled(g) && !g.queue.locked && RecoversAfter(g.held, phase.accepted, Base(phase))
    ensures |g.buffered| >= 4
  {
    hide QueueHolds, HeldBy, Continues, RingHolds, SlotOf;
    var base := Base(phase);
    var high: nat :| Harmless(g.held, phase.accepted, base, high);
    FewBetween(g.buffered, phase.accepted, base, high);
  }

  lemma FewBetween(buffered: map<nat, Packet>, accepted: map<nat, Packet>, base: nat, high: nat)
    requires RingHolds(buffered, accepted, base) && SlotOf(base) !in buffered
    ensures |Between(accepted, base, high)| <= |buffered|
  {
    hide RingHolds, SlotOf;
    var ahead := set i | i in accepted && i > base;
    IndicesMatchSlots(buffered, accepted, base);
    assert |buffered| == |ahead|;
    SubsetIsSmaller(Between(accepted, base, high), ahead);
  }

  predicate Ignores(g: Gesture, slot: nat)
    requires slot < CYCLE
  {
    g.next.Some? && g.next.value < CYCLE && (Ahead(slot, g.next.value) >= WINDOW || slot in g.buffered)
  }

  /** The next packet is missing, so the queue has nothing to play. */
  predicate Settled(g: Gesture) {
    g.next.Some? && (g.queue.locked || g.next.value !in g.buffered)
  }

  /** The gap timer is armed exactly while the gesture is stalled before buffered packets. */
  predicate GapTimerOk(g: Gesture) {
    if g.buffered == map[] then g.timer == NoTimer && g.gap.None? else g.timer == GapTimer && g.gap == g.next
  }

  ghost predicate PendingOk(pending: map<Option<Id>, Gesture>, waiting: seq<Option<Id>>, starting: Option<Option<Id>>) {
    (starting.Some? ==> starting.value in pending) &&
    forall k | k in pending ::
      var g := pending[k];
      && g.id == k
      && Untouched(g)
      && g.pending.Some? && |g.pending.value| < WINDOW
      && (forall s | s in g.pending.value :: s < CYCLE)
      && (g.start.Some? <==> k in waiting || starting == Some(k))
      && (g.start.Some? ==> g.start.value < CYCLE)
      && (k in waiting ==> g.timer.NoTimer? || (g.timer.TailTimer? && k == waiting[0]))
      && (starting == Some(k) ==> k !in waiting && !g.timer.StartTimer?)
      && (k !in waiting && starting != Some(k) ==> g.timer.StartTimer?)
  }

  ghost predicate Occurs(trace: seq<Event>, since: nat, e: Event) {
    exists j :: since <= j < |trace| && trace[j] == e
  }

  lemma LastOccurs(trace: seq<Event>, since: nat, e: Event)
    requires since <= |trace|
    ensures Occurs(trace + [e], since, e)
  {
    assert (trace + [e])[|trace|] == e;
  }

  /** The packets that have come before the turn of a gesture. */
  function PacketsOf(g: Gesture): map<nat, Packet> {
    if g.pending.Some? then g.pending.value else map[]
  }

  function WithPacket(g: Gesture, slot: nat, packet: Packet): Gesture {
    g.(pending := Some(PacketsOf(g)[slot := packet]))
  }

  /** What a gesture was pushed and started with. */
  predicate Alike(g: Gesture, h: Gesture) {
    g.id == h.id && g.start == h.start && g.pending == h.pending
  }

  /** What becomes of a packet whose gesture has not got its turn: it is kept, the first one under each
      number, or without room the gesture is given up. */
  ghost predicate Buffers(key: Option<Id>, slot: nat, packet: Packet, room: bool, before: map<Option<Id>, Gesture>,
                          after: map<Option<Id>, Gesture>, t0: seq<Event>, t1: seq<Event>)
  {
    key in before &&
    if slot in PacketsOf(before[key]) then after == before && t1 == t0
    else if room then after == before[key := WithPacket(before[key], slot, packet)] && t1 == t0
    else
      && after.Keys == before.Keys - {key} && (forall k | k in after :: Alike(before[k], after[k]))
      && Occurs(t1, |t0|, Reported(BufferFull))
  }

  function PositionAt(g: Gesture, d: nat): nat {
    if g.start.Some? then SlotOf(g.start.value + d) else 0
  }

  /** The packets at the first positions behind the start, up to but not including the `d`th, were all
      accepted; those more than 50 behind it are not meant. */
  ghost predicate Delivered(trace: seq<Event>, since: nat, g: Gesture, d: nat) {
    g.start.Some? && forall e | 1 <= e < d && e <= WINDOW && PositionAt(g, e) in PacketsOf(g) ::
      Occurs(trace, since, Accepted(g.id, g.start.value + e, PacketsOf(g)[PositionAt(g, e)]))
  }

  lemma OccursStays(t: seq<Event>, u: seq<Event>, since: nat, e: Event)
    requires Occurs(t, since, e) && t <= u
    ensures Occurs(u, since, e)
  {
    var j :| since <= j < |t| && t[j] == e;
    assert u[j] == e;
  }

  lemma DeliveredStays(t: seq<Event>, u: seq<Event>, since: nat, g: Gesture, d: nat)
    requires Delivered(t, since, g, d) && t <= u
    ensures Delivered(u, since, g, d)
  {
    hide Occurs;
    forall e | 1 <= e < d && e <= WINDOW && PositionAt(g, e) in PacketsOf(g)
      ensures Occurs(u, since, Accepted(g.id, g.start.value + e, PacketsOf(g)[PositionAt(g, e)]))
    {
      OccursStays(t, u, since, Accepted(g.id, g.start.value + e, PacketsOf(g)[PositionAt(g, e)]));
    }
  }

  lemma DeliveredNext(t: seq<Event>, since: nat, g: Gesture, d: nat)
    requires Delivered(t, since, g, d)
    requires d <= WINDOW && PositionAt(g, d) in PacketsOf(g) ==>
      Occurs(t, since, Accepted(g.id, g.start.value + d, PacketsOf(g)[PositionAt(g, d)]))
    ensures Delivered(t, since, g, d + 1)
  {
    hide Occurs;
  }

  /** The gesture was activated, and what had come for it by then was accepted. */
  ghost predicate Launched(trace: seq<Event>, since: nat, g: Gesture) {
    g.start.Some? && exists j :: since <= j < |trace| && trace[j] == Activated(g.id, g.start.value) && Delivered(trace, j + 1, g, CYCLE)
  }

  lemma LaunchedStays(t: seq<Event>, u: seq<Event>, since: nat, later: nat, g: Gesture)
    requires Launched(t, later, g) && since <= later && t <= u
    ensures Launched(u, since, g)
  {
    hide Delivered;
    var j :| later <= j < |t| && t[j] == Activated(g.id, g.start.value) && Delivered(t, j + 1, g, CYCLE);
    DeliveredStays(t, u, j + 1, g, CYCLE);
    assert u[j] == t[j];
  }

  /** What other gestures than the current one leave behind when it plays on. */
  datatype Around = Around(pending: map<Option<Id>, Gesture>, trace: seq<Event>, retired: seq<Id>,
                           sources: map<string, SourceState>, now: int)

  /** Gestures leave the buffers only by being activated, and keep their packets until then. */
  ghost predicate Carried(a: Around, b: Around) {
    && (forall k | k in b.pending :: k in a.pending && Alike(a.pending[k], b.pending[k]))
    && (forall k | k in a.pending && k !in b.pending ::
          a.pending[k].start.Some? && Occurs(b.trace, |a.trace|, Activated(k, a.pending[k].start.value)))
  }

  /** No watermark goes down or is lost. */
  ghost predicate Rises(before: map<string, SourceState>, after: map<string, SourceState>) {
    forall s | s in before :: s in after && before[s].order <= after[s].order
  }

  ghost predicate StopRan(trace: seq<Event>, since: nat) {
    exists j :: since <= j < |trace| && trace[j].Ran? && trace[j].packet.StopGesture?
  }

  ghost predicate EndedSince(trace: seq<Event>, since: nat) {
    exists j :: since <= j < |trace| && Ends(trace[j])
  }

  /** Whatever ends a gesture is its stop. */
  ghost predicate StopsOnly(trace: seq<Event>, since: nat) {
    forall j | since <= j < |trace| && Ends(trace[j]) :: j > 0 && trace[j - 1].Ran? && trace[j - 1].packet.StopGesture?
  }

  /** How things go on while packets are played: others are only activated, only their stops end gestures, only
      what has ended is retired, and every watermark stays. */
  ghost predicate Onward(a: Around, b: Around) {
    && a.trace <= b.trace && a.now <= b.now && Carried(a, b) && Rises(a.sources, b.sources)
    && (a.retired == b.retired || EndedSince(b.trace, |a.trace|))
    && StopsOnly(b.trace, |a.trace|)
  }

  lemma NothingGoesOn(a: Around)
    ensures Onward(a, a)
  {
  }

  /** Something other than an end is recorded. */
  lemma EventGoesOn(a: Around, b: Around, e: Event)
    requires b == a.(trace := a.trace + [e], sources := b.sources) && !Ends(e) && Rises(a.sources, b.sources)
    ensures Onward(a, b)
  {
  }

  /** A gesture ends with its stop, and may be reported to be forgotten. */
  lemma EndGoesOn(a: Around, b: Around, e: Event)
    requires Ends(e) && a.trace != [] && a.trace[|a.trace| - 1].Ran? && a.trace[|a.trace| - 1].packet.StopGesture?
    requires b.pending == a.pending && Rises(a.sources, b.sources) && a.now <= b.now
    requires b.trace == a.trace + [e] || b.trace == a.trace + [e] + [Reported(SourceLimit)]
    ensures Onward(a, b)
  {
    assert b.trace[|a.trace|] == e;
    assert forall j | |a.trace| <= j < |b.trace| && Ends(b.trace[j]) :: j == |a.trace|;
  }

  lemma EndedSinceStays(t: seq<Event>, u: seq<Event>, since: nat, later: nat)
    requires EndedSince(t, later) && since <= later && t <= u
    ensures EndedSince(u, since)
  {
    var j :| later <= j < |t| && Ends(t[j]);
    assert u[j] == t[j];
  }

  lemma StopsOnlyTwice(t: seq<Event>, u: seq<Event>, since: nat)
    requires since <= |t| && t <= u && StopsOnly(t, since) && StopsOnly(u, |t|)
    ensures StopsOnly(u, since)
  {
    assert forall j | 0 <= j < |t| :: u[j] == t[j];
  }

  lemma CarriedTwice(a: Around, b: Around, c: Around)
    requires Carried(a, b) && Carried(b, c) && a.trace <= b.trace <= c.trace
    ensures Carried(a, c)
  {
    hide Occurs;
    forall k | k in a.pending && k !in c.pending
      ensures a.pending[k].start.Some? && Occurs(c.trace, |a.trace|, Activated(k, a.pending[k].start.value))
    {
      if k in b.pending {
        assert Alike(a.pending[k], b.pending[k]);
        OccursSooner(c.trace, |a.trace|, |b.trace|, Activated(k, a.pending[k].start.value));
      } else {
        OccursStays(b.trace, c.trace, |a.trace|, Activated(k, a.pending[k].start.value));
      }
    }
  }

  lemma OccursSooner(trace: seq<Event>, since: nat, later: nat, e: Event)
    requires Occurs(trace, later, e) && since <= later
    ensures Occurs(trace, since, e)
  {
  }

  lemma OnwardTwice(a: Around, b: Around, c: Around)
    requires Onward(a, b) && Onward(b, c)
    ensures Onward(a, c)
  {
    hide Carried, StopsOnly, EndedSince;
    CarriedTwice(a, b, c);
    StopsOnlyTwice(b.trace, c.trace, |a.trace|);
    if EndedSince(b.trace, |a.trace|) {
      EndedSinceStays(b.trace, c.trace, |a.trace|, |a.trace|);
    }
    if EndedSince(c.trace, |b.trace|) {
      EndedSinceStays(c.trace, c.trace, |a.trace|, |b.trace|);
    }
  }

  /** A gesture leaves the buffers to be played. */
  lemma ActivationGoesOn(a: Around, b: Around, k: Option<Id>)
    requires k in a.pending && a.pending[k].start.Some?
    requires b == a.(pending := a.pending - {k}, trace := a.trace + [Activated(k, a.pending[k].start.value)])
    ensures Onward(a, b)
  {
    assert b.trace[|a.trace|] == Activated(k, a.pending[k].start.value);
  }

  /** Timers are no matter. */
  lemma TimersGoOn(a: Around, b: Around)
    requires b == a.(pending := b.pending) && b.pending.Keys == a.pending.Keys
    requires forall k | k in b.pending :: Alike(a.pending[k], b.pending[k])
    ensures Onward(a, b)
  {
  }

  /** Where the gesture of an identifier is kept. */
  datatype Place = Nowhere | AtCurrent | AtPending

  class TouchGesture {
    const maxPendingGestures: nat
    const maxPendingPackets: nat
    const maxSources: nat
    const maxRetired: nat
    const sourceIdle: nat
    const maxStartAge: nat
    const futureClockSkew: nat
    /** Whether the caller supplied a callback for finished gestures. */
    const reportsFinish: bool

    var owner: Owner
    var current: Option<Gesture>
    var pending: map<Option<Id>, Gesture>
    var waiting: seq<Option<Id>>
    var retired: seq<Id>
    var sources: map<string, SourceState>
    var pendingPackets: int
    var observedNow: int

    /** The closures run and the callbacks made since the last `SetOwner`. */
    var calls: seq<Call>

    /** The events since the last `SetOwner`, and what `Watch` makes of them. */
    ghost var trace: seq<Event>
    ghost var seen: set<Id>
    ghost var phase: Phase
    /** The packets handed in since the last `SetOwner`, under their gesture and number. */
    ghost var submitted: set<(Option<Id>, nat, Packet)>
    /** The gesture that has left `waiting`, or was just started, and is not current yet. */
    ghost var starting: Option<Option<Id>>

    // ---------------------------------------------------------------- invariants

    function SourceOf(id: Option<Id>): Option<Source> {
      if id.Some? then id.value.names else None
    }

    function OrderOf(id: Option<Id>): nat {
      if SourceOf(id).Some? then SourceOf(id).value.order else 0
    }

    ghost predicate InOrder(waiting: seq<Option<Id>>) {
      forall i, j | 0 <= i < j < |waiting| :: OrderOf(waiting[i]) <= OrderOf(waiting[j])
    }

    function IssuedAt(id: Option<Id>): Option<nat> {
      if SourceOf(id).Some? then SourceOf(id).value.issuedAt else None
    }

    function Watermark(source: string): nat
      reads this`sources
    {
      if source in sources then sources[source].order else 0
    }

    /** A start of this identifier is below the watermark its source has left. */
    ghost predicate Covered(a: Id, sources: map<string, SourceState>) {
      && a.names.Some? && a.names.value.issuedAt.Some?
      && var s := a.names.value;
      && s.source in sources
      && s.order <= sources[s.source].order
      && sources[s.source].issuedAt.Some?
      && s.issuedAt.value <= sources[s.source].issuedAt.value
    }

    ghost predicate Stale(a: Id, now: int) {
      a.names.Some? && a.names.value.issuedAt.Some? && now - a.names.value.issuedAt.value >= maxStartAge
    }

    /** The gestures whose turn has not come: started, of one source, in the order of their source. */
    ghost predicate WaitingOk(waiting: seq<Option<Id>>, pending: map<Option<Id>, Gesture>,
                              sources: map<string, SourceState>, playing: Option<Option<Id>>)
    {
      && (forall k | k in waiting :: k in pending && SourceOf(k).Some? && SourceOf(k).value.source in sources)
      && (forall j, k | j in waiting && k in waiting :: SameSource(j, k))
      && InOrder(waiting)
      && (playing.Some? ==> forall k | k in waiting :: SameSource(playing.value, k))
    }

    predicate SameSource(left: Option<Id>, right: Option<Id>) {
      SourceOf(left).Some? && SourceOf(right).Some? && SourceOf(left).value.source == SourceOf(right).value.source
    }

    ghost predicate Identified(id: Option<Id>) {
      SourceOf(id).Some? && SourceOf(id).value.issuedAt.Some?
    }

    ghost predicate ProtectedOk(owner: Owner, pending: map<Option<Id>, Gesture>, playing: Option<Option<Id>>) {
      owner.Unprotected? ||
      (&& (forall k | k in pending :: Identified(pending[k].id))
       && (playing.Some? ==> Identified(playing.value)))
    }

    ghost predicate SeenOk(owner: Owner, seen: set<Id>, pending: map<Option<Id>, Gesture>,
                           sources: map<string, SourceState>, now: int)
    {
      owner.Reserved? ==> forall a | a in seen :: Some(a) !in pending && (Covered(a, sources) || Stale(a, now))
    }

    ghost predicate SubmittedOk(pending: map<Option<Id>, Gesture>, submitted: set<(Option<Id>, nat, Packet)>) {
      forall k, s | k in pending && pending[k].pending.Some? && s in pending[k].pending.value ::
        (pending[k].id, s, pending[k].pending.value[s]) in submitted
    }

    /** Whatever was accepted was handed in for that gesture, under that sequence number. */
    ghost predicate AcceptedOk(trace: seq<Event>, submitted: set<(Option<Id>, nat, Packet)>) {
      forall j | 0 <= j < |trace| && trace[j].Accepted? :: (trace[j].id, SlotOf(trace[j].index), trace[j].packet) in submitted
    }

    ghost predicate LimitsOk(pending: map<Option<Id>, Gesture>, pendingPackets: int,
                             sources: map<string, SourceState>, retired: seq<Id>)
    {
      && 1 <= maxPendingGestures && 1 <= maxPendingPackets && 1 <= maxSources && 1 <= maxRetired
      && |pending| <= maxPendingGestures
      && |sources| <= maxSources
      && |retired| <= maxRetired && Unique(retired)
      && pendingPackets == Total(pending)
      && pendingPackets <= maxPendingPackets
    }

    /** The sources of the gesture being started and of the current one have a watermark. */
    ghost predicate SourcesKnown(starting: Option<Option<Id>>, playing: Option<Option<Id>>,
                                 sources: map<string, SourceState>) {
      && (starting.Some? && SourceOf(starting.value).Some? ==> SourceOf(starting.value).value.source in sources)
      && (playing.Some? && SourceOf(playing.value).Some? ==> SourceOf(playing.value).value.source in sources)
    }

    ghost predicate CurrentPart(current: Option<Gesture>, phase: Phase, pending: map<Option<Id>, Gesture>) {
      if current.None? then phase.Idle?
      else CurrentOk(current.value, phase) && current.value.id !in pending
    }

    ghost predicate TraceOk()
      reads this`owner, this`trace, this`seen, this`phase, this`submitted, this`calls
    {
      && Watch(owner.Reserved?, trace) == Monitor(seen, phase) && AcceptedOk(trace, submitted)
      && calls == CallsOf(trace)
    }

    function IdOf(g: Option<Gesture>): Option<Option<Id>> {
      if g.Some? then Some(g.value.id) else None
    }

    /** What holds at every point inside an operation. */
    ghost predicate Core()
      reads this
    {
      && LimitsOk(pending, pendingPackets, sources, retired)
      && PendingOk(pending, waiting, starting)
      && Unique(waiting) && WaitingOk(waiting, pending, sources, IdOf(current))
      && SourcesKnown(starting, IdOf(current), sources)
      && CurrentPart(current, phase, pending)
      && ProtectedOk(owner, pending, IdOf(current))
      && SeenOk(owner, seen, pending, sources, observedNow)
      && TraceOk()
      && SubmittedOk(pending, submitted)
    }

    ghost function Here(): Around
      reads this`pending, this`trace, this`retired, this`sources, this`observedNow
    {
      Around(pending, trace, retired, sources, observedNow)
    }

    // ---------------------------------------------------------------- clock and sources

    /** An event that the caller does not see. */
    ghost method Emit(e: Event)
      requires TraceOk() && CallOf(e) == []
      requires e.Accepted? ==> (e.id, SlotOf(e.index), e.packet) in submitted
      modifies `trace, `seen, `phase
      ensures TraceOk()
      ensures trace == old(trace) + [e]
      ensures Monitor(seen, phase) == Step(owner.Reserved?, Monitor(old(seen), old(phase)), e)
    {
      hide Watch, Step, CallsOf;
      var m := Watch(owner.Reserved?, trace + [e]);
      WatchOneMore(owner.Reserved?, trace, e);
      CallsOneMore(trace, e);
      trace := trace + [e];
      seen := m.seen;
      phase := m.phase;
    }

    /** An event that is a call to the caller. */
    method Perform(call: Call, ghost e: Event)
      requires TraceOk() && CallOf(e) == [call]
      modifies `trace, `seen, `phase, `calls
      ensures TraceOk()
      ensures trace == old(trace) + [e]
      ensures Monitor(seen, phase) == Step(owner.Reserved?, Monitor(old(seen), old(phase)), e)
    {
      hide Watch, Step, CallsOf;
      ghost var m := Watch(owner.Reserved?, trace + [e]);
      WatchOneMore(owner.Reserved?, trace, e);
      CallsOneMore(trace, e);
      trace := trace + [e];
      seen := m.seen;
      phase := m.phase;
      calls := calls + [call];
    }

    ghost method Report(reason: Reason)
      requires TraceOk()
      modifies `trace, `seen, `phase
      ensures TraceOk() && trace == old(trace) + [Reported(reason)]
      ensures seen == old(seen) && phase == old(phase)
    {
      Emit(Reported(reason));
    }

    method RecordReset()
      requires TraceOk() && !phase.Broken?
      modifies `trace, `seen, `phase, `calls
      ensures TraceOk() && trace == old(trace) + [ResetCalled]
      ensures seen == old(seen) && phase == Idle
    {
      Perform(WasReset, ResetCalled);
    }

    method RecordFinish(held: set<int>)
      requires TraceOk() && phase.Playing? && held == HeldBy(phase.played) && Over(phase.played)
      modifies `trace, `seen, `phase, `calls
      ensures TraceOk() && trace == old(trace) + [Finished(held)]
      ensures seen == old(seen) && phase == Idle
    {
      Perform(Ended(held), Finished(held));
    }

    ghost method RecordActivation(id: Option<Id>, start: nat)
      requires TraceOk() && phase.Idle?
      requires owner.Reserved? && id.Some? ==> id.value !in seen
      modifies `trace, `seen, `phase
      ensures TraceOk() && trace == old(trace) + [Activated(id, start)]
      ensures seen == (if id.Some? then old(seen) + {id.value} else old(seen))
      ensures phase == Playing(id, start + 1, map[], [])
    {
      Emit(Activated(id, start));
    }

    ghost method RecordAccepted(i: nat, packet: Packet)
      requires TraceOk() && phase.Playing? && i >= Base(phase) && i !in phase.accepted && Running(phase)
      requires (phase.id, SlotOf(i), packet) in submitted
      modifies `trace, `seen, `phase
      ensures TraceOk() && trace == old(trace) + [Accepted(old(phase).id, i, packet)]
      ensures seen == old(seen) && phase == old(phase).(accepted := old(phase).accepted[i := packet])
    {
      Emit(Accepted(phase.id, i, packet));
    }

    ghost method RecordSkip()
      requires TraceOk() && phase.Playing? && Running(phase)
      requires SafeToSkip(HeldBy(phase.played), phase.accepted, Base(phase))
      modifies `trace, `seen, `phase
      ensures var i := Base(old(phase));
        && TraceOk() && trace == old(trace) + [Skipped(i)]
        && seen == old(seen) && phase == old(phase).(accepted := old(phase).accepted[i := Filler])
    {
      Emit(Skipped(Base(phase)));
    }

    method RecordRan(packet: Packet)
      requires TraceOk() && phase.Playing? && Running(phase)
      requires var i := Base(phase); i in phase.accepted && phase.accepted[i] == packet
      modifies `trace, `seen, `phase, `calls
      ensures TraceOk() && trace == old(trace) + [Ran(Base(old(phase)), packet)]
      ensures seen == old(seen) && phase == old(phase).(played := old(phase).played + [packet])
      ensures Over(phase.played) <==> packet.StopGesture?
    {
      Perform(Played(packet), Ran(Base(phase), packet));
    }

    /** The wall clock may jump either way; the observed time never goes back. */
    method Now() returns (now: int)
      modifies `observedNow
      ensures now == observedNow && old(observedNow) <= now
    {
      var wall: int := *;
      if observedNow < wall {
        observedNow := wall;
      }
      now := observedNow;
    }

    /** Young enough to start, and not from too far in the future. */
    predicate Recent(id: Option<Id>, now: int)
      reads this`owner
    {
      if IssuedAt(id).None? then owner.Unprotected?
      else now - IssuedAt(id).value < maxStartAge && IssuedAt(id).value - now <= futureClockSkew
    }

    method IsFresh(id: Option<Id>) returns (recent: bool)
      modifies `observedNow
      ensures old(observedNow) <= observedNow
      ensures recent <==> Recent(id, observedNow)
    {
      var issuedAt := IssuedAt(id);
      if issuedAt.None? {
        return owner.Unprotected?;
      }
      var now := Now();
      recent := now - issuedAt.value < maxStartAge && issuedAt.value - now <= futureClockSkew;
    }

    predicate Busy(pending: map<Option<Id>, Gesture>, current: Option<Gesture>, source: string) {
      || (exists k | k in pending :: SourceOf(pending[k].id).Some? && SourceOf(pending[k].id).value.source == source)
      || (current.Some? && SourceOf(current.value.id).Some? && SourceOf(current.value.id).value.source == source)
    }

    predicate Evictable(source: string, now: int)
      reads this`pending, this`current, this`sources
    {
      && source in sources && !Busy(pending, current, source)
      && sources[source].issuedAt.Some?
      && now - sources[source].seen >= sourceIdle
      && now - sources[source].issuedAt.value >= maxStartAge
    }

    /** Watermarks never go down, except that of an evicted source: by then no gesture of it is
        pending or current, and whatever it has seen is too old to start. */
    ghost predicate WatermarksKept(before: map<string, SourceState>, after: map<string, SourceState>,
                                   pending: map<Option<Id>, Gesture>, current: Option<Gesture>, now: int)
    {
      forall s | s in before ::
        if s in after then
          && before[s].order <= after[s].order
          && (before[s].issuedAt.Some? ==>
                after[s].issuedAt.Some? && before[s].issuedAt.value <= after[s].issuedAt.value)
        else
          && !Busy(pending, current, s)
          && before[s].issuedAt.Some?
          && now - before[s].issuedAt.value >= maxStartAge
    }

    lemma SeenStaysOk(owner: Owner, seen: set<Id>, pending: map<Option<Id>, Gesture>, current: Option<Gesture>,
                      before: map<string, SourceState>, after: map<string, SourceState>, earlier: int, now: int)
      requires SeenOk(owner, seen, pending, before, earlier) && earlier <= now
      requires WatermarksKept(before, after, pending, current, now)
      ensures SeenOk(owner, seen, pending, after, now)
    {
    }

    lemma WaitingStaysOk(waiting: seq<Option<Id>>, pending: map<Option<Id>, Gesture>, current: Option<Gesture>,
                         before: map<string, SourceState>, after: map<string, SourceState>, starting: Option<Option<Id>>, now: int)
      requires PendingOk(pending, waiting, starting) && WaitingOk(waiting, pending, before, IdOf(current))
      requires WatermarksKept(before, after, pending, current, now) && SourcesKnown(starting, IdOf(current), before)
      ensures WaitingOk(waiting, pending, after, IdOf(current)) && SourcesKnown(starting, IdOf(current), after)
    {
      if starting.Some? && SourceOf(starting.value).Some? {
        assert Busy(pending, current, SourceOf(pending[starting.value].id).value.source);
      }
      forall k | k in waiting
        ensures SourceOf(k).value.source in after
      {
        assert Busy(pending, current, SourceOf(pending[k].id).value.source);
      }
    }

    /** Makes room for one more source, if need be by evicting an idle one. */
    method MakeRoom() returns (room: bool)
      requires TraceOk() && |sources| <= maxSources && 1 <= maxSources
      modifies `sources, `trace, `seen, `phase
      ensures TraceOk() && seen == old(seen) && phase == old(phase)
      ensures sources.Keys <= old(sources.Keys)
      ensures forall s | s in sources :: sources[s] == old(sources)[s]
      ensures forall s | s in old(sources) && s !in sources :: old(Evictable(s, observedNow))
      ensures if room then |sources| < maxSources && trace == old(trace)
              else |sources| == maxSources && sources == old(sources) && trace == old(trace) + [Reported(SourceLimit)]
      ensures !room ==> forall s :: !Evictable(s, observedNow)
    {
      if |sources| >= maxSources {
        if victim :| victim in sources && Evictable(victim, observedNow) {
          OneFewer(sources, victim);
          sources := sources - {victim};
        }
      }
      room := |sources| < maxSources;
      if !room {
        Report(SourceLimit);
      }
    }

    method RememberSource(id: Id, advance: bool) returns (ok: bool)
      requires TraceOk() && |sources| <= maxSources && 1 <= maxSources
      modifies `observedNow, `sources, `trace, `seen, `phase
      ensures TraceOk() && |sources| <= maxSources
      ensures old(observedNow) <= observedNow && seen == old(seen) && phase == old(phase)
      ensures trace == if ok || id.names.None? then old(trace) else old(trace) + [Reported(SourceLimit)]
      ensures WatermarksKept(old(sources), sources, pending, current, observedNow)
      ensures id.names.None? ==> ok == owner.Unprotected? && sources == old(sources)
      ensures ok && id.names.Some? ==> Remembered(id.names.value, advance, old(sources), sources, observedNow)
      ensures id.names.Some? && id.names.value.source in old(sources) ==> ok
      ensures !ok && id.names.Some? ==> sources == old(sources) && NoRoomFor(id.names.value.source)
      ensures (id.names.Some? ==> id.names.value.source in old(sources)) ==> Rises(old(sources), sources)
      ensures forall s | s in sources && (id.names.None? || s != id.names.value.source) ::
                s in old(sources) && sources[s] == old(sources)[s]
    {
      hide TraceOk, Busy;
      if id.names.None? {
        return owner.Unprotected?;
      }
      var s := id.names.value;
      var now := Now();
      var latest := if s.source in sources then Some(sources[s.source]) else None;
      if latest.None? {
        var room := MakeRoom();
        if !room {
          return false;
        }
      }
      var order := if latest.Some? then latest.value.order else 0;
      var issuedAt := if latest.Some? then latest.value.issuedAt else None;
      if s.issuedAt.Some? && (issuedAt.None? || issuedAt.value < s.issuedAt.value) {
        issuedAt := s.issuedAt;
      }
      sources := sources[s.source := SourceState(if advance && order < s.order then s.order else order, now, issuedAt)];
      ok := true;
    }

    /** The source is unknown, and no other can be evicted for it. */
    ghost predicate NoRoomFor(source: string)
      reads this`pending, this`current, this`sources, this`observedNow
    {
      source !in sources && |sources| == maxSources && forall s :: !Evictable(s, observedNow)
    }

    /** The source was heard of just now. Its watermark is the later of the two if it is to advance, and stays
        where it was otherwise; the time of its last start is the latest it ever had. */
    ghost predicate Remembered(s: Source, advance: bool, before: map<string, SourceState>,
                               after: map<string, SourceState>, now: int)
    {
      s.source in after &&
      var was, has := if s.source in before then before[s.source] else SourceState(0, now, None), after[s.source];
      && has.seen == now
      && was.order <= has.order && (advance ==> s.order <= has.order) && (has.order != was.order ==> advance && has.order == s.order)
      && has.issuedAt in {was.issuedAt, s.issuedAt}
      && (s.issuedAt.Some? ==> has.issuedAt.Some? && s.issuedAt.value <= has.issuedAt.value)
      && (was.issuedAt.Some? ==> has.issuedAt.Some? && was.issuedAt.value <= has.issuedAt.value)
    }

    /** Remembering a source keeps every invariant. */
    method Remember(id: Id, advance: bool) returns (ok: bool)
      requires Core()
      modifies `observedNow, `sources, `trace, `seen, `phase
      ensures Core()
      ensures old(observedNow) <= observedNow && seen == old(seen) && phase == old(phase)
      ensures trace == if ok || id.names.None? then old(trace) else old(trace) + [Reported(SourceLimit)]
      ensures WatermarksKept(old(sources), sources, pending, current, observedNow)
      ensures id.names.None? ==> ok == owner.Unprotected?
      ensures ok && id.names.Some? ==> Remembered(id.names.value, advance, old(sources), sources, observedNow)
      ensures id.names.Some? && id.names.value.source in old(sources) ==> ok
      ensures !ok && id.names.Some? ==> sources == old(sources) && NoRoomFor(id.names.value.source)
      ensures (id.names.Some? ==> id.names.value.source in old(sources)) ==> Rises(old(sources), sources)
    {
      hide PendingOk, WaitingOk, CurrentPart, SeenOk, ProtectedOk, SourcesKnown, Total, TraceOk, WatermarksKept,
        NoRoomFor, Rises;
      ok := RememberSource(id, advance);
      SeenStaysOk(owner, seen, pending, current, old(sources), sources, old(observedNow), observedNow);
      WaitingStaysOk(waiting, pending, current, old(sources), sources, starting, observedNow);
    }

    // ---------------------------------------------------------------- forgetting

    /** The identifier is remembered as retired; when there are too many, the oldest makes room. */
    ghost predicate RetiredNow(before: seq<Id>, after: seq<Id>, id: Option<Id>) {
      && (id.Some? ==> id.value in after)
      && (forall r | r in after :: r in before || Some(r) == id)
      && (forall r | r in before :: r in after || (|before| == maxRetired && r == before[0]))
      && |before| <= |after|
    }

    method Retire(id: Option<Id>)
      requires Core()
      modifies `observedNow, `sources, `retired, `trace, `seen, `phase
      ensures Core()
      ensures old(observedNow) <= observedNow && seen == old(seen) && phase == old(phase)
      ensures old(trace) <= trace
      ensures trace == old(trace) || trace == old(trace) + [Reported(SourceLimit)]
      ensures RetiredNow(old(retired), retired, id)
      ensures (SourceOf(id).Some? ==> SourceOf(id).value.source in old(sources)) ==> Rises(old(sources), sources)
      ensures SourceOf(id).Some? && trace == old(trace) ==> Passed(id)
    {
      hide PendingOk, WaitingOk, CurrentPart, SeenOk, ProtectedOk, SourcesKnown, SubmittedOk, Total, TraceOk, NoRoomFor,
        RetiredNow, Unique;
      if id.None? {
        RetiredNothing(retired);
        return;
      }
      var _ := Remember(id.value, true);
      RetiredOne(retired, id.value);
      if id.value !in retired {
        retired := retired + [id.value];
        if |retired| > maxRetired {
          retired := retired[1..];
        }
      }
    }

    lemma RetiredNothing(retired: seq<Id>)
      ensures RetiredNow(retired, retired, None)
    {
    }

    lemma RetiredOne(retired: seq<Id>, id: Id)
      requires |retired| <= maxRetired && Unique(retired) && 1 <= maxRetired
      ensures id in retired ==> RetiredNow(retired, retired, Some(id))
      ensures id !in retired && |retired| < maxRetired ==>
        RetiredNow(retired, retired + [id], Some(id)) && Unique(retired + [id])
      ensures id !in retired && |retired| == maxRetired ==>
        RetiredNow(retired, (retired + [id])[1..], Some(id)) && Unique((retired + [id])[1..])
    {
      if id !in retired && |retired| == maxRetired {
        var all := retired + [id];
        assert all[|retired|] == id && all[1..][|retired| - 1] == id;
        forall r | r in retired && r != retired[0]
          ensures r in all[1..]
        {
          var i :| 0 <= i < |retired| && retired[i] == r;
          assert all[1..][i - 1] == r;
        }
        forall r | r in all[1..]
          ensures r in retired || r == id
        {
          var i :| 0 <= i < |retired| && all[1..][i] == r;
          assert all[i + 1] == r;
        }
      }
    }

    lemma CutKeepsWaiting(waiting: seq<Option<Id>>, k: Option<Id>, pending: map<Option<Id>, Gesture>,
                          current: Option<Gesture>)
      requires Unique(waiting) && WaitingOk(waiting, pending, sources, IdOf(current))
      ensures WaitingOk(Cut(waiting, k), Without(pending, k), sources, IdOf(current))
    {
      var cut := Cut(waiting, k);
      CutIsUnique(waiting, k);
      forall a, b | 0 <= a < b < |cut|
        ensures OrderOf(cut[a]) <= OrderOf(cut[b])
      {
        assert Before(waiting, k, a) < Before(waiting, k, b);
      }
      forall j | j in cut
        ensures j in waiting && j != k
      {
        CutKeepsOthers(waiting, k, j);
      }
    }

    lemma CutKeepsPending(waiting: seq<Option<Id>>, k: Option<Id>, pending: map<Option<Id>, Gesture>)
      requires Unique(waiting) && PendingOk(pending, waiting, starting) && starting != Some(k)
      ensures Unique(Cut(waiting, k)) && PendingOk(Without(pending, k), Cut(waiting, k), starting)
    {
      CutIsUnique(waiting, k);
      forall j | j in pending && j != k
        ensures j in Cut(waiting, k) <==> j in waiting
        ensures j in waiting && j == waiting[0] ==> j == Cut(waiting, k)[0]
      {
        CutKeepsOthers(waiting, k, j);
      }
    }

    /** What is said of every pending gesture survives the loss of one. */
    lemma FewerPending(k: Option<Id>, pending: map<Option<Id>, Gesture>, current: Option<Gesture>, phase: Phase,
                       owner: Owner,
                       seen: set<Id>, sources: map<string, SourceState>, now: int,
                       submitted: set<(Option<Id>, nat, Packet)>)
      requires CurrentPart(current, phase, pending) && ProtectedOk(owner, pending, IdOf(current))
      requires SeenOk(owner, seen, pending, sources, now) && SubmittedOk(pending, submitted)
      ensures CurrentPart(current, phase, Without(pending, k)) && ProtectedOk(owner, Without(pending, k), IdOf(current))
      ensures SeenOk(owner, seen, Without(pending, k), sources, now) && SubmittedOk(Without(pending, k), submitted)
    {
      hide CurrentOk, Covered, Stale;
    }

    lemma FewerPackets(k: Option<Id>, pending: map<Option<Id>, Gesture>, pendingPackets: int,
                       sources: map<string, SourceState>, retired: seq<Id>)
      requires LimitsOk(pending, pendingPackets, sources, retired) && k in pending
      ensures LimitsOk(Without(pending, k), pendingPackets - Size(pending[k]), sources, retired)
    {
      TotalWithout(pending, k);
      OneFewer(pending, k);
    }

    /** So it does the change of a gesture's timer or start. */
    lemma SamePending(g: Gesture, pending: map<Option<Id>, Gesture>, current: Option<Gesture>, phase: Phase,
                      owner: Owner,
                      seen: set<Id>, sources: map<string, SourceState>, now: int, waiting: seq<Option<Id>>,
                      submitted: set<(Option<Id>, nat, Packet)>)
      requires g.id in pending && pending[g.id].id == g.id && pending[g.id].pending == g.pending
      requires CurrentPart(current, phase, pending) && ProtectedOk(owner, pending, IdOf(current))
      requires SeenOk(owner, seen, pending, sources, now) && SubmittedOk(pending, submitted)
      requires WaitingOk(waiting, pending, sources, IdOf(current))
      ensures var after := pending[g.id := g];
        && CurrentPart(current, phase, after) && ProtectedOk(owner, after, IdOf(current))
        && SeenOk(owner, seen, after, sources, now) && SubmittedOk(after, submitted)
        && WaitingOk(waiting, after, sources, IdOf(current))
        && |after| == |pending| && Total(after) == Total(pending)
    {
      hide CurrentOk, Covered, Stale, Total;
      TotalUpdate(pending, g.id, g);
    }

    /** Takes a gesture that is not current out of the buffers; its timer goes with it. */
    method Drop(key: Option<Id>)
      requires Core() && key in pending && starting != Some(key)
      modifies `pending, `waiting, `pendingPackets
      ensures Core()
      ensures pending == Without(old(pending), key) && waiting == Cut(old(waiting), key)
    {
      hide WaitingOk, PendingOk, CurrentPart, ProtectedOk, SourcesKnown, SeenOk, SubmittedOk, LimitsOk, TraceOk, Cut,
        Size, Unique, Without;
      CutKeepsWaiting(waiting, key, pending, current);
      CutKeepsPending(waiting, key, pending);
      FewerPending(key, pending, current, phase, owner, seen, sources, observedNow, submitted);
      FewerPackets(key, pending, pendingPackets, sources, retired);
      waiting := Cut(waiting, key);
      pendingPackets := pendingPackets - Size(pending[key]);
      pending := Without(pending, key);
    }

    /** Forgets a gesture for good: its identifier is retired. */
    method Forget(g: Gesture)
      requires Core()
      requires if g.pending.Some? then g.id in pending && pending[g.id] == g && starting != Some(g.id)
               else g.id !in pending
      modifies `pending, `waiting, `pendingPackets, `observedNow, `sources, `retired, `trace, `seen, `phase
      ensures Core()
      ensures pending == Without(old(pending), g.id) && pending.Keys == old(pending).Keys - {g.id}
      ensures waiting == if g.pending.Some? then Cut(old(waiting), g.id) else old(waiting)
      ensures old(observedNow) <= observedNow && seen == old(seen) && phase == old(phase)
      ensures old(trace) <= trace
      ensures trace == old(trace) || trace == old(trace) + [Reported(SourceLimit)]
      ensures RetiredNow(old(retired), retired, g.id)
      ensures (SourceOf(g.id).Some? ==> SourceOf(g.id).value.source in old(sources)) ==> Rises(old(sources), sources)
    {
      hide PendingOk, CurrentPart, ProtectedOk, SourcesKnown, SeenOk, SubmittedOk, LimitsOk, TraceOk, Unique,
        RetiredNow, Rises;
      if g.pending.Some? {
        Drop(g.id);
      } else {
        assert Without(pending, g.id) == pending;
      }
      Retire(g.id);
    }

    // ---------------------------------------------------------------- playing

    /** What holds between operations, except that the head of `waiting` may lack its timer. */
    ghost predicate Resting()
      reads this
    {
      && Core() && starting.None?
      && (waiting != [] ==> current.Some?)
      && (current.Some? ==>
            !current.value.queue.locked && Settled(current.value) && GapTimerOk(current.value) && NoSafeHole(phase) && Running(phase))
    }

    ghost predicate Valid()
      reads this
    {
      Resting() && (waiting != [] ==> pending[waiting[0]].timer.TailTimer?)
    }

    lemma NobodyPlaying(waiting: seq<Option<Id>>, pending: map<Option<Id>, Gesture>, playing: Option<Option<Id>>)
      requires WaitingOk(waiting, pending, sources, playing) && ProtectedOk(owner, pending, playing)
      requires SourcesKnown(starting, playing, sources)
      ensures WaitingOk(waiting, pending, sources, None) && ProtectedOk(owner, pending, None)
      ensures SourcesKnown(starting, None, sources)
    {
    }

    /** Whatever is buffered or playing was so before. */
    twostate predicate NoNewcomers()
      reads this
    {
      && pending.Keys <= old(pending).Keys
      && (current.Some? ==> current.value.id in old(pending) || old(IdOf(current)) == IdOf(current))
    }

    /** The event is in the trace, at index `since` or later. */
    ghost predicate Happened(e: Event, since: nat)
      reads this`trace
    {
      Occurs(trace, since, e)
    }

    lemma CurrentIsKnown()
      requires Core() && current.Some?
      ensures SourceOf(current.value.id).Some? ==> SourceOf(current.value.id).value.source in sources
      ensures current.value.id !in pending
    {
      hide PendingOk, WaitingOk, ProtectedOk, SeenOk, SubmittedOk, LimitsOk, AcceptedOk, TraceOk, Unique, CurrentOk;
    }

    /** The reset callback runs and the current gesture is forgotten. */
    method ResetCurrent()
      requires Core() && current.Some?
      modifies `current, `pending, `waiting, `pendingPackets, `observedNow, `sources, `retired, `calls, `trace, `seen,
        `phase
      ensures Core() && current.None?
      ensures pending == old(pending) && waiting == old(waiting)
      ensures old(observedNow) <= observedNow && seen == old(seen)
      ensures old(trace) + [ResetCalled] <= trace
      ensures trace == old(trace) + [ResetCalled] || trace == old(trace) + [ResetCalled] + [Reported(SourceLimit)]
      ensures RetiredNow(old(retired), retired, old(current).value.id) && Rises(old(sources), sources)
    {
      hide PendingOk, WaitingOk, ProtectedOk, SourcesKnown, SeenOk, SubmittedOk, LimitsOk, AcceptedOk, TraceOk, Unique,
        RetiredNow, Rises;
      CurrentIsKnown();
      var g := current.value;
      RecordReset();
      NobodyPlaying(waiting, pending, IdOf(current));
      current := None;
      Forget(g);
    }

    /** The head of the waiting gestures may get its timer. */
    lemma TailTimed(key: Option<Id>, g: Gesture)
      requires PendingOk(pending, waiting, starting) && starting.None? && waiting != [] && key == waiting[0]
      requires key in pending
      requires g == pending[key].(timer := TailTimer)
      ensures g.id == key && PendingOk(pending[key := g], waiting, starting)
    {
    }

    method WaitForTail()
      requires Resting()
      modifies `pending
      ensures Valid()
      ensures pending.Keys == old(pending.Keys)
      ensures forall k | k in pending :: Alike(old(pending)[k], pending[k])
    {
      hide Settled, GapTimerOk, LimitsOk, PendingOk, WaitingOk, CurrentPart, ProtectedOk, SourcesKnown, SeenOk,
        SubmittedOk, AcceptedOk,
        TraceOk, Unique, Total;
      assert waiting != [] ==> waiting[0] in pending by {
        WaitingArePending();
      }
      if waiting == [] || pending[waiting[0]].timer.TailTimer? {
        return;
      }
      var g := pending[waiting[0]].(timer := TailTimer);
      TailTimed(waiting[0], g);
      SamePending(g, pending, current, phase, owner, seen, sources, observedNow, waiting, submitted);
      SamePendingLimits(g);
      pending := pending[waiting[0] := g];
    }

    lemma WaitingArePending()
      requires Core()
      ensures forall k | k in waiting :: k in pending
      ensures waiting != [] ==> waiting[0] in pending
    {
    }

    /** The current gesture has played on, and nothing else has changed about it. */
    ghost predicate PlayedOn(g0: Gesture, g1: Gesture, p0: Phase, p1: Phase) {
      && p0.Playing? && p1.Playing?
      && g1 == g0.(queue := g1.queue, buffered := g1.buffered, next := g1.next, held := g1.held)
      && g1.queue.locked == g0.queue.locked
      && (g0.queue.locked ==> g1 == g0 && p1 == p0)
      && p1 == p0.(played := p1.played) && p0.played <= p1.played
      && (|p0.played| == |p1.played| ==> g1.buffered == g0.buffered && g1.next == g0.next)
    }

    /** The queue's loop, for the queue of the current gesture, whose handlers delete the packet
        from `buffered`, advance `next` and run it. Once a handler has ended the gesture, the
        handlers still queued do nothing any more, so the loop is left here. */
    method Consume() returns (alive: bool)
      requires Core() && starting.None? && current.Some? && Running(phase)
      modifies `current, `pending, `waiting, `pendingPackets, `observedNow, `sources, `retired, `calls, `trace, `seen,
        `phase,
        `starting
      ensures !alive ==> Valid() && !old(current).value.queue.locked && StopRan(trace, |old(trace)|)
      ensures alive ==>
        && Core() && starting.None? && current.Some? && Settled(current.value) && Running(phase)
        && PlayedOn(old(current).value, current.value, old(phase), phase)
        && pending == old(pending) && waiting == old(waiting) && seen == old(seen) && sources == old(sources)
        && retired == old(retired)
      ensures old(trace) <= trace && |waiting| <= |old(waiting)|
      ensures NoNewcomers() && Onward(old(Here()), Here())
      decreases |waiting|, 2
    {
      hide PendingOk, WaitingOk, ProtectedOk, SourcesKnown, SeenOk, SubmittedOk, LimitsOk, AcceptedOk, TraceOk, Unique,
        CurrentOk, Touch;
      hide PlayedOn, Onward, Here, Running, Over;
      NothingGoesOn(Here());
      PlayedNothing(current.value, phase);
      alive := true;
      while !current.value.queue.locked && current.value.queue.waiting != 0
        invariant Core() && starting.None? && current.Some? && IdOf(current) == old(IdOf(current))
        invariant current.value.queue.locked == old(current).value.queue.locked
        invariant PlayedOn(old(current).value, current.value, old(phase), phase)
        invariant pending == old(pending) && waiting == old(waiting) && seen == old(seen) && sources == old(sources)
        invariant old(trace) <= trace && retired == old(retired) && Running(phase) && Onward(old(Here()), Here())
        decreases current.value.queue.waiting
      {
        ghost var g0, p0 := current.value, phase;
        QueueStandsAtNext(current.value, phase);
        current := Some(current.value.(queue := Wrapped(current.value.queue)));
        PlayedOnTwice(old(current).value, g0, current.value, old(phase), p0, p0);
        if current.value.queue.list[current.value.queue.lo].None? {
          break;
        }
        ghost var g1, before := current.value, Here();
        var packet := PlayNext();
        OnwardTwice(old(Here()), before, Here());
        ghost var after := Here();
        PlayedOnTwice(old(current).value, g1, current.value, old(phase), p0, phase);
        if packet.StopGesture? {
          ghost var j := |trace| - 1;
          FinishCurrent();
          assert trace[j].Ran? && trace[j].packet.StopGesture?;
          OnwardTwice(old(Here()), after, Here());
          return false;
        }
      }
      if !current.value.queue.locked {
        QueueStandsAtNext(current.value, phase);
      } else {
        CurrentPlays(current.value, phase);
      }
    }

    lemma PlayedNothing(g: Gesture, phase: Phase)
      requires CurrentOk(g, phase)
      ensures PlayedOn(g, g, phase, phase)
    {
      hide RingHolds, HeldBy, QueueHolds;
    }

    lemma PlayedOnTwice(g0: Gesture, g1: Gesture, g2: Gesture, p0: Phase, p1: Phase, p2: Phase)
      requires PlayedOn(g0, g1, p0, p1) && !g0.queue.locked
      requires PlayedOn(g1, g2, p1, p2) || (p1 == p2 && g2 == g1.(queue := g2.queue) && g2.queue.locked == g1.queue.locked)
      ensures PlayedOn(g0, g2, p0, p2)
    {
    }

    /** The handler in turn deletes its packet from `buffered`, advances `next` and runs it. */
    method PlayNext() returns (packet: Packet)
      requires Core() && current.Some? && !current.value.queue.locked && Running(phase)
      requires |current.value.queue.list| == CYCLE && current.value.queue.lo < CYCLE
      requires current.value.queue.list[current.value.queue.lo].Some?
      modifies `current, `calls, `trace, `seen, `phase
      ensures Core() && current.Some? && IdOf(current) == old(IdOf(current)) && !current.value.queue.locked
      ensures current.value.queue.waiting < old(current).value.queue.waiting
      ensures PlayedOn(old(current).value, current.value, old(phase), phase) && seen == old(seen)
      ensures Over(phase.played) <==> packet.StopGesture?
      ensures !packet.StopGesture? ==> Running(phase)
      ensures Onward(old(Here()), Here()) && pending == old(pending)
      ensures trace == old(trace) + [Ran(Base(old(phase)), packet)]
    {
      hide PendingOk, WaitingOk, ProtectedOk, SourcesKnown, SeenOk, SubmittedOk, LimitsOk, AcceptedOk, TraceOk, Unique,
        CurrentOk, Touch, Onward;
      CurrentPlays(current.value, phase);
      packet := current.value.queue.list[current.value.queue.lo].value;
      TakeKeeps(current.value, phase);
      RecordRan(packet);
      current := Some(Taken(current.value, packet));
      EventGoesOn(old(Here()), Here(), Ran(Base(old(phase)), packet));
    }

    /** The closure of a stop packet. */
    method FinishCurrent()
      requires Core() && starting.None? && current.Some? && Over(phase.played)
      requires trace != [] && trace[|trace| - 1].Ran? && trace[|trace| - 1].packet.StopGesture?
      modifies `current, `pending, `waiting, `pendingPackets, `observedNow, `sources, `retired, `calls, `trace, `seen,
        `phase,
        `starting
      ensures Valid()
      ensures old(trace) + [if reportsFinish then Finished(old(current).value.held) else ResetCalled] <= trace
      ensures old(waiting) != [] ==>
        old(waiting)[0] in old(pending) && Launched(trace, |old(trace)|, old(pending)[old(waiting)[0]])
      ensures |waiting| <= |old(waiting)|
      ensures NoNewcomers() && Onward(old(Here()), Here())
      decreases |waiting|, 1
    {
      hide PendingOk, WaitingOk, ProtectedOk, SourcesKnown, SeenOk, SubmittedOk, LimitsOk, AcceptedOk, TraceOk, Unique,
        CurrentOk, Launched, Onward, Here;
      EndCurrent();
      ghost var before, here := trace, Here();
      Promote();
      OnwardTwice(old(Here()), here, Here());
      if old(waiting) != [] {
        LaunchedStays(trace, trace, |old(trace)|, |before|, old(pending)[old(waiting)[0]]);
      }
    }

    /** The gesture that has stopped is forgotten, and its end is told. */
    method EndCurrent()
      requires Core() && starting.None? && current.Some? && Over(phase.played)
      requires trace != [] && trace[|trace| - 1].Ran? && trace[|trace| - 1].packet.StopGesture?
      modifies `current, `pending, `waiting, `pendingPackets, `observedNow, `sources, `retired, `calls, `trace, `seen,
        `phase
      ensures Core() && current.None? && pending == old(pending) && waiting == old(waiting)
      ensures old(trace) + [if reportsFinish then Finished(old(current).value.held) else ResetCalled] <= trace
      ensures RetiredNow(old(retired), retired, old(current).value.id)
      ensures Onward(old(Here()), Here())
    {
      hide PendingOk, WaitingOk, ProtectedOk, SourcesKnown, SeenOk, SubmittedOk, LimitsOk, AcceptedOk, TraceOk, Unique,
        CurrentOk, Onward, RetiredNow, Rises;
      CurrentIsKnown();
      var g := current.value;
      CurrentPlays(g, phase);
      if reportsFinish {
        RecordFinish(g.held);
      } else {
        RecordReset();
      }
      NobodyPlaying(waiting, pending, IdOf(current));
      current := None;
      Forget(g);
      assert Without(old(pending), g.id) == old(pending);
      EndGoesOn(old(Here()), Here(), trace[|old(trace)|]);
    }

    method Promote()
      requires Core() && starting.None?
      requires current.Some? ==> Resting()
      modifies `current, `pending, `waiting, `pendingPackets, `observedNow, `sources, `retired, `calls, `trace, `seen,
        `phase,
        `starting
      ensures Valid()
      ensures old(trace) <= trace && |waiting| <= |old(waiting)|
      ensures NoNewcomers() && Onward(old(Here()), Here())
      ensures old(current).Some? ==> current == old(current) && waiting == old(waiting) && trace == old(trace) && retired == old(retired)
      ensures old(waiting) == [] ==> current == old(current) && waiting == [] && trace == old(trace) && retired == old(retired)
      ensures old(waiting) == [] || old(current).Some? ==> pending.Keys == old(pending).Keys
      ensures old(current).None? && old(waiting) != [] ==>
        && |waiting| < |old(waiting)|
        && old(waiting)[0] in old(pending) && Launched(trace, |old(trace)|, old(pending)[old(waiting)[0]])
      decreases |waiting|, 0
    {
      hide PendingOk, WaitingOk, ProtectedOk, SourcesKnown, SeenOk, SubmittedOk, LimitsOk, AcceptedOk, TraceOk, Unique,
        CurrentOk, Launched, Onward, Alike;
      NothingGoesOn(Here());
      if current.None? && waiting != [] {
        var key := waiting[0];
        Shift();
        Activate(key);
      }
      ghost var here := Here();
      WaitForTail();
      TimersGoOn(here, Here());
      OnwardTwice(old(Here()), here, Here());
    }

    /** The head of `waiting` leaves it to become current. */
    method Shift()
      requires Core() && starting.None? && waiting != [] && current.None?
      modifies `waiting, `starting
      ensures Core() && starting == Some(old(waiting)[0]) && waiting == old(waiting)[1..]
      ensures forall k | k in waiting :: SameSource(old(waiting)[0], k)
    {
      hide CurrentPart, ProtectedOk, SourcesKnown, SeenOk, SubmittedOk, LimitsOk, AcceptedOk, TraceOk, Untouched;
      TailWaits(waiting, pending);
      waiting, starting := waiting[1..], Some(waiting[0]);
    }

    lemma TailWaits(waiting: seq<Option<Id>>, pending: map<Option<Id>, Gesture>)
      requires Unique(waiting) && waiting != [] && PendingOk(pending, waiting, None)
      requires WaitingOk(waiting, pending, sources, None)
      ensures Unique(waiting[1..]) && PendingOk(pending, waiting[1..], Some(waiting[0]))
      ensures WaitingOk(waiting[1..], pending, sources, None)
      ensures forall k | k in waiting[1..] :: SameSource(waiting[0], k)
      ensures SourcesKnown(Some(waiting[0]), None, sources)
    {
      hide Untouched;
      assert waiting == [waiting[0]] + waiting[1..];
    }

    method Activate(key: Option<Id>)
      requires Core() && starting == Some(key) && current.None?
      requires forall k | k in waiting :: SameSource(key, k)
      modifies `current, `pending, `waiting, `pendingPackets, `observedNow, `sources, `retired, `calls, `trace, `seen,
        `phase,
        `starting
      ensures Resting()
      ensures key !in pending
      ensures key in old(pending) && Launched(trace, |old(trace)|, old(pending)[key])
      ensures old(trace) <= trace && |waiting| <= |old(waiting)|
      ensures NoNewcomers() && Onward(old(Here()), Here())
      decreases |waiting|, 8
    {
      hide PendingOk, WaitingOk, ProtectedOk, SeenOk, SubmittedOk, LimitsOk, AcceptedOk, TraceOk, Unique, CurrentOk,
        WatermarksKept, SameSource, Delivered, Launched, NoSafeHole, CurrentPart, Settled, GapTimerOk, SlotOf, Onward, Here,
        NoRoomFor, Running, Covered;
      StartingIsReady(key, pending, waiting);
      PacketsAreSubmitted(key, pending);
      Advance(key);
      ghost var remembered := Here();
      var g := pending[key];
      ghost var j := |trace|;
      Enter(key);
      OnwardTwice(old(Here()), remembered, Here());
      ghost var entered := Here();
      HerePending();
      Replay(g);
      OnwardTwice(old(Here()), entered, Here());
      NowLaunched(trace, trace, j, g);
      LaunchedSooner(trace, |old(trace)|, j, g);
      HerePending();
      StillGone(entered, Here(), key);
    }

    lemma HerePending()
      ensures Here().pending == pending
    {
    }

    /** What has come for the gesture is handed to the locked queue, and then played. */
    method Replay(g: Gesture)
      requires Core() && starting.None? && current.Some? && current.value.queue.locked && Running(phase)
      requires current.value.id == g.id && current.value.start == g.start && current.value.buffered == map[]
      requires g.start.Some? && g.start.value < CYCLE && g.pending.Some? && |g.pending.value| < WINDOW
      requires current.value.next == Some(PositionAt(g, 1))
      requires forall s | s in g.pending.value :: (g.id, s, g.pending.value[s]) in submitted
      modifies `current, `pending, `waiting, `pendingPackets, `observedNow, `sources, `retired, `calls, `trace, `seen,
        `phase,
        `starting
      ensures Resting() && Delivered(trace, |old(trace)|, g, CYCLE)
      ensures old(trace) <= trace && |waiting| <= |old(waiting)|
      ensures NoNewcomers() && Onward(old(Here()), Here())
      decreases |waiting|, 7, 1
    {
      hide PendingOk, WaitingOk, ProtectedOk, SourcesKnown, SeenOk, SubmittedOk, LimitsOk, AcceptedOk, TraceOk, Unique,
        CurrentOk, SlotOf, Delivered, Onward, Here, Running, CurrentPart, Core, Settled, GapTimerOk, NoSafeHole;
      Fill(g);
      ghost var filled, full := trace, Here();
      Unlock();
      OnwardTwice(old(Here()), full, Here());
      DeliveredStays(filled, trace, |old(trace)|, g, CYCLE);
    }

    lemma StillGone(a: Around, b: Around, key: Option<Id>)
      requires Onward(a, b) && key !in a.pending
      ensures key !in b.pending
    {
    }

    lemma LaunchedSooner(trace: seq<Event>, since: nat, later: nat, g: Gesture)
      requires Launched(trace, later, g) && since <= later
      ensures Launched(trace, since, g)
    {
      LaunchedStays(trace, trace, since, later, g);
    }

    /** The watermark of a gesture's source goes up to it. */
    method Advance(key: Option<Id>)
      requires Core() && starting == Some(key) && current.None?
      modifies `observedNow, `sources, `trace, `seen, `phase
      ensures Core() && old(trace) <= trace && Onward(old(Here()), Here())
      ensures owner.Reserved? && key.Some? ==> Covered(key.value, sources)
    {
      hide PendingOk, WaitingOk, SeenOk, SubmittedOk, LimitsOk, AcceptedOk, TraceOk, Unique, CurrentPart,
        WatermarksKept,
        Onward, Rises, NoRoomFor;
      StartingIsKnown(key);
      StartingIsReady(key, pending, waiting);
      PacketsAreSubmitted(key, pending);
      NothingGoesOn(Here());
      if key.Some? {
        var _ := Remember(key.value, true);
        RememberedGoesOn(old(Here()), Here());
      }
    }

    lemma StartingIsKnown(key: Option<Id>)
      requires Core() && starting == Some(key)
      ensures SourceOf(key).Some? ==> SourceOf(key).value.source in sources
    {
      hide PendingOk, WaitingOk, ProtectedOk, SeenOk, SubmittedOk, LimitsOk, AcceptedOk, TraceOk, Unique, CurrentPart;
    }

    lemma RememberedGoesOn(a: Around, b: Around)
      requires b == a.(trace := b.trace, sources := b.sources, now := b.now) && Rises(a.sources, b.sources)
      requires a.now <= b.now
      requires b.trace == a.trace || b.trace == a.trace + [Reported(SourceLimit)]
      ensures Onward(a, b)
    {
    }

    lemma NowLaunched(t: seq<Event>, u: seq<Event>, j: nat, g: Gesture)
      requires g.start.Some? && j < |t| && t[j] == Activated(g.id, g.start.value) && Delivered(t, j + 1, g, CYCLE)
      requires t <= u
      ensures Launched(u, j, g)
    {
      hide Delivered;
      DeliveredStays(t, u, j + 1, g, CYCLE);
      assert u[j] == t[j];
    }

    /** The queue of the current gesture starts and plays what it holds. */
    method Unlock()
      requires Core() && starting.None? && current.Some? && current.value.queue.locked && Running(phase)
      modifies `current, `pending, `waiting, `pendingPackets, `observedNow, `sources, `retired, `calls, `trace, `seen,
        `phase,
        `starting
      ensures Resting()
      ensures old(trace) <= trace && |waiting| <= |old(waiting)|
      ensures NoNewcomers() && Onward(old(Here()), Here())
      decreases |waiting|, 5
    {
      hide PendingOk, WaitingOk, ProtectedOk, SourcesKnown, SeenOk, SubmittedOk, LimitsOk, AcceptedOk, TraceOk, Unique,
        CurrentOk, Onward;
      OpenedStandsAtNext(current.value, phase);
      current := Some(current.value.(queue := Opened(current.value.queue, current.value.start.value)));
      var alive := Consume();
      if alive {
        ghost var here := Here();
        alive := SkipGap();
        OnwardTwice(old(Here()), here, Here());
      }
      if alive {
        CheckGap();
      }
    }

    lemma PacketsAreSubmitted(key: Option<Id>, pending: map<Option<Id>, Gesture>)
      requires SubmittedOk(pending, submitted) && ProtectedOk(owner, pending, None)
      requires key in pending && pending[key].id == key && pending[key].pending.Some?
      ensures owner.Unprotected? || Identified(key)
      ensures forall s | s in pending[key].pending.value :: (pending[key].id, s, pending[key].pending.value[s]) in submitted
    {
    }

    /** Hands the packets that came before Start to the locked queue, in ring order. */
    method Fill(g: Gesture)
      requires Core() && starting.None? && current.Some? && current.value.queue.locked && Running(phase)
      requires current.value.id == g.id && current.value.start == g.start && current.value.buffered == map[]
      requires g.start.Some? && g.start.value < CYCLE && g.pending.Some? && |g.pending.value| < WINDOW
      requires current.value.next == Some(PositionAt(g, 1))
      requires forall s | s in g.pending.value :: (g.id, s, g.pending.value[s]) in submitted
      modifies `current, `pending, `waiting, `pendingPackets, `observedNow, `sources, `retired, `calls, `trace, `seen,
        `phase,
        `starting
      ensures Core() && starting.None? && current.Some? && current.value.queue.locked && Running(phase)
      ensures current.value.id == g.id && current.value.start == g.start && current.value.next == Some(PositionAt(g, 1))
      ensures Delivered(trace, |old(trace)|, g, CYCLE)
      ensures waiting == old(waiting) && pending == old(pending) && sources == old(sources)
      ensures old(trace) <= trace
      ensures NoNewcomers() && Onward(old(Here()), Here())
      decreases |waiting|, 7, 0
    {
      hide PendingOk, WaitingOk, ProtectedOk, SourcesKnown, SeenOk, SubmittedOk, LimitsOk, AcceptedOk, TraceOk, Unique,
        CurrentOk, SlotOf, Ahead, Delivered, Occurs, NotYet, Core, Onward, Running;
      NothingGoesOn(Here());
      var d := 1;
      NothingDelivered(trace, |trace|, g);
      NothingYet(g);
      assert current.value.buffered.Keys == {};
      while d < CYCLE
        invariant 1 <= d <= CYCLE
        invariant Core() && starting.None? && current.Some? && current.value.queue.locked && Running(phase)
        invariant current.value.id == g.id && current.value.start == g.start
        invariant current.value.next == Some(PositionAt(g, 1))
        invariant NotYet(g, d, current.value.buffered.Keys)
        invariant Delivered(trace, |old(trace)|, g, d)
        invariant current.value.buffered.Keys <= g.pending.value.Keys
        invariant waiting == old(waiting) && pending == old(pending) && sources == old(sources)
        invariant old(trace) <= trace && Onward(old(Here()), Here())
      {
        ghost var here := Here();
        ghost var before, was := trace, current.value.buffered;
        NotYetAfter(g, d, was.Keys, was.Keys);
        if PositionAt(g, d) in g.pending.value {
          RoomForOne(was, g.pending.value, PositionAt(g, d));
          FillOne(g, d);
          OnwardTwice(old(Here()), here, Here());
          NotYetAfter(g, d, was.Keys, current.value.buffered.Keys);
          if d <= WINDOW {
            OccursSooner(trace, |old(trace)|, |before|, Accepted(g.id, g.start.value + d, g.pending.value[PositionAt(g, d)]));
          }
        }
        DeliveredStays(before, trace, |old(trace)|, g, d);
        DeliveredNext(trace, |old(trace)|, g, d);
        d := d + 1;
      }
    }

    /** None of the positions from the `d`th on is filled. */
    ghost predicate NotYet(g: Gesture, d: nat, filled: set<nat>) {
      forall e | d <= e < CYCLE :: PositionAt(g, e) !in filled
    }

    lemma NothingYet(g: Gesture)
      ensures NotYet(g, 1, {})
    {
    }

    lemma NotYetAfter(g: Gesture, d: nat, filled: set<nat>, more: set<nat>)
      requires g.start.Some? && 1 <= d < CYCLE && NotYet(g, d, filled) && more <= filled + {PositionAt(g, d)}
      ensures PositionAt(g, d) !in filled && NotYet(g, d + 1, more)
    {
      hide SlotOf, Ahead;
      Positions(g, d);
    }

    lemma RoomForOne(filled: map<nat, Packet>, packets: map<nat, Packet>, position: nat)
      requires filled.Keys <= packets.Keys && position in packets && position !in filled && |packets| < WINDOW
      ensures |filled| < WINDOW - 1
    {
      SubsetIsSmaller(filled.Keys, packets.Keys - {position});
    }

    /** One of the packets that came before Start: it is buffered unless it is too far behind it. */
    method FillOne(g: Gesture, d: nat)
      requires Core() && starting.None? && current.Some? && current.value.queue.locked && Running(phase)
      requires current.value.id == g.id && current.value.start == g.start && g.start.Some? && 1 <= d < CYCLE
      requires current.value.next == Some(PositionAt(g, 1)) && PositionAt(g, d) in PacketsOf(g)
      requires PositionAt(g, d) !in current.value.buffered && |current.value.buffered| < WINDOW - 1
      requires (g.id, PositionAt(g, d), PacketsOf(g)[PositionAt(g, d)]) in submitted
      modifies `current, `pending, `waiting, `pendingPackets, `observedNow, `sources, `retired, `calls, `trace, `seen,
        `phase,
        `starting
      ensures Core() && starting.None? && current.Some? && current.value.queue.locked && Running(phase)
      ensures current.value.id == g.id && current.value.start == g.start
      ensures current.value.next == old(current).value.next
      ensures old(current).value.buffered.Keys <= current.value.buffered.Keys
      ensures current.value.buffered.Keys <= old(current).value.buffered.Keys + {PositionAt(g, d)}
      ensures d <= WINDOW ==> Occurs(trace, |old(trace)|, Accepted(g.id, g.start.value + d, PacketsOf(g)[PositionAt(g, d)]))
      ensures waiting == old(waiting) && pending == old(pending) && sources == old(sources)
      ensures old(trace) <= trace && Onward(old(Here()), Here())
      decreases |waiting|, 6
    {
      hide PendingOk, WaitingOk, ProtectedOk, SourcesKnown, SeenOk, SubmittedOk, LimitsOk, AcceptedOk, TraceOk, Unique,
        CurrentOk, SlotOf, Ahead, Occurs, Onward;
      var position := PositionAt(g, d);
      var packet := PacketsOf(g)[position];
      Positions(g, d);
      LockedIndex(g, d);
      LockedIsSettled(g);
      var _ := Schedule(position, packet, true);
      if d <= WINDOW {
        AppendedOccurs(old(trace), trace, |old(trace)|, Accepted(g.id, g.start.value + d, packet));
      }
    }

    lemma LockedIsSettled(g: Gesture)
      requires current.Some? && current.value.queue.locked && current.value.next.Some?
      ensures Settled(current.value)
    {
    }

    lemma NothingDelivered(trace: seq<Event>, since: nat, g: Gesture)
      requires g.start.Some?
      ensures Delivered(trace, since, g, 1)
    {
    }

    lemma AppendedOccurs(t: seq<Event>, u: seq<Event>, since: nat, e: Event)
      requires since <= |t| && t + [e] <= u
      ensures Occurs(u, since, e)
    {
      assert u[|t|] == (t + [e])[|t|];
    }

    /** While the queue is locked, the position `d` behind the start stands for the index `d` behind it. */
    lemma LockedIndex(g: Gesture, d: nat)
      requires Core() && current.Some? && current.value.queue.locked && current.value.start == g.start && 1 <= d < CYCLE
      requires g.start.Some? && PositionAt(g, d) < CYCLE
      ensures phase.Playing? && phase.id == current.value.id
      ensures Index(Base(phase), PositionAt(g, d)) == g.start.value + d
    {
      hide LimitsOk, PendingOk, WaitingOk, ProtectedOk, SourcesKnown, SeenOk, SubmittedOk, AcceptedOk, RingHolds,
        QueueHolds,
        SlotOf;
      IndexAhead(g.start.value + 1, d - 1);
    }

    lemma Positions(g: Gesture, d: nat)
      requires g.start.Some? && 1 <= d < CYCLE
      ensures PositionAt(g, d) < CYCLE && PositionAt(g, 1) < CYCLE
      ensures Ahead(PositionAt(g, d), PositionAt(g, 1)) == d - 1
      ensures forall e | 1 <= e < CYCLE && e != d :: PositionAt(g, e) != PositionAt(g, d)
    {
      hide SlotOf, Ahead;
      forall e | 1 <= e < CYCLE
        ensures PositionAt(g, e) < CYCLE && Ahead(PositionAt(g, e), PositionAt(g, 1)) == e - 1
      {
        AheadOfFirst(g.start.value, e);
      }
    }

    lemma AheadOfFirst(start: nat, e: nat)
      requires 1 <= e < CYCLE
      ensures SlotOf(start + e) < CYCLE && SlotOf(start + 1) < CYCLE
      ensures Ahead(SlotOf(start + e), SlotOf(start + 1)) == e - 1
    {
    }

    function Entered(g: Gesture): Gesture {
      g.(timer := NoTimer, pending := None, next := Some(PositionAt(g, 1)))
    }

    method Enter(key: Option<Id>)
      requires Core() && starting == Some(key) && current.None?
      requires forall k | k in waiting :: SameSource(key, k)
      requires owner.Reserved? && key.Some? ==> Covered(key.value, sources)
      modifies `pending, `pendingPackets, `current, `starting, `trace, `seen, `phase
      ensures Core() && starting.None? && current.Some? && IdOf(current) == Some(key)
      ensures Running(phase) && key in old(pending) && pending == old(pending) - {key} && old(pending)[key].start.Some?
      ensures var g := old(pending)[key];
        && current == Some(Entered(g))
        && Onward(old(Here()), Here())
        && trace == old(trace) + [Activated(key, g.start.value)]
    {
      hide PendingOk, WaitingOk, ProtectedOk, SourcesKnown, SeenOk, SubmittedOk, AcceptedOk, TraceOk, Unique,
        CurrentPart,
        LimitsOk, SameSource, Covered, Untouched, Size, Entered, Onward;
      EnterKeeps(key);
      var g := pending[key];
      RecordActivation(key, g.start.value);
      pendingPackets := pendingPackets - Size(g);
      pending := Without(pending, key);
      current := Some(Entered(g));
      starting := None;
      ActivationGoesOn(old(Here()), Here(), key);
    }

    lemma EnterKeeps(key: Option<Id>)
      requires Core() && starting == Some(key) && current.None?
      requires forall k | k in waiting :: SameSource(key, k)
      requires owner.Reserved? && key.Some? ==> Covered(key.value, sources)
      ensures key in pending && pending[key].start.Some? && phase.Idle?
      ensures owner.Reserved? && key.Some? ==> key.value !in seen
      ensures Entered(pending[key]).id == key && Without(pending, key).Keys <= pending.Keys
      ensures var g, left := pending[key], Without(pending, key);
        && LimitsOk(left, pendingPackets - Size(g), sources, retired)
        && PendingOk(left, waiting, None)
        && WaitingOk(waiting, left, sources, Some(key))
        && SourcesKnown(None, Some(key), sources)
        && CurrentPart(Some(Entered(g)), Playing(key, g.start.value + 1, map[], []), left)
        && ProtectedOk(owner, left, Some(key))
        && SeenOk(owner, if key.Some? then seen + {key.value} else seen, left, sources, observedNow)
        && SubmittedOk(left, submitted)
    {
      hide PendingOk, WaitingOk, ProtectedOk, SeenOk, SubmittedOk, AcceptedOk, TraceOk, Unique, CurrentPart, LimitsOk,
        SameSource, Covered, Untouched, Size, Without, Entered;
      StartingIsReady(key, pending, waiting);
      FewerPending(key, pending, current, phase, owner, seen, sources, observedNow, submitted);
      OneMoreSeen(key, waiting, pending);
      FewerPackets(key, pending, pendingPackets, sources, retired);
      FirstPacketIsNext(pending[key], key, pending);
      IdleWithoutCurrent();
    }

    lemma IdleWithoutCurrent()
      requires CurrentPart(current, phase, pending) && current.None?
      ensures phase.Idle?
    {
    }

    lemma StartingIsReady(key: Option<Id>, pending: map<Option<Id>, Gesture>, waiting: seq<Option<Id>>)
      requires PendingOk(pending, waiting, Some(key))
      ensures key in pending
      ensures var g := pending[key];
        g.id == key && g.start.Some? && g.start.value < CYCLE && g.pending.Some? && |g.pending.value| < WINDOW && Untouched(g)
        && key !in waiting && (forall s | s in g.pending.value :: s < CYCLE)
      ensures PendingOk(Without(pending, key), waiting, None) && Without(pending, key).Keys <= pending.Keys
    {
    }

    lemma OneMoreSeen(key: Option<Id>, waiting: seq<Option<Id>>, pending: map<Option<Id>, Gesture>)
      requires key in pending && pending[key].id == key && key !in waiting
      requires WaitingOk(waiting, pending, sources, None) && ProtectedOk(owner, pending, None)
      requires SeenOk(owner, seen, pending, sources, observedNow)
      requires forall k | k in waiting :: SameSource(key, k)
      requires owner.Reserved? && key.Some? ==> Covered(key.value, sources)
      ensures owner.Reserved? && key.Some? ==> key.value !in seen
      ensures SeenOk(owner, if key.Some? then seen + {key.value} else seen, Without(pending, key), sources, observedNow)
      ensures WaitingOk(waiting, Without(pending, key), sources, Some(key))
      ensures ProtectedOk(owner, Without(pending, key), Some(key))
    {
      hide Covered, Stale;
    }

    lemma FirstPacketIsNext(g: Gesture, key: Option<Id>, pending: map<Option<Id>, Gesture>)
      requires g.id == key && g.start.Some? && g.start.value < CYCLE && Untouched(g)
      ensures CurrentPart(Some(Entered(g)), Playing(key, g.start.value + 1, map[], []), Without(pending, key))
      ensures Entered(g).id == key
    {
    }

    method CheckGap()
      requires Core() && starting.None? && current.Some?
      modifies `current
      ensures Core() && GapTimerOk(current.value)
      ensures current == Some(old(current).value.(timer := current.value.timer, gap := current.value.gap))
    {
      hide PendingOk, WaitingOk, ProtectedOk, SourcesKnown, SeenOk, SubmittedOk, LimitsOk, AcceptedOk, TraceOk, Unique,
        RingHolds, HeldBy, QueueHolds;
      var g := current.value;
      if g.buffered != map[] && g.timer == GapTimer && g.gap == g.next {
        return;
      }
      if g.buffered == map[] {
        current := Some(g.(timer := NoTimer, gap := None));
      } else {
        current := Some(g.(timer := GapTimer, gap := g.next));
      }
    }

    /** Fills one missing position after another while it is safe to go on without it. */
    method SkipGap() returns (alive: bool)
      requires Core() && starting.None? && current.Some? && Settled(current.value) && Running(phase)
      modifies `current, `pending, `waiting, `pendingPackets, `observedNow, `sources, `retired, `calls, `trace, `seen,
        `phase,
        `starting
      ensures !alive ==> Valid() && !old(current).value.queue.locked && StopRan(trace, |old(trace)|)
      ensures alive ==>
        && Core() && starting.None? && current.Some? && Settled(current.value)
        && current.value.id == old(current).value.id && current.value.start == old(current).value.start
        && current.value.queue.locked == old(current).value.queue.locked
        && (current.value.queue.locked ==> current == old(current))
        && NoSafeHole(phase) && Running(phase) && retired == old(retired)
        && pending == old(pending) && waiting == old(waiting) && seen == old(seen) && sources == old(sources)
      ensures old(trace) <= trace && |waiting| <= |old(waiting)|
      ensures NoNewcomers() && Onward(old(Here()), Here())
      decreases |waiting|, 4
    {
      hide PendingOk, WaitingOk, ProtectedOk, SourcesKnown, SeenOk, SubmittedOk, LimitsOk, AcceptedOk, TraceOk, Unique,
        CurrentOk, HeldBy, RecoversAfter, NoSafeHole, Onward;
      NothingGoesOn(Here());
      alive := true;
      CurrentPlays(current.value, phase);
      ghost var limit := Base(phase) + WINDOW;
      while current.value.held != {} && |current.value.buffered| >= 4 && current.value.next.value !in current.value.buffered
        invariant Core() && starting.None? && current.Some? && Settled(current.value)
        invariant current.value.id == old(current).value.id && current.value.start == old(current).value.start
        invariant current.value.queue.locked == old(current).value.queue.locked
        invariant current.value.queue.locked ==> current == old(current)
        invariant pending == old(pending) && waiting == old(waiting) && seen == old(seen) && sources == old(sources)
        invariant old(trace) <= trace && NoNewcomers() && Running(phase) && retired == old(retired)
        invariant Onward(old(Here()), Here())
        invariant phase.Playing? && forall i | i in phase.accepted :: i < limit
        decreases limit - Base(phase)
      {
        CurrentPlays(current.value, phase);
        var safe := CountSafe(current.value, phase);
        if safe < 4 {
          HoleIsUnsafe(current.value, phase);
          return;
        }
        assert Base(phase) < limit by {
          SkipHasFollowers(phase.accepted, current.value.held, Base(phase));
        }
        ghost var here := Here();
        alive := Schedule(current.value.next.value, Filler, false);
        OnwardTwice(old(Here()), here, Here());
        if !alive {
          return;
        }
      }
      HoleIsUnsafe(current.value, phase);
    }

    /** Buffers a packet of the current gesture, unless it was played or is buffered already or
        lies outside the half ring, and plays what has become playable. The source gives up a
        gesture with 49 packets buffered when yet another arrives that is not the next: that
        never happens (`TouchRing.HalfRingIsSmall`). */
    method Schedule(slot: nat, packet: Packet, skip: bool) returns (alive: bool)
      requires Core() && starting.None? && current.Some? && Settled(current.value) && Running(phase) && slot < CYCLE
      requires current.value.queue.locked ==> |current.value.buffered| < WINDOW - 1 && skip
      requires skip ==> (current.value.id, slot, packet) in submitted
      requires !skip ==>
        && packet == Filler && Some(slot) == current.value.next
        && SafeToSkip(HeldBy(phase.played), phase.accepted, Base(phase))
      modifies `current, `pending, `waiting, `pendingPackets, `observedNow, `sources, `retired, `calls, `trace, `seen,
        `phase,
        `starting
      ensures !alive ==> Valid() && !old(current).value.queue.locked && StopRan(trace, |old(trace)|)
      ensures alive ==>
        && Core() && starting.None? && current.Some? && Settled(current.value) && Running(phase) && retired == old(retired)
        && current.value.id == old(current).value.id && current.value.start == old(current).value.start
        && current.value.queue.locked == old(current).value.queue.locked
        && (current.value.queue.locked ==>
              && current.value.next == old(current).value.next
              && (!Ignores(old(current).value, slot) ==> current.value.buffered == old(current).value.buffered[slot := packet]))
        && (old(GapTimerOk(current.value)) ==> GapTimerOk(current.value))
        && (skip && (!Ignores(old(current).value, slot) || old(NoSafeHole(phase))) ==> NoSafeHole(phase))
        && pending == old(pending) && waiting == old(waiting) && seen == old(seen) && sources == old(sources)
      ensures Ignores(old(current).value, slot) ==> trace == old(trace) && current == old(current)
      ensures !Ignores(old(current).value, slot) ==>
        var i := Index(Base(old(phase)), slot);
        old(trace) + [if skip then Accepted(old(phase).id, i, packet) else Skipped(i)] <= trace
      ensures alive && !skip ==>
        && Base(old(phase)) < Base(phase) && old(phase).Playing? && phase.Playing?
        && phase.accepted.Keys == old(phase).accepted.Keys + {Base(old(phase))}
      ensures old(trace) <= trace && |waiting| <= |old(waiting)|
      ensures NoNewcomers() && Onward(old(Here()), Here())
      decreases |waiting|, if skip then 5 else 3
    {
      hide PendingOk, WaitingOk, ProtectedOk, SourcesKnown, SeenOk, SubmittedOk, LimitsOk, AcceptedOk, TraceOk, Unique,
        CurrentOk, HeldBy, SafeToSkip, NoSafeHole, Onward;
      NothingGoesOn(Here());
      var g := current.value;
      CurrentPlays(g, phase);
      if Ignores(g, slot) {
        return true;
      }
      Accept(slot, packet, skip);
      EventGoesOn(old(Here()), Here(), trace[|old(trace)|]);
      ghost var accepted := Here();
      alive := Consume();
      OnwardTwice(old(Here()), accepted, Here());
      if alive && skip {
        ghost var consumed := Here();
        alive := SkipGap();
        OnwardTwice(old(Here()), consumed, Here());
      }
      if alive {
        CheckGap();
      }
    }

    /** A packet goes into the buffer and into the queue. */
    method Accept(slot: nat, packet: Packet, skip: bool)
      requires Core() && current.Some? && slot < CYCLE && phase.Playing? && Running(phase) && current.value.next.Some?
      requires !Ignores(current.value, slot)
      requires |current.value.queue.list| == CYCLE
      requires skip ==> (current.value.id, slot, packet) in submitted
      requires !skip ==>
        && packet == Filler && Some(slot) == current.value.next
        && SafeToSkip(HeldBy(phase.played), phase.accepted, Base(phase))
      modifies `current, `trace, `seen, `phase
      ensures Core() && current == Some(Pushed(old(current).value, slot, packet)) && seen == old(seen)
      ensures old(phase).Playing?
      ensures phase == old(phase).(accepted := old(phase).accepted[Index(Base(old(phase)), slot) := packet])
      ensures !skip ==> Index(Base(old(phase)), slot) == Base(old(phase))
      ensures var i := Index(Base(old(phase)), slot);
        trace == old(trace) + [if skip then Accepted(old(phase).id, i, packet) else Skipped(i)]
    {
      hide PendingOk, WaitingOk, ProtectedOk, SourcesKnown, SeenOk, SubmittedOk, LimitsOk, AcceptedOk, TraceOk, Unique,
        CurrentOk, HeldBy, SafeToSkip, SlotOf;
      CurrentPlays(current.value, phase);
      PushKeeps(current.value, phase, slot, packet);
      IndexIsSentAs(Base(phase), slot);
      if skip {
        RecordAccepted(Index(Base(phase), slot), packet);
      } else {
        RecordSkip();
      }
      current := Some(Pushed(current.value, slot, packet));
    }

    // ---------------------------------------------------------------- requests

    /** Whether a request may touch gestures at all: under an owner it must name its reservation
        and carry an identifier with a time of issue. */
    predicate Allowed(id: Option<Id>, reservation: Option<string>)
      reads this`owner
    {
      && (id.Some? ==> 0 < |id.value.text| <= 128)
      && (owner.Unprotected? ||
          (owner.Reserved? && reservation == Some(owner.reservation) && IssuedAt(id).Some?))
    }

    constructor (maxPendingGestures: nat, maxPendingPackets: nat, maxSources: nat, maxRetired: nat,
                 sourceIdle: nat, maxStartAge: nat, futureClockSkew: nat, reportsFinish: bool)
      requires 1 <= maxPendingGestures && 1 <= maxPendingPackets && 1 <= maxSources && 1 <= maxRetired
      ensures Valid() && owner == Unprotected && current.None? && pending == map[] && trace == []
    {
      this.maxPendingGestures, this.maxPendingPackets := maxPendingGestures, maxPendingPackets;
      this.maxSources, this.maxRetired := maxSources, maxRetired;
      this.sourceIdle, this.maxStartAge, this.futureClockSkew := sourceIdle, maxStartAge, futureClockSkew;
      this.reportsFinish := reportsFinish;
      owner, current, pending, waiting, retired := Unprotected, None, map[], [], [];
      sources, pendingPackets, observedNow := map[], 0, 0;
      trace, seen, phase, submitted, starting, calls := [], {}, Idle, {}, None, [];
    }

    /** No reorderer is made unless every limit is at least 1. */
    static method Make(maxPendingGestures: int, maxPendingPackets: int, maxSources: int, maxRetired: int,
                       gapTimeout: int,
                       sourceIdle: int, maxStartAge: int, futureClockSkew: int, reportsFinish: bool) returns (g: TouchGesture?)
      ensures g == null <==>
        || maxPendingGestures < 1 || maxPendingPackets < 1 || maxSources < 1 || maxRetired < 1
        || gapTimeout < 1 || sourceIdle < 1 || maxStartAge < 1 || futureClockSkew < 1
      ensures g != null ==> fresh(g) && g.Valid() && g.owner == Unprotected && g.trace == []
    {
      if || maxPendingGestures < 1 || maxPendingPackets < 1 || maxSources < 1 || maxRetired < 1
         || gapTimeout < 1 || sourceIdle < 1 || maxStartAge < 1 || futureClockSkew < 1
      {
        return null;
      }
      g := new TouchGesture(maxPendingGestures, maxPendingPackets, maxSources, maxRetired,
                            sourceIdle, maxStartAge, futureClockSkew, reportsFinish);
    }

    lemma NothingIsOk()
      requires 1 <= maxPendingGestures && 1 <= maxPendingPackets && 1 <= maxSources && 1 <= maxRetired
      requires current.None? && pending == map[] && waiting == [] && retired == [] && sources == map[]
      requires pendingPackets == 0
      requires seen == {} && phase == Idle && starting.None? && TraceOk()
      ensures Valid()
    {
    }

    lemma LimitsArePositive()
      requires Core()
      ensures 1 <= maxPendingGestures && 1 <= maxPendingPackets && 1 <= maxSources && 1 <= maxRetired
    {
    }

    /** Everything of the previous owner is dropped; the trace starts anew with the reset. */
    method SetOwner(reservation: Option<string>)
      requires Valid()
      modifies this
      ensures Valid()
      ensures owner == if reservation.Some? then Reserved(reservation.value) else Nobody
      ensures current.None? && pending == map[] && waiting == [] && retired == [] && sources == map[]
      ensures observedNow == old(observedNow)
      ensures trace == [ResetCalled] && seen == {} && submitted == {}
    {
      hide LimitsOk, PendingOk, WaitingOk, CurrentPart, ProtectedOk, SeenOk, SubmittedOk, AcceptedOk, TraceOk, Unique,
        SourcesKnown;
      LimitsArePositive();
      current, pending, waiting, retired := None, map[], [], [];
      sources, pendingPackets := map[], 0;
      owner := if reservation.Some? then Reserved(reservation.value) else Nobody;
      RestartTrace();
      NothingIsOk();
    }

    method RestartTrace()
      modifies `trace, `seen, `phase, `submitted, `starting, `calls
      ensures TraceOk() && trace == [ResetCalled]
      ensures seen == {} && phase == Idle && submitted == {} && starting.None?
    {
      trace, seen, phase, submitted, starting, calls := [], {}, Idle, {}, None, [];
      assert TraceOk();
      RecordReset();
    }

    /** The gesture of this identifier; an unknown one gets a buffer if it is recent enough. */
    method EntryFor(id: Option<Id>) returns (place: Place)
      requires Valid()
      requires owner.Unprotected? || Identified(id)
      requires id.Some? && id.value in seen && IdOf(current) != Some(id) && owner.Reserved? ==> Stale(id.value, observedNow)
      modifies `pending, `observedNow, `sources, `retired, `trace, `seen, `phase
      ensures Valid()
      ensures old(observedNow) <= observedNow && seen == old(seen) && phase == old(phase)
      ensures old(trace) <= trace
      ensures place.AtCurrent? <==> IdOf(current) == Some(id)
      ensures place.AtPending? <==> id in pending
      ensures IdOf(current) == Some(id) || id in old(pending) ==> !place.Nowhere?
      ensures !place.Nowhere? ==> pending == if place.AtCurrent? || id in old(pending) then old(pending) else old(pending)[id := NewGesture(id)]
      ensures if place.Nowhere? then pending == old(pending) else sources == old(sources) && trace == old(trace)
      ensures place.Nowhere? ==> (
        || (!Recent(id, observedNow) && trace == old(trace))
        || (|old(pending)| >= maxPendingGestures && Happened(Reported(BufferFull), |old(trace)|)
            && RetiredNow(old(retired), retired, id)))
      ensures place.AtPending? && id !in old(pending) ==> |old(pending)| < maxPendingGestures && Recent(id, observedNow)
      ensures pendingPackets == old(pendingPackets) && current == old(current)
    {
      hide LimitsOk, PendingOk, WaitingOk, CurrentPart, ProtectedOk, SourcesKnown, SeenOk, SubmittedOk, AcceptedOk,
        TraceOk, Unique,
        Recent, Identified, Total, RetiredNow;
      WaitingArePending();
      if IdOf(current) == Some(id) {
        CurrentIsNotPending();
        return AtCurrent;
      }
      if id in pending {
        return AtPending;
      }
      var recent := IsFreshKeepingValid(id);
      if !recent {
        return Nowhere;
      }
      if |pending| >= maxPendingGestures {
        RefuseEntry(id);
        return Nowhere;
      }
      if owner.Reserved? {
        SeenIsStale(id);
      }
      AddEntry(id);
      return AtPending;
    }

    method RefuseEntry(id: Option<Id>)
      requires Valid()
      modifies `observedNow, `sources, `retired, `trace, `seen, `phase
      ensures Valid() && seen == old(seen) && phase == old(phase) && old(observedNow) <= observedNow
      ensures RetiredNow(old(retired), retired, id)
      ensures old(trace) <= trace && Happened(Reported(BufferFull), |old(trace)|)
    {
      hide LimitsOk, PendingOk, WaitingOk, CurrentPart, ProtectedOk, SourcesKnown, SeenOk, SubmittedOk, AcceptedOk,
        TraceOk,
        Unique, RetiredNow, Rises;
      WaitingArePending();
      Retire(id);
      LastOccurs(trace, |old(trace)|, Reported(BufferFull));
      Report(BufferFull);
    }

    method AddEntry(id: Option<Id>)
      requires Valid() && id !in pending && IdOf(current) != Some(id) && |pending| < maxPendingGestures
      requires owner.Unprotected? || Identified(id)
      requires owner.Reserved? && id.Some? ==> id.value !in seen
      modifies `pending
      ensures Valid() && pending == old(pending)[id := NewGesture(id)]
    {
      hide LimitsOk, PendingOk, WaitingOk, CurrentOk, ProtectedOk, SourcesKnown, SeenOk, SubmittedOk, AcceptedOk,
        TraceOk, Unique;
      WaitingArePending();
      NewcomerCounts(id);
      NewcomerKeeps(id);
      pending := pending[id := NewGesture(id)];
    }

    lemma CurrentIsNotPending()
      requires Core() && current.Some?
      ensures current.value.id !in pending
    {
      hide LimitsOk, PendingOk, WaitingOk, ProtectedOk, SourcesKnown, SeenOk, SubmittedOk, AcceptedOk, CurrentOk;
    }

    lemma SeenIsStale(id: Option<Id>)
      requires Valid() && id !in pending && owner.Reserved?
      requires id.Some? && id.value in seen ==> Stale(id.value, observedNow)
      ensures id.Some? && Recent(id, observedNow) ==> id.value !in seen
    {
    }


    lemma NewcomerCounts(id: Option<Id>)
      requires Core() && starting.None? && id !in pending && |pending| < maxPendingGestures
      ensures var more := pending[id := NewGesture(id)];
        && LimitsOk(more, pendingPackets, sources, retired)
        && PendingOk(more, waiting, None)
        && SubmittedOk(more, submitted)
    {
      hide *;
      CoreParts();
      NewcomerFits(id, pending, pendingPackets, sources, retired);
      NewcomerStarts(id, pending, waiting);
      NewcomerIsEmpty(id, pending, submitted);
    }

    lemma CoreParts()
      requires Core()
      ensures LimitsOk(pending, pendingPackets, sources, retired) && SubmittedOk(pending, submitted)
      ensures PendingOk(pending, waiting, starting) && forall k | k in waiting :: k in pending
    {
      hide LimitsOk, SubmittedOk, PendingOk, CurrentPart, ProtectedOk, SeenOk, SourcesKnown;
    }

    lemma NewcomerFits(id: Option<Id>, pending: map<Option<Id>, Gesture>, pendingPackets: int,
                       sources: map<string, SourceState>, retired: seq<Id>)
      requires LimitsOk(pending, pendingPackets, sources, retired) && id !in pending && |pending| < maxPendingGestures
      ensures LimitsOk(pending[id := NewGesture(id)], pendingPackets, sources, retired)
    {
      hide Total, Unique;
      TotalUpdate(pending, id, NewGesture(id));
    }

    lemma NewcomerStarts(id: Option<Id>, pending: map<Option<Id>, Gesture>, waiting: seq<Option<Id>>)
      requires PendingOk(pending, waiting, None) && id !in waiting
      ensures PendingOk(pending[id := NewGesture(id)], waiting, None)
    {
    }

    lemma NewcomerIsEmpty(id: Option<Id>, pending: map<Option<Id>, Gesture>, submitted: set<(Option<Id>, nat, Packet)>)
      requires SubmittedOk(pending, submitted)
      ensures SubmittedOk(pending[id := NewGesture(id)], submitted)
    {
    }

    lemma NewcomerKeeps(id: Option<Id>)
      requires Core() && starting.None? && id !in pending && IdOf(current) != Some(id)
      requires owner.Unprotected? || Identified(id)
      requires owner.Reserved? && id.Some? ==> id.value !in seen
      ensures var more := pending[id := NewGesture(id)];
        && WaitingOk(waiting, more, sources, IdOf(current))
        && CurrentPart(current, phase, more)
        && ProtectedOk(owner, more, IdOf(current))
        && SeenOk(owner, seen, more, sources, observedNow)
    {
      hide TraceOk, AcceptedOk, SourcesKnown, LimitsOk, PendingOk, SubmittedOk, CurrentOk, Covered, Stale, SameSource;
    }

    /** Packets without an identifier go to the current gesture while there is no owner. */
    function KeyFor(id: Option<Id>): Option<Id>
      reads this`owner, this`current
    {
      if id.None? && owner.Unprotected? && current.Some? then current.value.id else id
    }

    /** The start of this gesture lies behind a later one of its source. */
    predicate Passed(key: Option<Id>)
      reads this`sources
    {
      SourceOf(key).Some? && SourceOf(key).value.order <= Watermark(SourceOf(key).value.source)
    }

    lemma UnpassedIsNew(key: Option<Id>)
      requires Valid() && owner.Reserved? && key.Some? && !Passed(key) && key.value in seen
      ensures Stale(key.value, observedNow)
    {
    }

    /** Whether a request to push is heard at all. */
    predicate Heard(slot: int, id: Option<Id>, reservation: Option<string>)
      reads this`owner, this`current, this`retired
    {
      && 0 <= slot < CYCLE && Allowed(id, reservation)
      && (KeyFor(id).Some? ==> KeyFor(id).value !in retired)
    }

    /** What a push leads to: a packet of the current gesture is accepted under its absolute index, unless
        it was before, and only stops that are played end gestures; one of a gesture whose turn has not come is
        kept for it; and the first packet of an unknown gesture that is recent gets a buffer, as long as there
        is room for one. */
    twostate predicate Takes(slot: int, packet: Packet, id: Option<Id>, reservation: Option<string>)
      reads this
    {
      old(Heard(slot, id, reservation)) ==>
        var key := old(KeyFor(id));
        if old(IdOf(current)) == Some(key) then
          PlaysOn() && forall i: nat | i < old(Base(phase)) + WINDOW && old(Base(phase)) <= i + WINDOW && SlotOf(i) == slot ::
            if i < old(Base(phase)) || i in old(Known()) then trace == old(trace)
            else old(trace) + [Accepted(key, i, packet)] <= trace
        else
          && current == old(current) && (forall k | k in old(waiting) && k != key :: k in waiting)
          && if key in old(pending) then
               && Buffers(key, slot, packet, old(pendingPackets < maxPendingPackets && |PacketsOf(pending[key])| < WINDOW - 1),
                          old(pending), pending, old(trace), trace)
               && (key.Some? && key !in pending ==> key.value in retired)
             else if old(Passed(key)) then pending == old(pending) && trace == old(trace)
             else MayBuffer(key, slot, packet)
    }

    /** The current gesture goes on unless its stop has been played, and so do the others. */
    twostate predicate PlaysOn()
      reads this
    {
      && Onward(old(Here()), Here())
      && (StopRan(trace, |old(trace)|) ||
          (IdOf(current) == old(IdOf(current)) && pending == old(pending) && waiting == old(waiting) && retired == old(retired)))
    }

    /** What becomes of a packet of an unknown gesture. */
    twostate predicate MayBuffer(key: Option<Id>, slot: nat, packet: Packet)
      reads this
    {
      || (&& |old(pending)| < maxPendingGestures
          && (exists now :: old(observedNow) <= now <= observedNow && Recent(key, now))
          && Buffers(key, slot, packet, old(pendingPackets) < maxPendingPackets, old(pending)[key := NewGesture(key)],
                     pending, old(trace), trace))
      || (!Recent(key, observedNow) && pending == old(pending) && trace == old(trace))
      || (&& |old(pending)| >= maxPendingGestures && pending == old(pending)
          && Happened(Reported(BufferFull), |old(trace)|) && (key.Some? ==> key.value in retired))
    }

    method Push(slot: int, packet: Packet, id: Option<Id>, reservation: Option<string>)
      requires Valid()
      modifies this
      ensures Valid() && owner == old(owner) && old(trace) <= trace
      ensures !old(Heard(slot, id, reservation)) ==>
        trace == old(trace) && pending == old(pending) && current == old(current) && submitted == old(submitted)
      ensures old(submitted) <= submitted <= old(submitted) + {(old(KeyFor(id)), slot, packet)}
      ensures Takes(slot, packet, id, reservation)
    {
      hide LimitsOk, PendingOk, WaitingOk, ProtectedOk, SourcesKnown, SeenOk, SubmittedOk, AcceptedOk, TraceOk, Unique,
        CurrentOk, Buffers, Onward, Recent;
      var key := KeyFor(id);
      if !(0 <= slot < CYCLE) || !Allowed(id, reservation) || (key.Some? && key.value in retired) {
        return;
      }
      if IdOf(current) == Some(key) {
        Submit(key, slot, packet);
        PushCurrent(slot, packet);
      } else {
        PushPending(key, slot, packet);
      }
    }

    /** A packet of a gesture that is not the current one. */
    method PushPending(key: Option<Id>, slot: nat, packet: Packet)
      requires Valid() && slot < CYCLE && IdOf(current) != Some(key)
      requires owner.Unprotected? || Identified(key)
      modifies `pending, `waiting, `pendingPackets, `observedNow, `sources, `retired, `trace, `seen, `phase, `submitted
      ensures Valid() && old(trace) <= trace
      ensures old(submitted) <= submitted <= old(submitted) + {(key, slot, packet)}
      ensures forall k | k in old(waiting) && k != key :: k in waiting
      ensures key in old(pending) ==>
        && Buffers(key, slot, packet, old(pendingPackets < maxPendingPackets && |PacketsOf(pending[key])| < WINDOW - 1),
                   old(pending), pending, old(trace), trace)
        && (key.Some? && key !in pending ==> key.value in retired)
      ensures key !in old(pending) && old(Passed(key)) ==> pending == old(pending) && trace == old(trace)
      ensures key !in old(pending) && !old(Passed(key)) ==> MayBuffer(key, slot, packet)
    {
      hide LimitsOk, PendingOk, WaitingOk, ProtectedOk, SourcesKnown, SeenOk, SubmittedOk, AcceptedOk, TraceOk, Unique,
        CurrentOk, CurrentPart, Buffers, Recent, Cut;
      if key !in pending && Passed(key) {
        return;
      }
      if key.Some? && owner.Reserved? && key.value in seen {
        PendingIsUnseen(key);
        UnpassedIsNew(key);
      }
      var place := EntryFor(key);
      if place.Nowhere? {
        return;
      }
      assert key in old(pending) || (old(observedNow) <= observedNow && Recent(key, observedNow));
      ghost var asked := observedNow;
      Submit(key, slot, packet);
      OthersWaitOn(waiting, key);
      BufferPending(key, slot, packet);
      assert key in old(pending) || (old(observedNow) <= asked <= observedNow && Recent(key, asked));
    }

    lemma OthersWaitOn(waiting: seq<Option<Id>>, key: Option<Id>)
      ensures forall k | k in waiting && k != key :: k in Cut(waiting, key)
    {
      forall k | k in waiting && k != key
        ensures k in Cut(waiting, key)
      {
        CutKeepsOthers(waiting, key, k);
      }
    }

    /** The half-ring refinement: near the next index, a sequence number stands for one absolute
        index, and the packet is accepted under it unless that index was accepted or played before. */
    method PushCurrent(slot: nat, packet: Packet)
      requires Valid() && current.Some? && slot < CYCLE && (current.value.id, slot, packet) in submitted
      modifies `current, `pending, `waiting, `pendingPackets, `observedNow, `sources, `retired, `calls, `trace, `seen,
        `phase,
        `starting
      ensures Valid() && old(trace) <= trace && PlaysOn()
      ensures forall i: nat | i < old(Base(phase)) + WINDOW && old(Base(phase)) <= i + WINDOW && SlotOf(i) == slot ::
          if i < old(Base(phase)) || i in old(Known()) then trace == old(trace)
          else old(trace) + [Accepted(old(current).value.id, i, packet)] <= trace
    {
      hide LimitsOk, PendingOk, WaitingOk, ProtectedOk, SourcesKnown, SeenOk, SubmittedOk, AcceptedOk, TraceOk, Unique,
        CurrentOk, Onward, StopRan;
      CurrentPlays(current.value, phase);
      forall i: nat | Base(phase) <= i + WINDOW && i < Base(phase) + WINDOW && SlotOf(i) == slot
        ensures Ignores(current.value, slot) <==> i < Base(phase) || i in Known()
        ensures !Ignores(current.value, slot) ==> Index(Base(phase), slot) == i
      {
        IgnoresExactly(current.value, phase, i);
      }
      var _ := Schedule(slot, packet, true);
    }

    /** The indices under which the current gesture has accepted packets. */
    ghost function Known(): set<nat>
      reads this`phase
    {
      if phase.Playing? then phase.accepted.Keys else {}
    }

    lemma PendingIsUnseen(key: Option<Id>)
      requires Valid() && owner.Reserved? && key.Some? && key.value in seen
      ensures key !in pending
    {
    }

    ghost method Submit(key: Option<Id>, slot: nat, packet: Packet)
      requires Valid()
      modifies `submitted
      ensures Valid() && submitted == old(submitted) + {(key, slot, packet)}
    {
      hide LimitsOk, PendingOk, WaitingOk, ProtectedOk, SourcesKnown, SeenOk, Watch, CallsOf, Unique, CurrentPart;
      submitted := submitted + {(key, slot, packet)};
    }

    /** A packet that came before the start of its gesture is kept, the first one under each number. */
    method BufferPending(key: Option<Id>, slot: nat, packet: Packet)
      requires Valid() && key in pending && slot < CYCLE && (key, slot, packet) in submitted
      modifies `pending, `waiting, `pendingPackets, `observedNow, `sources, `retired, `trace, `seen, `phase
      ensures Valid() && old(trace) <= trace && old(observedNow) <= observedNow
      ensures Buffers(key, slot, packet, old(pendingPackets < maxPendingPackets && |PacketsOf(pending[key])| < WINDOW - 1),
                      old(pending), pending, old(trace), trace)
      ensures key !in pending ==> RetiredNow(old(retired), retired, key)
      ensures waiting == if key in pending then old(waiting) else Cut(old(waiting), key)
    {
      hide LimitsOk, PendingOk, WaitingOk, ProtectedOk, SourcesKnown, SeenOk, SubmittedOk, AcceptedOk, TraceOk, Unique,
        CurrentPart, RetiredNow, Rises;
      PendingHasPackets(key);
      var g := pending[key];
      if slot in g.pending.value {
        return;
      }
      if pendingPackets >= maxPendingPackets || |g.pending.value| >= WINDOW - 1 {
        Forget(g);
        LastOccurs(trace, |old(trace)|, Reported(BufferFull));
        Report(BufferFull);
        WaitForTail();
        return;
      }
      MorePackets(key, slot, packet);
      SameIds(key, g.(pending := Some(g.pending.value[slot := packet])));
      pending := pending[key := g.(pending := Some(g.pending.value[slot := packet]))];
      pendingPackets := pendingPackets + 1;
    }

    lemma PendingHasPackets(key: Option<Id>)
      requires Core() && key in pending
      ensures pending[key].pending.Some? && pending[key].id == key && (starting.None? ==> starting != Some(key))
    {
    }

    lemma MorePackets(key: Option<Id>, slot: nat, packet: Packet)
      requires Valid() && key in pending && pending[key].pending.Some? && slot < CYCLE
      requires slot !in pending[key].pending.value && |pending[key].pending.value| < WINDOW - 1
      requires pendingPackets < maxPendingPackets && (key, slot, packet) in submitted
      ensures var g := pending[key].(pending := Some(pending[key].pending.value[slot := packet]));
        var more := pending[key := g];
        && LimitsOk(more, pendingPackets + 1, sources, retired)
        && PendingOk(more, waiting, None)
        && SubmittedOk(more, submitted)
    {
      hide TraceOk, AcceptedOk, CurrentPart, WaitingOk, SeenOk, ProtectedOk, SourcesKnown, PendingOk, Total;
      TotalUpdate(pending, key, pending[key].(pending := Some(pending[key].pending.value[slot := packet])));
      MorePacketsAreOk(key, slot, packet, pending, waiting);
      PendingAreNamed();
    }

    lemma MorePacketsAreOk(key: Option<Id>, slot: nat, packet: Packet, pending: map<Option<Id>, Gesture>,
                           waiting: seq<Option<Id>>)
      requires PendingOk(pending, waiting, None) && key in pending && pending[key].pending.Some? && slot < CYCLE
      requires slot !in pending[key].pending.value && |pending[key].pending.value| < WINDOW - 1
      ensures PendingOk(pending[key := pending[key].(pending := Some(pending[key].pending.value[slot := packet]))], waiting, None)
    {
    }

    lemma SameIds(key: Option<Id>, g: Gesture)
      requires Valid() && key in pending && pending[key].id == g.id == key && g.timer == pending[key].timer
      ensures var after := pending[key := g];
        && WaitingOk(waiting, after, sources, IdOf(current))
        && CurrentPart(current, phase, after)
        && ProtectedOk(owner, after, IdOf(current))
        && SeenOk(owner, seen, after, sources, observedNow)
        && (waiting != [] ==> waiting[0] in after && after[waiting[0]].timer.TailTimer?)
    {
      hide TraceOk, AcceptedOk, CurrentOk, PendingOk, LimitsOk, SubmittedOk, Covered, Stale;
    }

    // ---------------------------------------------------------------- timers

    /** An unstarted gesture has waited too long for its start. */
    method StartTimerFires(key: Option<Id>)
      requires Valid() && key in pending && pending[key].timer.StartTimer?
      modifies `pending, `waiting, `pendingPackets, `observedNow, `sources, `retired, `trace, `seen, `phase
      ensures Valid() && pending == Without(old(pending), key) && waiting == old(waiting)
      ensures old(trace) <= trace && Happened(Reported(DidNotStart), |old(trace)|)
      ensures RetiredNow(old(retired), retired, key)
    {
      hide LimitsOk, PendingOk, WaitingOk, ProtectedOk, SourcesKnown, SeenOk, SubmittedOk, AcceptedOk, TraceOk, Unique,
        CurrentPart, Untouched, RetiredNow, Rises;
      PendingHasPackets(key);
      UnstartedIsNotWaiting(key);
      Forget(pending[key]);
      LastOccurs(trace, |old(trace)|, Reported(DidNotStart));
      Report(DidNotStart);
    }

    lemma UnstartedIsNotWaiting(key: Option<Id>)
      requires Core() && key in pending && pending[key].timer.StartTimer?
      ensures key !in waiting && (forall k | k in waiting :: k in Without(pending, key)) && Cut(waiting, key) == waiting
    {
    }

    /** The current gesture was given up: it is reset and retired, as far as the list reaches, the reason is
        reported, and the others go on. */
    ghost predicate GivenUp(before: Around, waiting0: seq<Option<Id>>, current0: Option<Gesture>, reason: Reason)
      reads this`pending, this`current, this`waiting, this`retired, this`sources, this`trace, this`observedNow
    {
      && before.trace + [ResetCalled] <= trace && Happened(Reported(reason), |before.trace|)
      && (current0.Some? && current0.value.id.Some? ==> current0.value.id.value in retired || StopRan(trace, |before.trace|))
      && Carried(before, Here())
      && if waiting0 == [] then current.None? && waiting == []
         else waiting0[0] in before.pending && Launched(trace, |before.trace|, before.pending[waiting0[0]])
    }

    /** The current gesture has kept the next one of its source waiting for too long. */
    method TailTimerFires()
      requires Valid() && waiting != []
      modifies `current, `pending, `waiting, `pendingPackets, `observedNow, `sources, `retired, `calls, `trace, `seen,
        `phase,
        `starting
      ensures Valid() && GivenUp(old(Here()), old(waiting), old(current), TailTimedOut)
      ensures |waiting| < |old(waiting)|
    {
      GiveUp(TailTimedOut);
    }

    method GiveUp(reason: Reason)
      requires Valid() && current.Some?
      modifies `current, `pending, `waiting, `pendingPackets, `observedNow, `sources, `retired, `calls, `trace, `seen,
        `phase,
        `starting
      ensures Valid() && GivenUp(old(Here()), old(waiting), old(current), reason)
      ensures old(waiting) != [] ==> |waiting| < |old(waiting)|
    {
      hide LimitsOk, PendingOk, WaitingOk, ProtectedOk, SourcesKnown, SeenOk, SubmittedOk, AcceptedOk, TraceOk, Unique,
        CurrentPart, Launched, Carried, StopsOnly, Occurs, StopRan, RetiredNow, Rises;
      ResetCurrent();
      LastOccurs(trace, |old(trace)|, Reported(reason));
      Report(reason);
      ghost var here, waits := Here(), waiting;
      if old(current).value.id.Some? {
        RetiredHas(old(retired), retired, old(current).value.id);
      }
      Promote();
      if old(current).value.id.Some? {
        RetiredThroughout(here, old(current).value.id.value, old(trace));
      }
      CarriedNone(old(Here()), here);
      CarriedThroughout(old(Here()), here, {});
      HappenedThroughout(here.trace, |old(trace)|);
      assert old(Here()).(pending := old(pending) - {}) == old(Here());
      if waits != [] {
        LaunchedStays(trace, trace, |old(trace)|, |here.trace|, here.pending[waits[0]]);
      }
    }

    lemma RetiredHas(before: seq<Id>, after: seq<Id>, id: Option<Id>)
      requires RetiredNow(before, after, id) && id.Some?
      ensures id.value in after
    {
    }

    lemma CarriedNone(before: Around, here: Around)
      requires here.pending == before.pending
      ensures here.pending == before.pending - {}
    {
    }

    /** The packet the current gesture waits for has not come. */
    method GapTimerFires()
      requires Valid() && current.Some? && current.value.timer.GapTimer?
      modifies `current, `pending, `waiting, `pendingPackets, `observedNow, `sources, `retired, `calls, `trace, `seen,
        `phase,
        `starting
      ensures Valid() && GivenUp(old(Here()), old(waiting), old(current), SequenceTimedOut)
    {
      GiveUp(SequenceTimedOut);
    }

    // ---------------------------------------------------------------- clearing

    /** Drops every gesture, pending or current. */
    method ClearAll()
      requires Valid()
      modifies `current, `pending, `waiting, `pendingPackets, `observedNow, `sources, `retired, `calls, `trace, `seen,
        `phase
      ensures Valid() && current.None? && pending == map[] && waiting == [] && old(trace) <= trace
      ensures old(current).Some? ==> Happened(ResetCalled, |old(trace)|)
      ensures forall k | k in old(pending) || old(IdOf(current)) == Some(k) :: Retires(k)
      ensures old(observedNow) <= observedNow && seen == old(seen)
    {
      hide LimitsOk, WaitingOk, ProtectedOk, SourcesKnown, SeenOk, SubmittedOk, AcceptedOk, TraceOk, Unique,
        CurrentPart,
        Untouched, RetiredNow, Rises;
      ForgetAll(pending.Keys);
      assert pending == map[];
      WaitingArePending();
      if current.Some? {
        ghost var j, before := |trace|, retired;
        ResetCurrent();
        assert trace[j] == ResetCalled;
        RetiredFits();
        StillRetired(before, old(IdOf(current)).value);
      }
    }

    /** The identifier is retired, as far as the list reaches. */
    ghost predicate Retires(id: Option<Id>)
      reads this`retired
    {
      RetiresIn(retired, id)
    }

    ghost predicate RetiresIn(retired: seq<Id>, id: Option<Id>) {
      id.Some? ==> id.value in retired || |retired| == maxRetired
    }

    lemma StillRetired(before: seq<Id>, id: Option<Id>)
      requires RetiredNow(before, retired, id) && |retired| <= maxRetired
      ensures Retires(id)
      ensures forall k | RetiresIn(before, k) :: RetiresIn(retired, k)
    {
    }

    /** Whether a gesture is meant when `id` is cleared: that one alone, or every gesture of its
        source up to it. */
    predicate Meant(g: Option<Id>, id: Id, through: bool) {
      if !through then g == Some(id)
      else SameSource(g, Some(id)) && SourceOf(g).value.order <= SourceOf(Some(id)).value.order
    }

    /** Whether a request to clear is heard at all. */
    predicate MayClear(id: Id, reservation: Option<string>, through: bool)
      reads this`owner
    {
      Allowed(Some(id), reservation) && (through ==> id.names.Some?)
    }

    predicate MeansSome(id: Id, through: bool)
      reads this`pending, this`current
    {
      || (exists k | k in pending :: Meant(k, id, through))
      || (current.Some? && Meant(current.value.id, id, through))
    }

    function AllMeant(before: map<Option<Id>, Gesture>, id: Id, through: bool): set<Option<Id>> {
      set k | k in before && Meant(k, id, through)
    }

    /** Nothing that is meant is left, not even to be promoted, and everything else is: it plays on, waits on, or
        has been activated in its turn. The identifier is retired (the list may be too short for it and for
        what has played its stop since), and its source is past it. */
    ghost predicate Cleared(id: Id, through: bool, before: Around, waiting0: seq<Option<Id>>, current0: Option<Gesture>)
      reads this`pending, this`current, this`waiting, this`retired, this`sources, this`trace, this`observedNow
    {
      var since, meant, left := |before.trace|, AllMeant(before.pending, id, through), Except(waiting0, AllMeant(before.pending, id, through));
      && before.trace <= trace
      && (forall k | k in pending :: !Meant(k, id, through))
      && (current.Some? ==> !Meant(current.value.id, id, through))
      && (id in retired || StopRan(trace, since))
      && (id.names.Some? ==> Passed(Some(id)) || Happened(Reported(SourceLimit), since))
      && Carried(before.(pending := before.pending - meant), Here())
      && (if current0.Some? && Meant(current0.value.id, id, through) then
            && Happened(ResetCalled, since)
            && (left != [] ==> left[0] in before.pending && Launched(trace, since, before.pending[left[0]]))
            && (left == [] ==> current.None? && pending.Keys == before.pending.Keys - meant)
          else
            current == current0 && waiting == left && pending.Keys == before.pending.Keys - meant)
    }

    /** The source of the identifier is unknown, and there is no room for it. */
    ghost predicate NoRoomToClear(id: Id, before: Around)
      reads this`pending, this`current, this`sources, this`observedNow, this`trace
    {
      id.names.Some? && NoRoomFor(id.names.value.source) && trace == before.trace + [Reported(SourceLimit)]
    }

    /** What a request to clear comes to. */
    twostate predicate Clears(id: Id, reservation: Option<string>, through: bool)
      reads this
    {
      // It is ignored if it is not allowed or names no source to clear through ...
      && (!old(MayClear(id, reservation, through)) ==>
            Here() == old(Here()) && current == old(current) && waiting == old(waiting))
      // ... or if nothing is there that it means and the identifier is not recent, or there is no room to remember
      // its source. Otherwise it is carried out.
      && (old(MayClear(id, reservation, through)) ==>
            || (!old(MeansSome(id, through)) && Ignored(id, old(Here()), old(waiting), old(current)))
            || CarriedOut(id, through, old(Here()), old(waiting), old(current)))
      && (old(MayClear(id, reservation, through)) && !Ignored(id, old(Here()), old(waiting), old(current)) ==>
            old(MeansSome(id, through)) || exists now :: old(observedNow) <= now <= observedNow && Recent(Some(id), now))
      // The current gesture is never spared.
      && (old(Allowed(Some(id), reservation)) && old(current).Some? && Meant(old(current).value.id, id, through) ==>
            Happened(ResetCalled, |old(trace)|) && Cleared(id, through, old(Here()), old(waiting), old(current)))
    }

    method Clear(id: Id, reservation: Option<string>, through: bool)
      requires Valid()
      modifies `current, `pending, `waiting, `pendingPackets, `observedNow, `sources, `retired, `calls, `trace, `seen,
        `phase,
        `starting
      ensures Valid() && old(trace) <= trace
      ensures Clears(id, reservation, through)
    {
      hide LimitsOk, PendingOk, WaitingOk, ProtectedOk, SourcesKnown, SeenOk, SubmittedOk, AcceptedOk, TraceOk, Unique,
        CurrentPart, Meant, Cleared, NoRoomToClear, Recent, CarriedOut;
      if current.Some? && Meant(current.value.id, id, through) {
        MeantIsKnown(id, through);
      }
      if !Allowed(Some(id), reservation) || (through && id.names.None?) {
        return;
      }
      if !MeansSome(id, through) {
        var recent := IsFreshKeepingValid(Some(id));
        if !recent {
          return;
        }
        assert old(observedNow) <= observedNow && Recent(Some(id), observedNow);
      }
      IsNamed(id, reservation);
      ghost var asked := observedNow;
      CarryOut(id, through);
      CarriedOutAlike(id, through, old(Here()).(now := asked), old(Here()), old(waiting), old(current));
      assert old(MeansSome(id, through)) || (old(observedNow) <= asked <= observedNow && Recent(Some(id), asked));
      if old(current).Some? && Meant(old(current).value.id, id, through) {
        NeverSpared(id, through, old(Here()), old(waiting), old(current));
      }
    }

    /** Nothing is changed, because the identifier is not recent. */
    ghost predicate Ignored(id: Id, before: Around, waiting0: seq<Option<Id>>, current0: Option<Gesture>)
      reads this`pending, this`current, this`waiting, this`retired, this`sources, this`trace, this`observedNow, this`owner
    {
      Here() == before.(now := observedNow) && current == current0 && waiting == waiting0 && !Recent(Some(id), observedNow)
    }

    ghost predicate CarriedOut(id: Id, through: bool, before: Around, waiting0: seq<Option<Id>>,
                               current0: Option<Gesture>)
      reads this`pending, this`current, this`waiting, this`retired, this`sources, this`trace, this`observedNow
    {
      || Cleared(id, through, before, waiting0, current0)
      || (&& NoRoomToClear(id, before) && current == current0 && waiting == waiting0
          && Here() == before.(trace := trace, now := observedNow))
    }

    /** A request that is not ignored is carried out, if its source can be remembered. */
    method CarryOut(id: Id, through: bool)
      requires Valid() && (through ==> id.names.Some?) && (id.names.None? ==> owner.Unprotected?)
      modifies `current, `pending, `waiting, `pendingPackets, `observedNow, `sources, `retired, `calls, `trace, `seen,
        `phase,
        `starting
      ensures Valid() && old(trace) <= trace && old(observedNow) <= observedNow
      ensures CarriedOut(id, through, old(Here()), old(waiting), old(current))
      ensures id.names.Some? && id.names.value.source in old(sources) ==>
        Cleared(id, through, old(Here()), old(waiting), old(current))
    {
      hide LimitsOk, PendingOk, WaitingOk, ProtectedOk, SourcesKnown, SeenOk, SubmittedOk, AcceptedOk, TraceOk, Unique,
        CurrentPart, Meant, Cleared, NoRoomFor, Rises;
      var remembered := Remember(id, true);
      if remembered {
        ghost var here := Here();
        Cancel(id, through);
        ClearedAlike(id, through, here, old(Here()), old(waiting), old(current));
      }
    }

    lemma CarriedOutAlike(id: Id, through: bool, a: Around, b: Around, waiting0: seq<Option<Id>>,
                          current0: Option<Gesture>)
      requires CarriedOut(id, through, a, waiting0, current0) && b == a.(now := b.now)
      ensures CarriedOut(id, through, b, waiting0, current0)
    {
      hide Cleared, NoRoomFor;
      if Cleared(id, through, a, waiting0, current0) {
        ClearedAlike(id, through, a, b, waiting0, current0);
      }
    }

    lemma NeverSpared(id: Id, through: bool, before: Around, waiting0: seq<Option<Id>>, current0: Option<Gesture>)
      requires CarriedOut(id, through, before, waiting0, current0) && current0.Some?
      requires Meant(current0.value.id, id, through)
      requires id.names.Some? ==> id.names.value.source in before.sources
      ensures Cleared(id, through, before, waiting0, current0) && Happened(ResetCalled, |before.trace|)
    {
      hide Cleared;
      ClearedResets(id, through, before, waiting0, current0);
    }

    lemma ClearedAlike(id: Id, through: bool, a: Around, b: Around, waiting0: seq<Option<Id>>,
                       current0: Option<Gesture>)
      requires Cleared(id, through, a, waiting0, current0) && a.pending == b.pending && a.trace == b.trace
      ensures Cleared(id, through, b, waiting0, current0)
    {
      hide Except, AllMeant, Launched, Occurs;
    }

    lemma ClearedResets(id: Id, through: bool, before: Around, waiting0: seq<Option<Id>>, current0: Option<Gesture>)
      requires Cleared(id, through, before, waiting0, current0) && current0.Some?
      requires Meant(current0.value.id, id, through)
      ensures Happened(ResetCalled, |before.trace|)
    {
      hide Except, AllMeant, Launched, Occurs, Meant;
    }

    lemma IsNamed(id: Id, reservation: Option<string>)
      requires Allowed(Some(id), reservation)
      ensures id.names.None? ==> owner.Unprotected?
    {
    }

    lemma MeantIsKnown(id: Id, through: bool)
      requires Core() && current.Some? && Meant(current.value.id, id, through)
      ensures through ==> id.names.Some?
      ensures id.names.Some? ==> id.names.value.source in sources
    {
    }

    /** Clearing is about identifiers: the one named, or those of its source that are not later. */
    lemma MeantSays(a: Id, id: Id)
      ensures Meant(Some(a), id, false) <==> a == id
      ensures Meant(Some(a), id, true) <==>
        && a.names.Some? && id.names.Some? && a.names.value.source == id.names.value.source
        && a.names.value.order <= id.names.value.order
      ensures forall through :: !Meant(None, id, through)
    {
    }

    /** The whole range goes before the next gesture is promoted: promoting first could play a
        gesture that is cancelled too. */
    method Cancel(id: Id, through: bool)
      requires Valid() && (through ==> id.names.Some?)
      modifies `current, `pending, `waiting, `pendingPackets, `observedNow, `sources, `retired, `calls, `trace, `seen,
        `phase,
        `starting
      ensures Valid() && old(trace) <= trace && old(observedNow) <= observedNow
      ensures Cleared(id, through, old(Here()), old(waiting), old(current))
    {
      hide LimitsOk, PendingOk, WaitingOk, ProtectedOk, SourcesKnown, SeenOk, SubmittedOk, AcceptedOk, TraceOk, Unique,
        CurrentPart, Meant, Launched, Except, AllMeant, Carried, StopsOnly, Occurs, StopRan;
      CancelMeant(id, through);
      ghost var here, waits, playing := Here(), waiting, current;
      ghost var passed := Passed(Some(id));
      Promote();
      if old(waiting) == [] {
        assert waits == [] by { ExceptMembersOf(AllMeant(old(pending), id, through)); }
      }
      NothingMeantIsLeft(id, through, old(Here()), here.pending);
      RetiredThroughout(here, id, old(trace));
      if passed {
        StaysPassed(here, id);
      }
      CarriedThroughout(old(Here()), here, AllMeant(old(pending), id, through));
      HappenedThroughout(here.trace, |old(trace)|);
      if playing.None? && waits != [] {
        LaunchedStays(trace, trace, |old(trace)|, |here.trace|, here.pending[waits[0]]);
      }
    }

    lemma ExceptMembersOf(gone: set<Option<Id>>)
      ensures Except<Option<Id>>([], gone) == []
    {
    }

    lemma NothingMeantIsLeft(id: Id, through: bool, before: Around, left: map<Option<Id>, Gesture>)
      requires left == before.pending - AllMeant(before.pending, id, through)
      ensures forall k | k in left :: !Meant(k, id, through)
      ensures left.Keys == before.pending.Keys - AllMeant(before.pending, id, through)
    {
    }

    lemma RetiredThroughout(here: Around, id: Id, before: seq<Event>)
      requires Onward(here, Here()) && id in here.retired && before <= here.trace
      requires here.trace != before ==> !here.trace[|here.trace| - 1].Ran?
      requires here.trace == before ==> trace == here.trace
      ensures id in retired || StopRan(trace, |before|)
    {
      if here.trace != before && id !in retired {
        assert trace[|here.trace| - 1] == here.trace[|here.trace| - 1];
        var j :| |here.trace| <= j < |trace| && Ends(trace[j]);
        assert trace[j - 1].Ran? && trace[j - 1].packet.StopGesture?;
      }
    }

    lemma StaysPassed(here: Around, id: Id)
      requires Onward(here, Here())
      requires SourceOf(Some(id)).Some? ==>
        var s := SourceOf(Some(id)).value; s.order <= if s.source in here.sources then here.sources[s.source].order else 0
      ensures SourceOf(Some(id)).Some? ==> Passed(Some(id))
    {
    }

    lemma CarriedThroughout(before: Around, here: Around, gone: set<Option<Id>>)
      requires Onward(here, Here()) && here.pending == before.pending - gone && before.trace <= here.trace
      ensures before.trace <= trace && Carried(before.(pending := before.pending - gone), Here())
    {
      CarriedTwice(before.(pending := here.pending), here, Here());
    }

    lemma HappenedThroughout(before: seq<Event>, since: nat)
      requires before <= trace
      ensures forall e: Event {:trigger Occurs(before, since, e)} | Occurs(before, since, e) :: Happened(e, since)
    {
      forall e: Event | Occurs(before, since, e)
        ensures Happened(e, since)
      {
        OccursStays(before, trace, since, e);
      }
    }

    /** What is meant goes. */
    method CancelMeant(id: Id, through: bool)
      requires Valid()
      modifies `current, `pending, `waiting, `pendingPackets, `observedNow, `sources, `retired, `calls, `trace, `seen,
        `phase
      ensures Core() && starting.None? && (current.Some? ==> Resting())
      ensures var meant := AllMeant(old(pending), id, through);
        && pending == old(pending) - meant && waiting == Except(old(waiting), meant)
      ensures current == if old(current).Some? && Meant(old(current).value.id, id, through) then None else old(current)
      ensures old(trace) <= trace && old(observedNow) <= observedNow && id in retired
      ensures old(current).Some? && Meant(old(current).value.id, id, through) ==>
        Happened(ResetCalled, |old(trace)|) && |old(trace)| < |trace|
      ensures trace != old(trace) ==> !trace[|trace| - 1].Ran?
      ensures id.names.Some? ==> Passed(Some(id)) || Happened(Reported(SourceLimit), |old(trace)|)
    {
      hide LimitsOk, PendingOk, WaitingOk, ProtectedOk, SourcesKnown, SeenOk, SubmittedOk, AcceptedOk, TraceOk, Unique,
        CurrentPart, Meant, Rises, Except;
      ForgetAll(AllMeant(pending, id, through));
      if current.Some? && Meant(current.value.id, id, through) {
        ghost var j := |trace|;
        ResetCurrent();
        assert trace[j] == ResetCalled;
      }
      ghost var before := trace;
      Retire(Some(id));
      if trace != before {
        LastOccurs(before, |old(trace)|, Reported(SourceLimit));
      }
    }

    method IsFreshKeepingValid(id: Option<Id>) returns (recent: bool)
      requires Valid()
      modifies `observedNow
      ensures Valid() && (recent <==> Recent(id, observedNow))
      ensures old(observedNow) <= observedNow
    {
      hide LimitsOk, PendingOk, WaitingOk, ProtectedOk, SourcesKnown, SubmittedOk, AcceptedOk, TraceOk, Unique,
        CurrentPart;
      recent := IsFresh(id);
    }

    /** Nothing but the lack of room for sources is reported. */
    ghost predicate Quiet(before: seq<Event>, after: seq<Event>) {
      before <= after && forall j | |before| <= j < |after| :: after[j] == Reported(SourceLimit)
    }

    method ForgetAll(meant: set<Option<Id>>)
      requires Core() && meant <= pending.Keys && (starting.Some? ==> starting.value !in meant)
      modifies `pending, `waiting, `pendingPackets, `observedNow, `sources, `retired, `trace, `seen, `phase
      ensures Core() && Quiet(old(trace), trace)
      ensures pending == old(pending) - meant && waiting == Except(old(waiting), meant)
      ensures forall k | k in meant :: RetiresIn(retired, k)
      ensures old(observedNow) <= observedNow && seen == old(seen) && phase == old(phase)
    {
      hide LimitsOk, PendingOk, WaitingOk, ProtectedOk, SourcesKnown, SeenOk, SubmittedOk, AcceptedOk, TraceOk, Unique,
        CurrentPart, Cut, RetiredNow, Rises, Except, RetiresIn;
      var todo := meant;
      ghost var gone: set<Option<Id>> := {};
      ExceptNone(waiting);
      while todo != {}
        invariant Core() && gone + todo == meant && gone !! todo && Quiet(old(trace), trace)
        invariant pending == old(pending) - gone && todo <= pending.Keys
        invariant waiting == Except(old(waiting), gone)
        invariant forall k | k in gone :: RetiresIn(retired, k)
        invariant old(observedNow) <= observedNow && seen == old(seen) && phase == old(phase)
        decreases |todo|
      {
        var k :| k in todo;
        ForgetOne(k, old(waiting), gone);
        OneLess(old(pending), gone, k);
        todo, gone := todo - {k}, gone + {k};
      }
    }

    lemma OneLess(pending: map<Option<Id>, Gesture>, gone: set<Option<Id>>, k: Option<Id>)
      ensures pending - gone - {k} == pending - (gone + {k})
      ensures (pending - (gone + {k})).Keys == pending.Keys - gone - {k}
    {
    }

    method ForgetOne(k: Option<Id>, ghost whole: seq<Option<Id>>, ghost gone: set<Option<Id>>)
      requires Core() && starting != Some(k) && k in pending && Unique(whole) && waiting == Except(whole, gone)
      modifies `pending, `waiting, `pendingPackets, `observedNow, `sources, `retired, `trace, `seen, `phase
      ensures Core() && Quiet(old(trace), trace)
      ensures pending == old(pending) - {k} && waiting == Except(whole, gone + {k})
      ensures Retires(k) && forall j | RetiresIn(old(retired), j) :: RetiresIn(retired, j)
      ensures old(observedNow) <= observedNow && seen == old(seen) && phase == old(phase)
    {
      hide LimitsOk, PendingOk, WaitingOk, ProtectedOk, SourcesKnown, SeenOk, SubmittedOk, AcceptedOk, TraceOk, Unique,
        CurrentPart, Cut, RetiredNow, Rises, Except;
      PendingHasPackets(k);
      CutExcept(whole, gone, k);
      ghost var before := retired;
      Forget(pending[k]);
      RetiredFits();
      StillRetired(before, k);
    }

    lemma RetiredFits()
      requires Core()
      ensures |retired| <= maxRetired
    {
    }

    // ---------------------------------------------------------------- starting and stopping

    /** A gesture takes its turn behind every waiting one whose order is not greater. */
    function InsertByOrder(waiting: seq<Option<Id>>, key: Option<Id>): (queue: seq<Option<Id>>)
      ensures |queue| == |waiting| + 1
      ensures queue[0] == key || (waiting != [] && queue[0] == waiting[0])
    {
      if waiting == [] || OrderOf(waiting[0]) > OrderOf(key) then [key] + waiting
      else [waiting[0]] + InsertByOrder(waiting[1..], key)
    }

    lemma {:induction false} InsertMembers(waiting: seq<Option<Id>>, key: Option<Id>, k: Option<Id>)
      ensures k in InsertByOrder(waiting, key) <==> k == key || k in waiting
    {
      if waiting != [] {
        assert waiting == [waiting[0]] + waiting[1..];
        InsertMembers(waiting[1..], key, k);
      }
    }

    lemma {:induction false} InsertUnique(waiting: seq<Option<Id>>, key: Option<Id>)
      requires Unique(waiting) && key !in waiting
      ensures Unique(InsertByOrder(waiting, key))
    {
      if waiting == [] || OrderOf(waiting[0]) > OrderOf(key) {
        ConsIsUnique(key, waiting);
      } else {
        TailIsUnique(waiting);
        InsertUnique(waiting[1..], key);
        InsertMembers(waiting[1..], key, waiting[0]);
        ConsIsUnique(waiting[0], InsertByOrder(waiting[1..], key));
      }
    }

    lemma {:induction false} InsertSorted(waiting: seq<Option<Id>>, key: Option<Id>)
      requires InOrder(waiting)
      ensures InOrder(InsertByOrder(waiting, key))
    {
      if waiting != [] && OrderOf(waiting[0]) <= OrderOf(key) {
        var rest := InsertByOrder(waiting[1..], key);
        InsertSorted(waiting[1..], key);
        forall j | 0 <= j < |rest|
          ensures OrderOf(waiting[0]) <= OrderOf(rest[j])
        {
          InsertMembers(waiting[1..], key, rest[j]);
        }
        assert InsertByOrder(waiting, key) == [waiting[0]] + rest;
      } else {
        assert InsertByOrder(waiting, key) == [key] + waiting;
      }
    }

    /** A newcomer goes behind everything that is not later than it, and nothing else moves. */
    lemma {:induction false} InsertPlaces(waiting: seq<Option<Id>>, key: Option<Id>) returns (n: nat)
      requires InOrder(waiting)
      ensures n <= |waiting| && InsertByOrder(waiting, key) == waiting[..n] + [key] + waiting[n..]
      ensures forall j | 0 <= j < n :: OrderOf(waiting[j]) <= OrderOf(key)
      ensures forall j | n <= j < |waiting| :: OrderOf(waiting[j]) > OrderOf(key)
    {
      if waiting == [] || OrderOf(waiting[0]) > OrderOf(key) {
        n := 0;
      } else {
        var rest := InsertPlaces(waiting[1..], key);
        n := rest + 1;
        assert waiting[..n] == [waiting[0]] + waiting[1..][..rest] && waiting[n..] == waiting[1..][rest..];
      }
    }

    lemma InsertKeepsWaiting(key: Option<Id>, p: Option<Id>)
      requires WaitingOk(waiting, pending, sources, Some(p)) && SameSource(p, key) && key in pending
      requires SourceOf(key).Some? ==> SourceOf(key).value.source in sources
      ensures WaitingOk(InsertByOrder(waiting, key), pending, sources, Some(p))
    {
      InsertSorted(waiting, key);
      forall k | k in InsertByOrder(waiting, key)
        ensures k == key || k in waiting
      {
        InsertMembers(waiting, key, k);
      }
    }

    /** A displaced head gives its timer up. */
    function Displace(queue: seq<Option<Id>>, waiting: seq<Option<Id>>,
                      pending: map<Option<Id>, Gesture>): map<Option<Id>, Gesture> {
      if queue != [] && waiting != [] && queue[0] != waiting[0] && waiting[0] in pending
      then pending[waiting[0] := pending[waiting[0]].(timer := NoTimer)] else pending
    }

    lemma InsertKeepsPending(key: Option<Id>, waiting: seq<Option<Id>>, pending: map<Option<Id>, Gesture>)
      requires Unique(waiting) && PendingOk(pending, waiting, Some(key)) && pending[key].timer.NoTimer?
      requires forall k | k in waiting :: k in pending
      ensures Unique(InsertByOrder(waiting, key))
      ensures var queue := InsertByOrder(waiting, key); PendingOk(Displace(queue, waiting, pending), queue, None)
    {
      InsertUnique(waiting, key);
      forall k | k in pending
        ensures k in InsertByOrder(waiting, key) <==> k == key || k in waiting
      {
        InsertMembers(waiting, key, k);
      }
      var queue := InsertByOrder(waiting, key);
      InsertMembers(waiting, key, key);
      LongerQueueIsOk(key, queue, waiting, pending);
    }

    lemma LongerQueueIsOk(key: Option<Id>, queue: seq<Option<Id>>, waiting: seq<Option<Id>>,
                          pending: map<Option<Id>, Gesture>)
      requires PendingOk(pending, waiting, Some(key)) && pending[key].timer.NoTimer? && key in queue
      requires forall k | k in pending :: k in queue <==> k == key || k in waiting
      requires queue[0] == key || (waiting != [] && queue[0] == waiting[0])
      ensures PendingOk(Displace(queue, waiting, pending), queue, None)
    {
      hide Untouched;
      forall g: Gesture
        ensures Untouched(g) <==> Untouched(g.(timer := NoTimer))
      {
        TimerAside(g);
      }
    }

    lemma TimerAside(g: Gesture)
      ensures Untouched(g) <==> Untouched(g.(timer := NoTimer))
    {
    }

    /** A gesture has got its start and is about to wait or to play. */
    method MarkStarted(key: Option<Id>, slot: nat)
      requires Valid() && key in pending && pending[key].start.None? && slot < CYCLE
      requires SourceOf(key).Some? ==> SourceOf(key).value.source in sources
      modifies `pending, `starting
      ensures Core() && starting == Some(key)
      ensures pending == old(pending)[key := old(pending)[key].(timer := NoTimer, start := Some(slot))]
      ensures waiting != [] ==> waiting[0] in pending && pending[waiting[0]].timer.TailTimer?
    {
      hide LimitsOk, PendingOk, WaitingOk, ProtectedOk, SeenOk, SubmittedOk, AcceptedOk, TraceOk, Unique, CurrentPart;
      MarkKeeps(key, slot);
      pending := pending[key := pending[key].(timer := NoTimer, start := Some(slot))];
      starting := Some(key);
    }

    lemma MarkKeeps(key: Option<Id>, slot: nat)
      requires Valid() && key in pending && pending[key].start.None? && slot < CYCLE
      ensures var after := pending[key := pending[key].(timer := NoTimer, start := Some(slot))];
        && PendingOk(after, waiting, Some(key)) && WaitingOk(waiting, after, sources, IdOf(current))
        && LimitsOk(after, pendingPackets, sources, retired) && CurrentPart(current, phase, after)
        && ProtectedOk(owner, after, IdOf(current)) && SeenOk(owner, seen, after, sources, observedNow)
        && SubmittedOk(after, submitted)
        && (waiting != [] ==> waiting[0] in after && after[waiting[0]].timer.TailTimer?)
    {
      hide LimitsOk, PendingOk, WaitingOk, ProtectedOk, SourcesKnown, SeenOk, SubmittedOk, AcceptedOk, TraceOk, Unique,
        CurrentPart;
      WaitingArePending();
      PendingAreNamed();
      var g := pending[key].(timer := NoTimer, start := Some(slot));
      SamePending(g, pending, current, phase, owner, seen, sources, observedNow, waiting, submitted);
      SamePendingLimits(g);
      MarkedIsOk(key, slot, pending, waiting);
    }

    lemma MarkedIsOk(key: Option<Id>, slot: nat, pending: map<Option<Id>, Gesture>, waiting: seq<Option<Id>>)
      requires PendingOk(pending, waiting, None) && key in pending && pending[key].start.None? && slot < CYCLE
      ensures PendingOk(pending[key := pending[key].(timer := NoTimer, start := Some(slot))], waiting, Some(key))
      ensures waiting != [] && waiting[0] in pending ==> waiting[0] != key
    {
      hide Untouched;
      TimerIsApart(pending[key], slot);
    }

    lemma TimerIsApart(g: Gesture, slot: nat)
      ensures Untouched(g) ==> Untouched(g.(timer := NoTimer, start := Some(slot)))
    {
    }

    lemma SamePendingLimits(g: Gesture)
      requires Core() && g.id in pending && g.pending == pending[g.id].pending
      ensures LimitsOk(pending[g.id := g], pendingPackets, sources, retired)
    {
      hide Total;
      TotalUpdate(pending, g.id, g);
    }

    method Enqueue(key: Option<Id>)
      requires Core() && starting == Some(key) && key in pending && pending[key].timer.NoTimer?
      requires current.Some? && SameSource(current.value.id, key)
      modifies `pending, `waiting, `starting
      ensures Core() && starting.None? && key in waiting && key in pending
      ensures waiting == InsertByOrder(old(waiting), key) && pending.Keys == old(pending).Keys
      ensures forall k | k in pending :: Alike(old(pending)[k], pending[k])
    {
      hide LimitsOk, PendingOk, WaitingOk, ProtectedOk, SeenOk, SubmittedOk, AcceptedOk, TraceOk, Unique, CurrentPart,
        InsertByOrder, SameSource;
      var queue := InsertByOrder(waiting, key);
      EnqueueKeeps(key);
      InsertMembers(waiting, key, key);
      pending := Displace(queue, waiting, pending);
      waiting := queue;
      starting := None;
    }

    lemma EnqueueKeeps(key: Option<Id>)
      requires Core() && starting == Some(key) && key in pending && pending[key].timer.NoTimer?
      requires current.Some? && SameSource(current.value.id, key)
      ensures var queue := InsertByOrder(waiting, key); var after := Displace(queue, waiting, pending);
        && Unique(queue) && PendingOk(after, queue, None) && WaitingOk(queue, after, sources, IdOf(current))
        && LimitsOk(after, pendingPackets, sources, retired) && CurrentPart(current, phase, after)
        && ProtectedOk(owner, after, IdOf(current)) && SeenOk(owner, seen, after, sources, observedNow)
        && SubmittedOk(after, submitted) && key in after
        && after.Keys == pending.Keys && forall k | k in after :: Alike(pending[k], after[k])
    {
      hide LimitsOk, PendingOk, WaitingOk, ProtectedOk, SeenOk, SubmittedOk, AcceptedOk, TraceOk, CurrentPart,
        InsertByOrder, SameSource;
      WaitingArePending();
      InsertKeepsWaiting(key, current.value.id);
      InsertKeepsPending(key, waiting, pending);
      PendingAreNamed();
      var queue := InsertByOrder(waiting, key);
      if Displace(queue, waiting, pending) != pending {
        var g := pending[waiting[0]].(timer := NoTimer);
        SamePending(g, pending, current, phase, owner, seen, sources, observedNow, queue, submitted);
        SamePendingLimits(g);
      }
    }

    lemma PendingAreNamed()
      requires Core()
      ensures forall k | k in pending :: pending[k].id == k
    {
    }

    /** A gesture that has started takes its place in line, or whatever plays or waits goes for it, after a reset;
        the gestures that have not started keep their packets. */
    ghost predicate Placed(key: Option<Id>, slot: nat, g: Gesture, before: Around, waiting0: seq<Option<Id>>,
                           current0: Option<Gesture>)
      reads this`pending, this`current, this`waiting, this`trace
    {
      if current0.Some? && SameSource(current0.value.id, key) then
        && trace == before.trace && current == current0 && InLine(key, slot, g) && waiting == InsertByOrder(waiting0, key)
        && pending.Keys == before.pending.Keys + {key}
        && forall k | k in before.pending && k != key :: Alike(before.pending[k], pending[k])
      else
        && Launched(trace, |before.trace|, g.(start := Some(slot))) && waiting == []
        && (current0.Some? ==> Happened(ResetCalled, |before.trace|))
        && (forall k :: k in pending <==> k in before.pending && k !in waiting0 && k != key)
        && forall k | k in pending :: Alike(before.pending[k], pending[k])
    }

    /** The gesture waits behind the current one of its source, or displaces whatever plays or waits. */
    method Begin(key: Option<Id>, slot: nat)
      requires Valid() && key in pending && pending[key].start.None? && slot < CYCLE
      requires SourceOf(key).Some? ==> SourceOf(key).value.source in sources
      modifies `current, `pending, `waiting, `pendingPackets, `observedNow, `sources, `retired, `calls, `trace, `seen,
        `phase,
        `starting
      ensures Valid() && old(trace) <= trace
      ensures Placed(key, slot, old(pending)[key], old(Here()), old(waiting), old(current))
      ensures old(current).Some? && SameSource(old(current).value.id, key) ==> sources == old(sources)
    {
      hide LimitsOk, PendingOk, WaitingOk, ProtectedOk, SourcesKnown, SeenOk, SubmittedOk, AcceptedOk, TraceOk, Unique,
        CurrentPart, SameSource, Launched, InsertByOrder, Alike, InLine, Occurs, GapTimerOk, Settled, NoSafeHole, Running;
      UnstartedAreOthers();
      if current.Some? && SameSource(current.value.id, key) {
        JoinLine(key, slot);
      } else {
        MarkStarted(key, slot);
        Displacing(key, slot, old(pending)[key], old(waiting));
      }
    }

    /** The gesture takes its place behind the current one of its source. */
    method JoinLine(key: Option<Id>, slot: nat)
      requires Valid() && key in pending && pending[key].start.None? && slot < CYCLE
      requires SourceOf(key).Some? ==> SourceOf(key).value.source in sources
      requires current.Some? && SameSource(current.value.id, key)
      modifies `current, `pending, `waiting, `starting
      ensures Valid() && current == old(current)
      ensures InLine(key, slot, old(pending)[key]) && waiting == InsertByOrder(old(waiting), key)
      ensures pending.Keys == old(pending).Keys
      ensures forall k | k in pending && k != key :: Alike(old(pending)[k], pending[k])
    {
      hide LimitsOk, PendingOk, WaitingOk, ProtectedOk, SourcesKnown, SeenOk, SubmittedOk, AcceptedOk, TraceOk, Unique,
        CurrentPart, SameSource, InsertByOrder;
      UnstartedAreOthers();
      MarkStarted(key, slot);
      Enqueue(key);
      WaitForTail();
    }

    lemma UnstartedAreOthers()
      requires Core()
      ensures forall k | k in pending :: pending[k].id == k && (pending[k].start.Some? <==> k in waiting || starting == Some(k))
      ensures forall k | k in waiting :: k in pending
    {
    }

    /** What plays and what waits goes, and the gesture plays. */
    method Displacing(key: Option<Id>, slot: nat, ghost g: Gesture, ghost waiting0: seq<Option<Id>>)
      requires Core() && starting == Some(key) && key in pending && pending[key].start == Some(slot)
      requires pending[key] == g.(timer := NoTimer, start := Some(slot)) && waiting0 == waiting && key !in waiting
      requires forall k | k in pending :: pending[k].start.Some? <==> k in waiting || k == key
      modifies `current, `pending, `waiting, `pendingPackets, `observedNow, `sources, `retired, `calls, `trace, `seen,
        `phase,
        `starting
      ensures Resting() && waiting == [] && old(trace) <= trace
      ensures Launched(trace, |old(trace)|, g.(start := Some(slot)))
      ensures old(current).Some? ==> Happened(ResetCalled, |old(trace)|)
      ensures forall k :: k in pending <==> k in old(pending) && k !in waiting0 && k != key
      ensures forall k | k in pending :: Alike(old(pending)[k], pending[k])
    {
      hide LimitsOk, PendingOk, WaitingOk, ProtectedOk, SourcesKnown, SeenOk, SubmittedOk, AcceptedOk, TraceOk, Unique,
        CurrentPart, SameSource, Launched, RetiredNow, Rises, Alike, StopsOnly, Occurs, Onward;
      DropWaiting();
      if current.Some? {
        ghost var dropped := trace;
        ResetCurrent();
        AppendedOccurs(dropped, trace, |old(trace)|, ResetCalled);
      }
      ghost var here := Here();
      Activate(key);
      if Occurs(here.trace, |old(trace)|, ResetCalled) {
        OccursStays(here.trace, trace, |old(trace)|, ResetCalled);
      }
      LaunchedStays(trace, trace, |old(trace)|, |here.trace|, here.pending[key]);
      LaunchedAlike(trace, |old(trace)|, here.pending[key], g.(start := Some(slot)));
      OnlyItsPlace(here, old(pending), waiting0, key);
    }

    lemma OnlyItsPlace(here: Around, pending0: map<Option<Id>, Gesture>, waiting0: seq<Option<Id>>, key: Option<Id>)
      requires Onward(here, Here()) && key !in pending
      requires forall k :: k in here.pending <==> k in pending0 && k !in waiting0
      requires forall k | k in here.pending :: here.pending[k] == pending0[k]
      requires forall k | k in pending0 :: pending0[k].start.Some? <==> k in waiting0 || k == key
      ensures forall k :: k in pending <==> k in pending0 && k !in waiting0 && k != key
      ensures forall k | k in pending :: Alike(pending0[k], pending[k])
    {
      hide Occurs, StopsOnly, Rises;
      forall k
        ensures k in pending <==> k in pending0 && k !in waiting0 && k != key
      {
        assert k in here.pending && k !in pending ==> here.pending[k].start.Some?;
      }
    }

    /** The gesture waits for its turn, with its start and the packets it had. */
    ghost predicate InLine(key: Option<Id>, slot: nat, g: Gesture)
      reads this`waiting, this`pending
    {
      key in waiting && key in pending && pending[key].start == Some(slot) && pending[key].pending == g.pending
    }

    lemma LaunchedAlike(trace: seq<Event>, since: nat, g: Gesture, h: Gesture)
      requires Launched(trace, since, g) && g.id == h.id && g.start == h.start && g.pending == h.pending
      ensures Launched(trace, since, h)
    {
      hide SlotOf, Occurs;
      var j :| since <= j < |trace| && trace[j] == Activated(g.id, g.start.value) && Delivered(trace, j + 1, g, CYCLE);
      assert forall e :: PositionAt(g, e) == PositionAt(h, e);
      assert Delivered(trace, j + 1, h, CYCLE);
    }

    /** A start from elsewhere cancels the waiting gestures. */
    method DropWaiting()
      requires Core() && starting.Some? && starting.value !in waiting
      modifies `pending, `waiting, `pendingPackets, `observedNow, `sources, `retired, `trace, `seen, `phase
      ensures Core() && waiting == [] && old(trace) <= trace
      ensures forall k :: k in pending <==> k in old(pending) && k !in old(waiting)
      ensures forall k | k in pending :: pending[k] == old(pending)[k]
      ensures forall k | k in old(waiting) :: RetiresIn(retired, k)
    {
      hide LimitsOk, PendingOk, WaitingOk, ProtectedOk, SourcesKnown, SeenOk, SubmittedOk, AcceptedOk, TraceOk, Unique,
        CurrentPart, SameSource, Except, RetiresIn;
      WaitingArePending();
      ExceptAll(waiting, set k | k in waiting);
      ForgetAll(set k | k in waiting);
    }

    lemma ExceptAll(w: seq<Option<Id>>, gone: set<Option<Id>>)
      requires forall k | k in w :: k in gone
      ensures Except(w, gone) == []
    {
      if Except(w, gone) != [] {
        ExceptMembers(w, gone, Except(w, gone)[0]);
      }
    }

    /** Whether a start names a gesture that is playing, has started or is over. */
    predicate TooLate(id: Option<Id>)
      reads this`current, this`pending, this`retired, this`sources
    {
      || (id.Some? && id.value in retired)
      || IdOf(current) == Some(id)
      || (id in pending && pending[id].start.Some?)
      || Passed(id)
    }

    lemma NotTooLate(id: Option<Id>)
      requires Valid() && !TooLate(id)
      ensures IdOf(current) != Some(id) && (id in pending ==> pending[id].start.None?)
      ensures (id in pending || Recent(id, observedNow)) && owner.Reserved? && id.Some? ==> id.value !in seen
    {
    }

    method RememberKeepingValid(id: Id) returns (ok: bool)
      requires Valid()
      modifies `observedNow, `sources, `trace, `seen, `phase
      ensures Valid() && seen == old(seen) && old(observedNow) <= observedNow
      ensures trace == if ok || id.names.None? then old(trace) else old(trace) + [Reported(SourceLimit)]
      ensures ok && id.names.Some? ==> id.names.value.source in sources
      ensures ok ==> SameMark(Some(id), old(sources), sources)
      ensures id.names.None? ==> ok == owner.Unprotected?
      ensures !ok && id.names.Some? ==> NoRoomFor(id.names.value.source)
    {
      hide LimitsOk, PendingOk, WaitingOk, ProtectedOk, SourcesKnown, SeenOk, SubmittedOk, AcceptedOk, TraceOk, Unique,
        CurrentPart, WatermarksKept, NoRoomFor, Rises;
      ok := Remember(id, false);
    }

    /** The gesture before its start, with the packets that have come for it. */
    function Unstarted(id: Option<Id>): Gesture
      reads this`pending
    {
      if id in pending then pending[id] else NewGesture(id)
    }

    /** A start without identifier ends a gesture without identifier first. */
    predicate Replaces(id: Option<Id>)
      reads this`current
    {
      id.None? && IdOf(current) == Some(id)
    }

    /** Why a start that is not too late may yet be refused: an unknown gesture is not recent, or there are too
        many of them, or too many sources; the latter two are reported. */
    ghost predicate Refused(id: Option<Id>, since: nat, pending0: map<Option<Id>, Gesture>)
      reads this`pending, this`current, this`sources, this`observedNow, this`trace, this`owner
    {
      || (id !in pending0 && !Recent(id, observedNow))
      || (SourceOf(id).Some? && NoRoomFor(SourceOf(id).value.source) && Happened(Reported(SourceLimit), since))
      || (id !in pending0 && |pending0| >= maxPendingGestures && Happened(Reported(BufferFull), since))
    }

    lemma NobodysMark(id: Option<Id>)
      ensures id.None? ==> SameMark(id, sources, sources)
    {
    }

    ghost predicate SameMark(id: Option<Id>, before: map<string, SourceState>, after: map<string, SourceState>) {
      SourceOf(id).Some? ==>
        var source := SourceOf(id).value.source;
        source in after && after[source].order == if source in before then before[source].order else 0
    }

    /** What a start comes to: it is accepted unless it may not be heard, comes too late or is refused. */
    twostate predicate Starts(accepted: bool, slot: int, id: Option<Id>, reservation: Option<string>)
      reads this
    {
      if accepted then
        && 0 <= slot < CYCLE && old(Allowed(id, reservation)) && (old(Replaces(id)) || !old(TooLate(id)))
        && (if old(Replaces(id)) then
              && pending == map[] && waiting == [] && Happened(ResetCalled, |old(trace)|)
              && Launched(trace, |old(trace)|, NewGesture(id).(start := Some(slot)))
            else Placed(id, slot, old(Unstarted(id)), old(Here()), old(waiting), old(current)))
        // A gesture that has to wait does not raise the watermark of its source yet.
        && (old(current).Some? && SameSource(old(current).value.id, id) ==> SameMark(id, old(sources), sources))
      else
        && pending == old(pending) && current == old(current) && waiting == old(waiting)
        && (|| !(0 <= slot < CYCLE) || !old(Allowed(id, reservation))
            || (!old(Replaces(id)) && (old(TooLate(id)) || Refused(id, |old(trace)|, old(pending)))))
    }

    method Start(slot: int, id: Option<Id>, reservation: Option<string>) returns (ghost accepted: bool)
      requires Valid()
      modifies `current, `pending, `waiting, `pendingPackets, `observedNow, `sources, `retired, `calls, `trace, `seen,
        `phase,
        `starting
      ensures Valid() && old(trace) <= trace
      ensures Starts(accepted, slot, id, reservation)
    {
      hide LimitsOk, PendingOk, WaitingOk, ProtectedOk, SourcesKnown, SeenOk, SubmittedOk, AcceptedOk, TraceOk, Unique,
        CurrentPart, SameSource, Launched, Placed, TooLate, Refused;
      accepted := false;
      if !(0 <= slot < CYCLE) || !Allowed(id, reservation) {
        return;
      }
      if id.None? && IdOf(current) == Some(id) {
        Restart(slot);
        accepted := true;
      } else {
        accepted := Admit(id, slot);
      }
    }

    /** Everything goes, and a new gesture without identifier plays. */
    method Restart(slot: nat)
      requires Valid() && slot < CYCLE && owner.Unprotected? && current.Some?
      modifies `current, `pending, `waiting, `pendingPackets, `observedNow, `sources, `retired, `calls, `trace, `seen,
        `phase,
        `starting
      ensures Valid() && old(trace) <= trace && pending == map[] && waiting == [] && Happened(ResetCalled, |old(trace)|)
      ensures Launched(trace, |old(trace)|, NewGesture(None).(start := Some(slot)))
    {
      hide LimitsOk, PendingOk, WaitingOk, ProtectedOk, SourcesKnown, SeenOk, SubmittedOk, AcceptedOk, TraceOk, Unique,
        CurrentPart, SameSource, Launched, Occurs, Retires;
      LimitsArePositive();
      ClearAll();
      ghost var here, waits := Here(), waiting;
      var accepted := Admit(None, slot);
      assert pending == map[];
      OccursStays(here.trace, trace, |old(trace)|, ResetCalled);
      LaunchedStays(trace, trace, |old(trace)|, |here.trace|, NewGesture(None).(start := Some(slot)));
    }

    method Admit(id: Option<Id>, slot: nat) returns (ghost accepted: bool)
      requires Valid() && slot < CYCLE && (owner.Unprotected? || Identified(id))
      modifies `current, `pending, `waiting, `pendingPackets, `observedNow, `sources, `retired, `calls, `trace, `seen,
        `phase,
        `starting
      ensures Valid() && old(trace) <= trace
      ensures accepted ==> !old(TooLate(id))
      ensures accepted ==> Placed(id, slot, old(Unstarted(id)), old(Here()), old(waiting), old(current))
      ensures !accepted ==> pending == old(pending) && current == old(current) && waiting == old(waiting)
      ensures accepted && old(current).Some? && SameSource(old(current).value.id, id) ==> SameMark(id, old(sources), sources)
      ensures !accepted ==> old(TooLate(id)) || Refused(id, |old(trace)|, old(pending))
    {
      hide LimitsOk, PendingOk, WaitingOk, ProtectedOk, SourcesKnown, SeenOk, SubmittedOk, AcceptedOk, TraceOk, Unique,
        CurrentPart, SameSource, TooLate, Placed, Recent, NoRoomFor, SameMark, Passed;
      accepted := false;
      NobodysMark(id);
      if TooLate(id) {
        return;
      }
      NotTooLate(id);
      if id !in pending {
        var recent := IsFreshKeepingValid(id);
        if !recent {
          return;
        }
      }
      NotTooLate(id);
      if id.Some? {
        ghost var before := trace;
        var remembered := RememberKeepingValid(id.value);
        if !remembered {
          LastOccurs(before, |old(trace)|, Reported(SourceLimit));
          return;
        }
      }
      var place := EntryFor(id);
      if place.Nowhere? {
        return;
      }
      accepted := true;
      ghost var here := Here();
      Begin(id, slot);
      PlacedAlike(id, slot, here, old(Here()), old(waiting), old(current));
    }

    lemma PlacedAlike(id: Option<Id>, slot: nat, a: Around, b: Around, waiting0: seq<Option<Id>>,
                      current0: Option<Gesture>)
      requires id in a.pending && Placed(id, slot, a.pending[id], a, waiting0, current0)
      requires a.trace == b.trace && (a.pending == b.pending || a.pending == b.pending[id := NewGesture(id)])
      ensures Placed(id, slot, a.pending[id], b, waiting0, current0)
    {
      hide SameSource, Launched, InsertByOrder, Occurs;
    }

    lemma ClearedIsGone(id: Id, before: Around, waiting0: seq<Option<Id>>, current0: Option<Gesture>)
      requires Cleared(id, false, before, waiting0, current0)
      ensures Some(id) !in pending && IdOf(current) != Some(Some(id))
    {
      hide Carried, Launched, Except, AllMeant, Occurs;
    }

    /** What a stop comes to: nothing if it may not be heard, a reset if it is beyond the half ring, and otherwise what
        any packet does. */
    twostate predicate Stops(slot: int, id: Option<Id>, reservation: Option<string>)
      reads this
    {
      && (!old(Allowed(id, reservation)) || !(0 <= slot < CYCLE) ==>
            trace == old(trace) && pending == old(pending) && current == old(current))
      && (old(OutOfWindow(slot, KeyFor(id)) && Allowed(id, reservation) && Allowed(KeyFor(id), reservation)) ==>
            && Happened(ResetCalled, |old(trace)|) && Happened(Reported(WindowExceeded), |old(trace)|)
            && old(KeyFor(id)) !in pending && IdOf(current) != Some(old(KeyFor(id))))
      && (old(!OutOfWindow(slot, KeyFor(id))) ==> Takes(slot, StopGesture, id, reservation))
    }

    /** A stop beyond the half ring ends the gesture at once; any other is pushed like a packet. */
    method Stop(slot: int, id: Option<Id>, reservation: Option<string>)
      requires Valid()
      modifies this
      ensures Valid() && owner == old(owner) && old(trace) <= trace
      ensures old(submitted) <= submitted <= old(submitted) + {(old(KeyFor(id)), slot, StopGesture)}
      ensures Stops(slot, id, reservation)
    {
      hide LimitsOk, PendingOk, WaitingOk, ProtectedOk, SourcesKnown, SeenOk, SubmittedOk, AcceptedOk, TraceOk, Unique,
        CurrentPart, Cleared, Ignored, CarriedOut, MayClear, MeansSome, Retires;
      var key := KeyFor(id);
      if !(0 <= slot < CYCLE) || !Allowed(id, reservation) {
        return;
      }
      if OutOfWindow(slot, key) {
        Abort(key, reservation);
      } else {
        Push(slot, StopGesture, id, reservation);
      }
    }

    /** The current gesture is cleared, with a report. */
    method Abort(key: Option<Id>, reservation: Option<string>)
      requires Valid() && IdOf(current) == Some(key)
      modifies this
      ensures Valid() && owner == old(owner) && old(trace) <= trace && submitted == old(submitted)
      ensures old(Allowed(key, reservation)) ==>
        && Happened(ResetCalled, |old(trace)|) && Happened(Reported(WindowExceeded), |old(trace)|)
        && key !in pending && IdOf(current) != Some(key)
    {
      hide LimitsOk, PendingOk, WaitingOk, ProtectedOk, SourcesKnown, SeenOk, SubmittedOk, AcceptedOk, TraceOk, Unique,
        CurrentPart, Cleared, Ignored, CarriedOut, MayClear, MeansSome, Retires;
      if key.Some? {
        Clear(key.value, reservation, false);
        if Allowed(key, reservation) {
          ClearedIsGone(key.value, old(Here()), old(waiting), old(current));
        }
      } else {
        ClearAll();
      }
      ghost var since, was := |old(trace)|, trace;
      ghost var happened := Happened(ResetCalled, since);
      LastOccurs(was, since, Reported(WindowExceeded));
      Report(WindowExceeded);
      if happened {
        ghost var j :| since <= j < |was| && was[j] == ResetCalled;
        assert trace[j] == ResetCalled;
      }
    }

    predicate OutOfWindow(slot: int, key: Option<Id>)
      reads this`current
    {
      && 0 <= slot < CYCLE && IdOf(current) == Some(key)
      && current.value.next.Some? && current.value.next.value < CYCLE
      && Ahead(slot, current.value.next.value) >= WINDOW
    }
  }
}
