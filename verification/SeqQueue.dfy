/** The circular reorder buffer: handlers are stored by sequence number and run in ring order. */
module SeqQueues {
  import opened Arithmetic
  import opened Wrappers

  /** The state of a queue, as a value. */
  datatype Ring<+H> = Ring(lo: nat, waiting: nat, list: seq<Option<H>>, locked: bool)

  function EmptyRing<H>(size: nat): Ring<H> {
    Ring(0, 0, seq(size, _ => None), true)
  }

  function Opened<H>(ring: Ring<H>, slot: nat): Ring<H> {
    ring.(locked := false, lo := slot + 1)
  }

  function Put<H>(ring: Ring<H>, slot: nat, handler: H): Ring<H>
    requires slot < |ring.list|
  {
    ring.(list := ring.list[slot := Some(handler)], waiting := ring.waiting + 1)
  }

  function Wrapped<H>(ring: Ring<H>): Ring<H> {
    if ring.lo >= |ring.list| then ring.(lo := 0) else ring
  }

  function Advanced<H>(ring: Ring<H>): Ring<H>
    requires ring.lo < |ring.list| && 0 < ring.waiting
  {
    ring.(list := ring.list[ring.lo := None], lo := ring.lo + 1, waiting := ring.waiting - 1)
  }

  /** A queue that is too far behind gives a missing position up, and with it one of the handlers
      it counts as waiting. */
  function GivenUp<H>(ring: Ring<H>): Ring<H>
    requires 0 < ring.waiting
  {
    ring.(lo := ring.lo + 1, waiting := ring.waiting - 1)
  }

  predicate Behind<H>(ring: Ring<H>, maxWaiting: Option<nat>) {
    maxWaiting.Some? && ring.waiting >= maxWaiting.value
  }

  datatype Drain<+H> = Drain(ran: seq<H>, ring: Ring<H>, skips: nat)

  /** What the consuming loop runs, and where it stops. */
  function Drained<H>(ring: Ring<H>, maxWaiting: Option<nat>): Drain<H>
    decreases ring.waiting
  {
    if ring.locked || ring.waiting == 0 then Drain([], ring, 0) else
      var r := Wrapped(ring);
      if r.lo < |r.list| && r.list[r.lo].Some? then
        var rest := Drained(Advanced(r), maxWaiting);
        rest.(ran := [r.list[r.lo].value] + rest.ran)
      else if Behind(r, maxWaiting) then
        var rest := Drained(GivenUp(r), maxWaiting);
        rest.(skips := rest.skips + 1)
      else Drain([], r, 0)
  }

  lemma DrainUnfolds<H>(ring: Ring<H>, maxWaiting: Option<nat>)
    ensures ring.locked || ring.waiting == 0 ==> Drained(ring, maxWaiting) == Drain([], ring, 0)
    ensures !ring.locked && ring.waiting > 0 ==>
      var r, d := Wrapped(ring), Drained(ring, maxWaiting);
      if r.lo < |r.list| && r.list[r.lo].Some? then
        d.ring == Drained(Advanced(r), maxWaiting).ring && d.ran == [r.list[r.lo].value] + Drained(Advanced(r), maxWaiting).ran
      else if Behind(r, maxWaiting) then
        d.ring == Drained(GivenUp(r), maxWaiting).ring && d.ran == Drained(GivenUp(r), maxWaiting).ran
      else d == Drain([], r, 0)
  {
  }

  function Filled<H>(list: seq<Option<H>>): nat {
    if list == [] then 0 else (if list[0].Some? then 1 else 0) + Filled(list[1..])
  }

  lemma {:induction false} FilledUpdate<H>(list: seq<Option<H>>, i: nat, x: Option<H>)
    requires i < |list|
    ensures Filled(list[i := x]) + (if list[i].Some? then 1 else 0) == Filled(list) + if x.Some? then 1 else 0
  {
    if i == 0 {
      assert list[0 := x][1..] == list[1..];
    } else {
      assert list[i := x][1..] == list[1..][i - 1 := x];
      FilledUpdate(list[1..], i - 1, x);
    }
  }

  lemma {:induction false} NoneFilled<H>(list: seq<Option<H>>, i: nat)
    requires Filled(list) == 0 && i < |list|
    ensures list[i].None?
  {
    if i > 0 {
      NoneFilled(list[1..], i - 1);
    }
  }

  /** The next position to run is missing. */
  predicate Stalled<H>(ring: Ring<H>) {
    var r := Wrapped(ring); r.lo < |r.list| ==> r.list[r.lo].None?
  }

  /** Every handler run and every position skipped takes one from the count, so each skip leaves
      one more handler in the list than the queue still counts. */
  lemma {:induction false} SkipsMissCount<H>(ring: Ring<H>, maxWaiting: Option<nat>)
    ensures var d := Drained(ring, maxWaiting);
      && |ring.list| == |d.ring.list|
      && Filled(d.ring.list) + |d.ran| == Filled(ring.list)
      && d.ring.waiting + |d.ran| + d.skips == ring.waiting
    decreases ring.waiting
  {
    if !ring.locked && ring.waiting > 0 {
      var r := Wrapped(ring);
      if r.lo < |r.list| && r.list[r.lo].Some? {
        FilledUpdate(r.list, r.lo, None);
        SkipsMissCount(Advanced(r), maxWaiting);
      } else if Behind(r, maxWaiting) {
        SkipsMissCount(GivenUp(r), maxWaiting);
      }
    }
  }

  lemma {:induction false} StopsWhenMissing<H>(ring: Ring<H>, maxWaiting: Option<nat>)
    requires !ring.locked
    ensures var d := Drained(ring, maxWaiting);
      !d.ring.locked && (d.ring.waiting > 0 ==> Stalled(d.ring) && !Behind(d.ring, maxWaiting))
    decreases ring.waiting
  {
    if ring.waiting > 0 {
      var r := Wrapped(ring);
      if r.lo < |r.list| && r.list[r.lo].Some? {
        StopsWhenMissing(Advanced(r), maxWaiting);
      } else if Behind(r, maxWaiting) {
        StopsWhenMissing(GivenUp(r), maxWaiting);
      }
    }
  }

  /** A queue without a limit never leaves a handler behind that could run. */
  lemma {:induction false} UnlimitedRunsAll<H>(ring: Ring<H>)
    requires !ring.locked && Filled(ring.list) <= ring.waiting
    ensures var d := Drained(ring, None);
      Stalled(d.ring) && Filled(d.ring.list) <= d.ring.waiting && d.skips == 0
  {
    StopsWhenMissing(ring, None);
    SkipsMissCount(ring, None);
    NeverBehind(ring);
    var d := Drained(ring, None);
    var r := Wrapped(d.ring);
    if d.ring.waiting == 0 && r.lo < |r.list| {
      NoneFilled(r.list, r.lo);
    }
  }

  lemma {:induction false} NeverBehind<H>(ring: Ring<H>)
    ensures Drained(ring, None).skips == 0
    decreases ring.waiting
  {
    if !ring.locked && ring.waiting > 0 {
      var r := Wrapped(ring);
      if r.lo < |r.list| && r.list[r.lo].Some? {
        NeverBehind(Advanced(r));
      }
    }
  }

  /** The `j`th handler to run was stored `j` positions after the one the queue stood on. */
  lemma {:induction false} RunsInRingOrder<H>(ring: Ring<H>, j: nat)
    requires ring.lo <= |ring.list| && j < |Drained(ring, None).ran|
    ensures |ring.list| > 0 && ring.list[(ring.lo + j) % |ring.list|] == Some(Drained(ring, None).ran[j])
    decreases ring.waiting
  {
    var r := Wrapped(ring);
    var n := |ring.list|;
    if j == 0 {
      WrapOnce(ring.lo, n);
    } else {
      RunsInRingOrder(Advanced(r), j - 1);
      ShiftByOne(ring.lo, r.lo, j, n);
    }
  }

  lemma WrapOnce(lo: nat, n: nat)
    requires 0 < n && lo <= n
    ensures lo % n == if lo == n then 0 else lo
  {
  }

  lemma ShiftByOne(lo: nat, wrapped: nat, j: nat, n: nat)
    requires 0 < n && lo <= n && wrapped == (if lo == n then 0 else lo) && 0 < j
    ensures (wrapped + 1 + (j - 1)) % n == (lo + j) % n
  {
    if lo == n {
      OneLapFurther(j, n);
    }
  }

  lemma OneLapFurther(j: nat, n: nat)
    requires 0 < n
    ensures (n + j) % n == j % n
  {
    ModPlusMultiple(j, 1, n);
  }

  // ---------------------------------------------------------------- when nothing is skipped

  /** The `j`th position round the ring from where the queue stands. */
  function Position(lo: nat, j: nat, n: nat): (p: nat)
    requires j < n
    ensures p < n
  {
    var start := if lo >= n then 0 else lo;
    if start + j < n then start + j else start + j - n
  }

  /** The next `k` positions, all different, hold handlers. */
  predicate InOrder<H>(ring: Ring<H>, k: nat) {
    k <= |ring.list| && forall j | 0 <= j < k :: ring.list[Position(ring.lo, j, |ring.list|)].Some?
  }

  /** How many of the handlers waiting have to stand in order for the rest not to be too many. */
  function MustBeInOrder(waiting: nat, limit: nat): nat {
    if limit == 0 then waiting else if waiting < limit then 0 else waiting + 1 - limit
  }

  /** Running the first handler leaves the others in order. */
  lemma OneLessInOrder<H>(r: Ring<H>, k: nat)
    requires r.lo < |r.list| && r.list[r.lo].Some? && 0 < r.waiting && 0 < k
    ensures InOrder(r, k) <==> InOrder(Advanced(r), k - 1)
  {
    var n, s := |r.list|, Advanced(r);
    assert Position(r.lo, 0, n) == r.lo && Position(s.lo, n - 1, n) == r.lo;
    assert forall j | 0 <= j < n - 1 :: Position(s.lo, j, n) == Position(r.lo, j + 1, n) != r.lo;
    if InOrder(r, k) {
      forall j | 0 <= j < k - 1
        ensures s.list[Position(s.lo, j, n)].Some?
      {
        assert r.list[Position(r.lo, j + 1, n)].Some?;
      }
    }
    if InOrder(s, k - 1) {
      assert k - 1 <= n - 1;
      forall j | 1 <= j < k
        ensures r.list[Position(r.lo, j, n)].Some?
      {
        assert s.list[Position(s.lo, j - 1, n)].Some?;
      }
    }
  }

  /** Before a missing position no handler stands in order. */
  lemma StartsInOrder<H>(ring: Ring<H>, k: nat)
    ensures InOrder(Wrapped(ring), k) <==> InOrder(ring, k)
    ensures Stalled(ring) ==> (InOrder(ring, k) <==> k == 0)
  {
    var n := |ring.list|;
    assert n > 0 ==> Position(ring.lo, 0, n) == Wrapped(ring).lo;
    assert forall j | 0 <= j < n :: Position(ring.lo, j, n) == Position(Wrapped(ring).lo, j, n);
    if InOrder(ring, k) && k > 0 {
      assert ring.list[Position(ring.lo, 0, n)].Some?;
    }
  }

  /** Nothing is skipped if and only if enough of the handlers waiting stand in order. */
  lemma {:induction false} SkipsNothingIff<H>(ring: Ring<H>, maxWaiting: Option<nat>)
    requires !ring.locked
    ensures Drained(ring, maxWaiting).skips == 0 <==>
      maxWaiting.None? || InOrder(ring, MustBeInOrder(ring.waiting, maxWaiting.value))
    decreases ring.waiting
  {
    hide InOrder;
    var k := if maxWaiting.Some? then MustBeInOrder(ring.waiting, maxWaiting.value) else 0;
    StartsInOrder(ring, k);
    if ring.waiting == 0 {
      assert InOrder(ring, 0) by { NoneInOrder(ring); }
    } else {
      var r := Wrapped(ring);
      if r.lo < |r.list| && r.list[r.lo].Some? {
        SkipsNothingIff(Advanced(r), maxWaiting);
        if k > 0 {
          OneLessInOrder(r, k);
        } else {
          NoneInOrder(ring);
          NoneInOrder(Advanced(r));
        }
      }
    }
  }

  lemma NoneInOrder<H>(ring: Ring<H>)
    ensures InOrder(ring, 0)
  {
  }

  /** The count stays exact if and only if nothing was skipped. */
  lemma ExactUnlessSkipped<H>(ring: Ring<H>, maxWaiting: Option<nat>)
    requires Filled(ring.list) == ring.waiting
    ensures var d := Drained(ring, maxWaiting);
      Filled(d.ring.list) == d.ring.waiting <==> d.skips == 0
  {
    SkipsMissCount(ring, maxWaiting);
  }

  /** A queue whose count is exact keeps it so if and only if, when it has a limit, enough of the
      handlers waiting stand in order. */
  lemma ExactIff<H>(ring: Ring<H>, maxWaiting: Option<nat>)
    requires !ring.locked && Filled(ring.list) == ring.waiting
    ensures var d := Drained(ring, maxWaiting);
      Filled(d.ring.list) == d.ring.waiting <==>
        maxWaiting.None? || InOrder(ring, MustBeInOrder(ring.waiting, maxWaiting.value))
  {
    ExactUnlessSkipped(ring, maxWaiting);
    SkipsNothingIff(ring, maxWaiting);
  }

  /** A handler that is pushed into a free slot keeps the count exact under the same condition. */
  lemma PushIsExactIff<H>(ring: Ring<H>, slot: nat, handler: H, maxWaiting: Option<nat>)
    requires !ring.locked && Filled(ring.list) == ring.waiting && slot < |ring.list| && ring.list[slot].None?
    ensures var d := Drained(Put(ring, slot, handler), maxWaiting);
      Filled(d.ring.list) == d.ring.waiting <==>
        maxWaiting.None? || InOrder(Put(ring, slot, handler), MustBeInOrder(ring.waiting + 1, maxWaiting.value))
  {
    FilledUpdate(ring.list, slot, Some(handler));
    ExactIff(Put(ring, slot, handler), maxWaiting);
  }

  /** Ten positions, at most two waiting: after start(0), push(2) and push(3) the queue gives 1 up
      and runs 2, but leaves 3, which is next, unplayed. */
  lemma SkipStrandsAHandler()
    ensures var ring := Put(Put(Opened(EmptyRing<int>(10), 0), 2, 22), 3, 33);
      var d := Drained(ring, Some(2));
      d.ran == [22] && d.ring.lo == 3 && d.ring.list[3] == Some(33) && d.ring.waiting == 0 && !d.ring.locked
  {
    var ring := Put(Put(Opened(EmptyRing<int>(10), 0), 2, 22), 3, 33);
    var r1 := GivenUp(ring);
    var r2 := Advanced(r1);
    assert ring.lo == 1 && ring.list[1].None? && Behind(ring, Some(2));
    assert r1.list[r1.lo] == Some(22);
    assert Drained(r2, Some(2)) == Drain([], r2, 0);
    assert Drained(r1, Some(2)) == Drain([22], r2, 0);
  }

  class SeqQueue<H> {
    const size: nat
    const maxWaiting: Option<nat>
    var lo: nat
    var waiting: nat
    const list: array<Option<H>>
    var locked: bool

    ghost predicate Valid()
      reads this
    {
      list.Length == size
    }

    ghost function State(): Ring<H>
      reads this, list
    {
      Ring(lo, waiting, list[..], locked)
    }

    constructor (size: nat, maxWaiting: Option<nat>)
      ensures Valid() && fresh(list) && this.size == size && this.maxWaiting == maxWaiting
      ensures State() == EmptyRing(size)
    {
      this.size, this.maxWaiting := size, maxWaiting;
      lo, waiting, locked := 0, 0, true;
      list := new Option<H>[size](_ => None);
    }

    method Start(slot: nat) returns (ran: seq<H>)
      requires Valid()
      modifies this, list
      ensures Valid()
      ensures var d := Drained(Opened(old(State()), slot), maxWaiting); State() == d.ring && ran == d.ran
    {
      locked := false;
      lo := slot + 1;
      ran := MaybeConsume();
    }

    method Stop() returns (ran: seq<H>)
      requires Valid()
      modifies this, list
      ensures Valid() && ran == [] && State() == old(State()).(locked := true)
    {
      locked := true;
      ran := MaybeConsume();
    }

    method Push(slot: nat, handler: H) returns (ran: seq<H>)
      requires Valid()
      modifies this, list
      ensures Valid()
      ensures slot >= size ==> State() == old(State()) && ran == []
      ensures slot < size ==>
        var d := Drained(Put(old(State()), slot, handler), maxWaiting); State() == d.ring && ran == d.ran
    {
      if slot >= size {
        return [];
      }
      list[slot] := Some(handler);
      waiting := waiting + 1;
      ran := MaybeConsume();
    }

    /** The handler in turn leaves the ring. */
    method Take() returns (handler: H)
      requires Valid() && lo < size && list[lo].Some? && waiting > 0
      modifies this, list
      ensures Valid() && State() == Advanced(old(State())) && handler == old(list[lo]).value
    {
      handler := list[lo].value;
      list[lo] := None;
      lo := lo + 1;
      waiting := waiting - 1;
    }

    /** One round of the loop: the handler in turn runs, or its position is given up, or the queue stops. */
    method ConsumeOne() returns (ran: seq<H>, stop: bool)
      requires Valid() && !locked && waiting > 0
      modifies this, list
      ensures Valid()
      ensures var r := Wrapped(old(State()));
        if r.lo < |r.list| && r.list[r.lo].Some? then State() == Advanced(r) && ran == [r.list[r.lo].value] && !stop
        else if Behind(r, maxWaiting) then State() == GivenUp(r) && ran == [] && !stop
        else State() == r && ran == [] && stop
    {
      if lo >= size {
        lo := 0;
      }
      ran, stop := [], false;
      if lo < size && list[lo].Some? {
        var handler := Take();
        ran := [handler];
      } else if maxWaiting.Some? && waiting >= maxWaiting.value {
        lo := lo + 1;
        waiting := waiting - 1;
      } else {
        stop := true;
      }
    }

    method MaybeConsume() returns (ran: seq<H>)
      requires Valid()
      modifies this, list
      ensures Valid()
      ensures var d := Drained(old(State()), maxWaiting); State() == d.ring && ran == d.ran
    {
      hide Drained;
      DrainUnfolds(State(), maxWaiting);
      ran := [];
      if locked {
        return;
      }
      ghost var whole := Drained(State(), maxWaiting);
      while waiting != 0
        invariant Valid() && !State().locked
        invariant Drained(State(), maxWaiting).ring == whole.ring
        invariant ran + Drained(State(), maxWaiting).ran == whole.ran
        decreases State().waiting
      {
        DrainUnfolds(State(), maxWaiting);
        var more, stop := ConsumeOne();
        ran := ran + more;
        if stop {
          break;
        }
      }
      DrainUnfolds(State(), maxWaiting);
    }
  }
}
