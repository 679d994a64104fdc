/** Sequence numbers modulo CYCLE as positions near an absolute index. */
module TouchRing {
  import opened Wrappers
  import opened TouchMonitor

  /** The sequence number an absolute index is sent as. (The modulus is CYCLE, written out so that
      the verifier sees a literal divisor.) */
  function SlotOf(i: nat): (slot: nat)
    ensures slot < CYCLE
  {
    i % 100
  }

  lemma SlotOfSmall(i: nat)
    requires i < CYCLE
    ensures SlotOf(i) == i
  {
  }

  lemma SlotOfCycle()
    ensures SlotOf(CYCLE) == 0
  {
  }

  /** How far `slot` lies ahead of `next`, going round the ring. */
  function Ahead(slot: nat, next: nat): (d: nat)
    requires slot < CYCLE && next < CYCLE
    ensures d == if next <= slot then slot - next else slot + CYCLE - next
  {
    (slot - next + 100) % 100
  }

  /** The absolute index at or after `base` that is sent as `slot`. */
  function Index(base: nat, slot: nat): nat
    requires slot < CYCLE
  {
    base + Ahead(slot, SlotOf(base))
  }

  /** The half-ring test is exact for every packet at most 50 behind or less than 50 ahead. */
  lemma RingTestIsExact(base: nat, i: nat)
    requires base <= i + WINDOW && i < base + WINDOW
    ensures Ahead(SlotOf(i), SlotOf(base)) < WINDOW <==> base <= i
    ensures base <= i ==> Index(base, SlotOf(i)) == i
  {
    var d := i - base;
    assert i == base + d;
  }

  lemma IndexOfNext(base: nat)
    ensures Index(base, SlotOf(base)) == base
    ensures SlotOf(base + 1) == SlotOf(SlotOf(base) + 1)
  {
  }

  lemma IndexIsSentAs(base: nat, slot: nat)
    requires slot < CYCLE
    ensures SlotOf(Index(base, slot)) == slot
    ensures Index(base, slot) >= base
    ensures Index(base, slot) == base <==> slot == SlotOf(base)
  {
  }

  lemma IndexAfterNext(base: nat, slot: nat)
    requires slot < CYCLE && slot != SlotOf(base)
    ensures Index(base + 1, slot) == Index(base, slot)
  {
    IndexOfNext(base);
  }

  lemma IndexAhead(base: nat, d: nat)
    requires d < CYCLE
    ensures Index(base, SlotOf(base + d)) == base + d
  {
  }

  lemma SlotOfSum(base: nat, d: nat)
    ensures SlotOf(SlotOf(base) + d) == SlotOf(base + d)
  {
  }

  /** The positions 1 to n after `base`, round the ring. */
  function Following(base: nat, n: nat): set<nat> {
    if n == 0 then {} else Following(base, n - 1) + {SlotOf(base + n)}
  }

  lemma FollowingIsSmall(base: nat, n: nat)
    ensures |Following(base, n)| <= n
  {
  }

  lemma FollowingHolds(base: nat, n: nat, i: nat)
    requires base < i <= base + n
    ensures SlotOf(i) in Following(base, n)
  {
  }

  lemma SubsetIsSmaller<T>(a: set<T>, b: set<T>)
    requires a <= b
    ensures |a| <= |b|
  {
    if a != {} {
      var x :| x in a;
      SubsetIsSmaller(a - {x}, b - {x});
    }
  }

  /** A set of positions strictly inside the half ring after `base` has at most 49 members. */
  lemma HalfRingIsSmall(base: nat, positions: set<nat>)
    requires forall s | s in positions :: s < CYCLE && base < Index(base, s) < base + WINDOW
    ensures |positions| <= WINDOW - 1
  {
    forall s | s in positions
      ensures s in Following(base, WINDOW - 1)
    {
      IndexIsSentAs(base, s);
      FollowingHolds(base, WINDOW - 1, Index(base, s));
    }
    FollowingIsSmall(base, WINDOW - 1);
    SubsetIsSmaller(positions, Following(base, WINDOW - 1));
  }
}
