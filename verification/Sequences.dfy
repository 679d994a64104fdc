/** Removing one member from a sequence without duplicates. */
module Sequences {

  ghost predicate Unique<T>(s: seq<T>) {
    forall i, j | 0 <= i < j < |s| :: s[i] != s[j]
  }

  function IndexOf<T(==)>(s: seq<T>, k: T): (i: nat)
    requires k in s
    ensures i < |s| && s[i] == k
  {
    if s[0] == k then 0 else 1 + IndexOf(s[1..], k)
  }

  function Cut<T(==)>(s: seq<T>, k: T): seq<T> {
    if k in s then var i := IndexOf(s, k); s[..i] + s[i + 1..] else s
  }

  /** Where the member now at `a` was before the cut. */
  function Before<T(==)>(s: seq<T>, k: T, a: nat): (b: nat)
    requires a < |Cut(s, k)|
    ensures b < |s| && Cut(s, k)[a] == s[b]
    ensures a <= b <= a + 1
  {
    if k in s && a >= IndexOf(s, k) then a + 1 else a
  }

  lemma CutIsUnique<T>(s: seq<T>, k: T)
    requires Unique(s)
    ensures Unique(Cut(s, k)) && k !in Cut(s, k) && |Cut(s, k)| <= |s|
  {
    forall a, b | 0 <= a < b < |Cut(s, k)|
      ensures Cut(s, k)[a] != Cut(s, k)[b]
    {
      assert s[Before(s, k, a)] != s[Before(s, k, b)];
    }
    if k in s {
      var i := IndexOf(s, k);
      forall a | 0 <= a < |Cut(s, k)|
        ensures Cut(s, k)[a] != k
      {
        assert s[i] != s[Before(s, k, a)];
      }
    }
  }

  lemma CutKeepsOthers<T>(s: seq<T>, k: T, j: T)
    requires j != k
    ensures j in Cut(s, k) <==> j in s
  {
    if j in s && k in s {
      var i, at := IndexOf(s, k), IndexOf(s, j);
      assert Cut(s, k)[if at < i then at else at - 1] == j;
    }
    if j in Cut(s, k) {
      var at := IndexOf(Cut(s, k), j);
      assert s[Before(s, k, at)] == j;
    }
  }

  /** The sequence without some members. */
  function Except<T(==)>(s: seq<T>, gone: set<T>): seq<T> {
    if s == [] then [] else if s[0] in gone then Except(s[1..], gone) else [s[0]] + Except(s[1..], gone)
  }

  lemma {:induction false} ExceptMembers<T>(s: seq<T>, gone: set<T>, k: T)
    ensures k in Except(s, gone) <==> k in s && k !in gone
  {
    if s != [] {
      assert s == [s[0]] + s[1..];
      ExceptMembers(s[1..], gone, k);
    }
  }

  lemma {:induction false} ExceptNone<T>(s: seq<T>)
    ensures Except(s, {}) == s
  {
    if s != [] {
      ExceptNone(s[1..]);
    }
  }

  lemma CutOther<T>(x: T, s: seq<T>, k: T)
    requires x != k
    ensures Cut([x] + s, k) == [x] + Cut(s, k)
  {
    var all := [x] + s;
    assert all[0] == x && all[1..] == s && (k in all <==> k in s);
    if k in s {
      var i := IndexOf(s, k);
      assert IndexOf(all, k) == i + 1;
      assert all[..i + 1] == [x] + s[..i] && all[i + 2..] == s[i + 1..];
    }
  }

  /** One more member is cut out. */
  lemma {:induction false} CutExcept<T>(s: seq<T>, gone: set<T>, k: T)
    requires Unique(s)
    ensures Cut(Except(s, gone), k) == Except(s, gone + {k})
  {
    if s != [] {
      TailIsUnique(s);
      CutExcept(s[1..], gone, k);
      if s[0] !in gone {
        if s[0] == k {
          ExceptMembers(s[1..], gone, k);
          assert ([k] + Except(s[1..], gone))[1..] == Except(s[1..], gone);
          ExceptSame(s[1..], gone, k);
        } else {
          CutOther(s[0], Except(s[1..], gone), k);
        }
      }
    }
  }

  lemma {:induction false} ExceptSame<T>(s: seq<T>, gone: set<T>, k: T)
    requires k !in s
    ensures Except(s, gone + {k}) == Except(s, gone)
  {
    if s != [] {
      assert s[0] != k;
      ExceptSame(s[1..], gone, k);
    }
  }

  lemma ConsIsUnique<T>(x: T, s: seq<T>)
    requires Unique(s) && x !in s
    ensures Unique([x] + s)
  {
  }

  lemma TailIsUnique<T>(s: seq<T>)
    requires Unique(s) && s != []
    ensures Unique(s[1..]) && s[0] !in s[1..]
  {
  }
}
