/** The sizes of maps that lose or gain a key. */
module MapSize {

  lemma OneFewer<K, V>(m: map<K, V>, k: K)
    ensures |m - {k}| == if k in m then |m| - 1 else |m|
  {
    assert (m - {k}).Keys == m.Keys - {k};
    assert |m.Keys| == |m| && |(m - {k}).Keys| == |m - {k}|;
  }

  lemma AnotherKey<K, V>(m: map<K, V>, k: K)
    requires |m| > 1
    ensures exists j :: j in m && j != k
  {
    assert |m.Keys| == |m|;
    var others := m.Keys - {k};
    assert m.Keys == others || m.Keys == others + {k};
    assert |others| > 0;
    var j :| j in others;
  }
}
