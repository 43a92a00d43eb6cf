/** Facts about finite maps that several tables need. */
module Maps {

  lemma SizeOfUpdate<K, V>(m: map<K, V>, k: K, v: V)
    ensures |m[k := v]| == |m| + (if k in m then 0 else 1)
  {
    assert m[k := v].Keys == m.Keys + {k};
    assert |m[k := v]| == |m[k := v].Keys| && |m| == |m.Keys|;
  }

  lemma SizeOfRemoval<K, V>(m: map<K, V>, ks: set<K>)
    requires ks <= m.Keys
    ensures |m - ks| == |m| - |ks|
  {
    assert (m - ks).Keys == m.Keys - ks;
    assert |m - ks| == |(m - ks).Keys| && |m| == |m.Keys|;
  }

  lemma RemoveOneMore<K, V>(m: map<K, V>, ks: set<K>, k: K)
    ensures m - ks - {k} == m - (ks + {k})
  {
  }

  lemma KeyOf<K, V>(m: map<K, V>, v: V) returns (k: K)
    requires v in m.Values
    ensures k in m && m[k] == v
  {
    k :| k in m && m[k] == v;
  }

  /** The next key of a Go range loop over a map: any one that has not been visited. */
  method AnyOf<K(==)>(todo: set<K>) returns (k: K)
    requires todo != {}
    ensures k in todo
  {
    k :| k in todo;
  }
}
