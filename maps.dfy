/** Facts about Dafny maps used by the identifier table. */
module Maps {

  /** Adding a new key keeps every value already in the map. */
  lemma ValuesGrowByNewKey<K, V>(m: map<K, V>, k: K, v: V)
    requires k !in m
    ensures m.Values <= m[k := v].Values
  {
    forall b | b in m.Values ensures b in m[k := v].Values {
      var q :| q in m && m[q] == b;
      assert m[k := v][q] == b;
    }
  }
}
