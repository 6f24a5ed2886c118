/** Collections of lock keys. */
module LockKeys {
  import opened Redis
  import opened Scripts

  datatype Verdict = Fine | Empty | DuplicateKey(key: Key)

  /** Succeeds on nonempty lists of distinct keys; otherwise it names the first repetition. */
  method Validate(keys: seq<Key>) returns (v: Verdict)
    ensures v.Fine? <==> keys != [] && Distinct(keys)
    ensures v.Empty? <==> keys == []
    ensures v.DuplicateKey? ==>
              exists j :: 0 <= j < |keys| && keys[j] == v.key && v.key in keys[..j] && Distinct(keys[..j])
  {
    if |keys| == 0 {
      return Empty;
    }
    var unique: set<Key> := {};
    for i := 0 to |keys|
      invariant unique == set k | k in keys[..i]
      invariant Distinct(keys[..i])
    {
      if keys[i] in unique {
        var j :| 0 <= j < i && keys[..i][j] == keys[i];
        assert keys[j] == keys[i];
        return DuplicateKey(keys[i]);
      }
      assert keys[..i + 1] == keys[..i] + [keys[i]];
      unique := unique + {keys[i]};
    }
    assert keys[..|keys|] == keys;
    v := Fine;
  }
}
