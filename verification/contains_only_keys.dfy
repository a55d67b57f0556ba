/**
  The decision logic of the map assertion "contains only these keys",
  `Maps.assertContainsOnlyKeys(info, actual, keys)`: the map passes when its
  key set is exactly the set of keys in the array, and otherwise the assertion
  fails with one of four distinct outcomes. Map values never matter.
 */
module ContainsOnlyKeys {
  import opened Wrappers

  /** What one call of the assertion ends in. Each failure the assertion can
      raise is a constructor of its own, so that callers can tell them apart. */
  datatype Outcome<K, V> =
    | Pass        // the call returns normally
    | ActualIsNull  // assertion error: the map under test is null
    | KeysNull    // null pointer: the array of keys to look for is null
    | KeysEmpty   // illegal argument: the array of keys to look for is empty
      /** The assertion error payload: the map and the caller's array, both
          untouched, with the expected keys the map lacks and the map's keys
          that were not expected. */
    | Mismatch(actual: map<K, V>, expected: seq<K>, notFound: set<K>, unexpected: set<K>)

  /** The distinct keys of an array; duplicates collapse and order is lost. */
  function Elements<K>(keys: seq<K>): (r: set<K>)
  {
    set k | k in keys
  }

  /** The expected keys the map lacks, gathered by walking the array in order. */
  function NotFound<K(==), V>(actual: map<K, V>, keys: seq<K>): (r: set<K>)
    ensures r == Elements(keys) - actual.Keys
  {
    if |keys| == 0 then {}
    else (if keys[0] in actual then {} else {keys[0]}) + NotFound(actual, keys[1..])
  }

  /** The keys of the map that the array does not mention, found by striking
      each key of the array, in order, off the map's key set. */
  function Unexpected<K(==), V>(actual: map<K, V>, keys: seq<K>): (r: set<K>)
    ensures r == actual.Keys - Elements(keys)
  {
    if |keys| == 0 then actual.Keys
    else Unexpected(actual, keys[1..]) - {keys[0]}
  }

  /** The assertion as a pure function. The map is checked for null before the
      keys are. Each null outcome belongs to exactly one input shape, an empty
      array is rejected only for a non-empty map, and a mismatch carries the
      inputs untouched with the two set differences, at least one non-empty. */
  function Check<K(==), V>(actual: Option<map<K, V>>, keys: Option<seq<K>>): (o: Outcome<K, V>)
    ensures o == ActualIsNull <==> actual.None?
    ensures o == KeysNull <==> actual.Some? && keys.None?
    ensures o == KeysEmpty <==> actual.Some? && keys == Some([]) && |actual.value| > 0
    ensures o.Mismatch? ==>
      && actual == Some(o.actual) && keys == Some(o.expected)
      && o.notFound == Elements(o.expected) - o.actual.Keys
      && o.unexpected == o.actual.Keys - Elements(o.expected)
      && (o.notFound != {} || o.unexpected != {})
  {
    match actual
    case None => ActualIsNull
    case Some(m) =>
      match keys
      case None => KeysNull
      case Some(ks) =>
        if |m| == 0 && |ks| == 0 then Pass
        else if |ks| == 0 then KeysEmpty
        else
          var notFound := NotFound(m, ks);
          var unexpected := Unexpected(m, ks);
          if notFound == {} && unexpected == {} then Pass
          else Mismatch(m, ks, notFound, unexpected)
  }

  /** An imperative rendering of `Check`: one loop over the array gathers the
      missing keys, one loop over the map's keys gathers the unexpected ones. */
  method AssertContainsOnlyKeys<K(==), V>(actual: Option<map<K, V>>, keys: Option<seq<K>>)
    returns (o: Outcome<K, V>)
    ensures o == Check(actual, keys)
  {
    if actual.None? {
      return ActualIsNull;
    }
    var m := actual.value;
    if keys.None? {
      return KeysNull;
    }
    var ks := keys.value;
    if |m| == 0 && |ks| == 0 {
      return Pass;
    }
    if |ks| == 0 {
      return KeysEmpty;
    }

    var notFound: set<K> := {};
    var i := 0;
    while i < |ks|
      invariant 0 <= i <= |ks|
      invariant forall k :: k in notFound <==> k in ks[..i] && k !in m
    {
      if ks[i] !in m {
        notFound := notFound + {ks[i]};
      }
      assert ks[..i + 1] == ks[..i] + [ks[i]];
      i := i + 1;
    }
    assert ks[..i] == ks;
    assert notFound == Elements(ks) - m.Keys;

    var unexpected: set<K> := {};
    var remaining := m.Keys;
    while remaining != {}
      invariant remaining <= m.Keys
      invariant forall k :: k in unexpected <==> k in m.Keys - remaining && k !in ks
      decreases |remaining|
    {
      var k :| k in remaining;
      if k !in ks {
        unexpected := unexpected + {k};
      }
      remaining := remaining - {k};
    }
    assert unexpected == m.Keys - Elements(ks);

    var nf, ue := NotFound(m, ks), Unexpected(m, ks);
    assert notFound == nf && unexpected == ue;
    if notFound == {} && unexpected == {} {
      return Pass;
    }
    return Mismatch(m, ks, notFound, unexpected);
  }

  /** A null map is rejected as such when the keys are a non-empty array. */
  lemma NullActualIsRejected<K, V>(keys: Option<seq<K>>)
    requires keys.Some? && |keys.value| > 0
    ensures Check<K, V>(None, keys) == ActualIsNull
  {
  }

  /** A null array of keys with a non-null map is its own failure, not a mismatch. */
  lemma NullKeysAreRejected<K, V>(m: map<K, V>)
    ensures Check(Some(m), None) == KeysNull
  {
  }

  /** An empty array of keys is rejected exactly when the map is not empty; an
      empty map against an empty array passes. */
  lemma EmptyKeysRejectedOnlyForNonEmptyMap<K, V>(m: map<K, V>)
    ensures Check(Some(m), Some([])) == KeysEmpty <==> |m| > 0
    ensures Check(Some(m), Some([])) == Pass <==> |m| == 0
  {
  }

  /** For a non-null map and a non-null array, the assertion passes exactly
      when the map's key set is the set of keys in the array. */
  lemma PassIffSameKeySet<K, V>(m: map<K, V>, ks: seq<K>)
    ensures Check(Some(m), Some(ks)) == Pass <==> m.Keys == Elements(ks)
  {
  }

  /** A mismatch is reported exactly when the array is non-empty and the key
      sets differ, and its payload is the map, the caller's array unchanged,
      and the two set differences. */
  lemma MismatchIffKeySetsDiffer<K, V>(m: map<K, V>, ks: seq<K>)
    ensures Check(Some(m), Some(ks)).Mismatch? <==> |ks| > 0 && m.Keys != Elements(ks)
    ensures Check(Some(m), Some(ks)).Mismatch? ==>
      Check(Some(m), Some(ks)) == Mismatch(m, ks, Elements(ks) - m.Keys, m.Keys - Elements(ks))
  {
  }

  /** A map holding every expected key plus some others fails with only the
      extra keys reported. */
  lemma OnlyUnexpectedKeys<K, V>(m: map<K, V>, ks: seq<K>)
    requires |ks| > 0 && Elements(ks) < m.Keys
    ensures Check(Some(m), Some(ks)) == Mismatch(m, ks, {}, m.Keys - Elements(ks))
  {
  }

  /** A map whose keys are all expected but which lacks some fails with only
      the missing keys reported. */
  lemma OnlyMissingKeys<K, V>(m: map<K, V>, ks: seq<K>)
    requires m.Keys < Elements(ks)
    ensures Check(Some(m), Some(ks)) == Mismatch(m, ks, Elements(ks) - m.Keys, {})
  {
  }

  /** Missing and extra keys together are reported in one failure. */
  lemma BothDiscrepancies<K, V>(m: map<K, V>, ks: seq<K>)
    requires Elements(ks) - m.Keys != {} && m.Keys - Elements(ks) != {}
    ensures Check(Some(m), Some(ks)) == Mismatch(m, ks, Elements(ks) - m.Keys, m.Keys - Elements(ks))
  {
  }

  /** Two arrays with the same distinct keys, in any order and with any
      duplicates, get the same verdict and the same discrepancy sets; only the
      array carried in a mismatch differs. */
  lemma SameKeysSameVerdict<K, V>(m: map<K, V>, ks1: seq<K>, ks2: seq<K>)
    requires Elements(ks1) == Elements(ks2)
    ensures Check(Some(m), Some(ks1)).Pass? == Check(Some(m), Some(ks2)).Pass?
    ensures Check(Some(m), Some(ks1)).KeysEmpty? == Check(Some(m), Some(ks2)).KeysEmpty?
    ensures Check(Some(m), Some(ks1)).Mismatch? ==>
      Check(Some(m), Some(ks2)) == Check(Some(m), Some(ks1)).(expected := ks2)
  {
  }

  /** Permuting the array changes nothing but the array carried in a mismatch. */
  lemma PermutedKeysSameVerdict<K, V>(m: map<K, V>, ks1: seq<K>, ks2: seq<K>)
    requires multiset(ks1) == multiset(ks2)
    ensures Check(Some(m), Some(ks1)).Pass? == Check(Some(m), Some(ks2)).Pass?
    ensures Check(Some(m), Some(ks1)).Mismatch? ==>
      Check(Some(m), Some(ks2)) == Check(Some(m), Some(ks1)).(expected := ks2)
  {
    assert Elements(ks1) == Elements(ks2) by {
      forall k ensures k in ks1 <==> k in ks2 {
        assert k in ks1 <==> k in multiset(ks1);
        assert k in ks2 <==> k in multiset(ks2);
      }
    }
    SameKeysSameVerdict(m, ks1, ks2);
  }
}
