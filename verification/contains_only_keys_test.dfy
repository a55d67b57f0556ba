/**
  The cases of the unit test of `Maps.assertContainsOnlyKeys`, one lemma per
  test method, stated against the model.
 */
module ContainsOnlyKeysTest {
  import opened Wrappers
  import opened ContainsOnlyKeys

  /** The shared fixture map of the test class: {name: Yoda, color: green}. */
  const Fixture: map<string, string> := map["name" := "Yoda", "color" := "green"]

  /** A null map with the keys ["name"] fails with "actual is null". */
  lemma FailsIfActualIsNull()
    ensures Check<string, string>(None, Some(["name"])) == ActualIsNull
  {
  }

  /** A null array of keys fails with "keys to look for is null". */
  lemma FailsIfKeysArrayIsNull()
    ensures Check(Some(Fixture), None) == KeysNull
  {
  }

  /** An empty array of keys against the non-empty fixture fails with "keys
      to look for is empty". */
  lemma FailsIfKeysArrayIsEmpty()
    ensures Check(Some(Fixture), Some([])) == KeysEmpty
  {
  }

  /** An empty map against an empty array of keys passes. */
  lemma PassesIfActualAndKeysAreEmpty()
    ensures Check<string, string>(Some(map[]), Some([])) == Pass
  {
  }

  /** The fixture passes against its own two keys, in either order. */
  lemma PassesIfActualContainsOnlyExpectedKeys()
    ensures Check(Some(Fixture), Some(["color", "name"])) == Pass
    ensures Check(Some(Fixture), Some(["name", "color"])) == Pass
  {
  }

  /** The fixture against ["name"] reports "color" as unexpected and nothing
      as missing. */
  lemma FailsIfActualContainsAnUnexpectedKey()
    ensures Check(Some(Fixture), Some(["name"])) == Mismatch(Fixture, ["name"], {}, {"color"})
  {
    assert Elements(["name"]) == {"name"};
    assert Fixture.Keys == {"name", "color"};
    assert "color" != "name" by { assert "color"[0] != "name"[0]; }
    OnlyUnexpectedKeys(Fixture, ["name"]);
  }

  /** {name: Yoda} against ["name", "color"] reports "color" as missing and
      nothing as unexpected. */
  lemma FailsIfActualDoesNotContainAllExpectedKeys()
    ensures var underTest := map["name" := "Yoda"];
      Check(Some(underTest), Some(["name", "color"]))
        == Mismatch(underTest, ["name", "color"], {"color"}, {})
  {
    var underTest := map["name" := "Yoda"];
    assert Elements(["name", "color"]) == {"name", "color"};
    assert "color" != "name" by { assert "color"[0] != "name"[0]; }
    assert underTest.Keys == {"name"};
    assert Elements(["name", "color"]) - underTest.Keys == {"color"};
    OnlyMissingKeys(underTest, ["name", "color"]);
  }

  /** {name: Yoda, job: Jedi} against ["name", "color"] reports "color" as
      missing and "job" as unexpected, in one failure. */
  lemma FailsIfActualLacksAKeyAndHasAnUnexpectedOne()
    ensures var underTest := map["name" := "Yoda", "job" := "Jedi"];
      Check(Some(underTest), Some(["name", "color"]))
        == Mismatch(underTest, ["name", "color"], {"color"}, {"job"})
  {
    var underTest := map["name" := "Yoda", "job" := "Jedi"];
    assert Elements(["name", "color"]) == {"name", "color"};
    assert "color" != "name" by { assert "color"[0] != "name"[0]; }
    assert "job" != "name" && "job" != "color" by { assert "job"[0] != "name"[0] && "job"[0] != "color"[0]; }
    assert underTest.Keys == {"name", "job"};
    assert Elements(["name", "color"]) - underTest.Keys == {"color"};
    assert underTest.Keys - Elements(["name", "color"]) == {"job"};
    BothDiscrepancies(underTest, ["name", "color"]);
  }
}
