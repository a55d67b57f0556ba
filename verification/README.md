# assertContainsOnlyKeys — a Dafny model

This project models the decision logic of AssertJ's map assertion "contains
only these keys", `Maps.assertContainsOnlyKeys(info, actual, keys)`. The
assertion takes a map and an array of expected keys. It passes when the map's key
set is exactly the set of keys in the array. Otherwise it fails with one of
four distinct outcomes:

- the map is null;
- the array is null;
- the array is empty while the map is not;
- the key sets differ. This failure carries the map, the caller's array
  unchanged, the expected keys the map lacks (`notFound`) and the map's keys
  that were not expected (`unexpected`).

The behaviour is taken from the assertion's unit test, which pins it down case
by case. The implementing class is not part of this model.

Files:

- `wrappers.dfy` — `Option`, standing for a Java reference that may be null.
- `contains_only_keys.dfy` — module `ContainsOnlyKeys`:
  - the `Outcome` datatype;
  - the pure decision function `Check`;
  - `AssertContainsOnlyKeys`, an imperative rendering of `Check` with one loop
    over the array and one over the map's keys, proved to agree with `Check`
    on every input;
  - the general lemmas.
- `contains_only_keys_test.dfy` — module `ContainsOnlyKeysTest`: one lemma per
  test method, stated on the test's own maps and arrays.

Java exceptions become `Outcome` constructors:

- the assertion error for a null map becomes `ActualIsNull`;
- the `NullPointerException` becomes `KeysNull`;
- the `IllegalArgumentException` becomes `KeysEmpty`;
- the assertion error with the "should contain only keys" payload becomes
  `Mismatch`.

Modelling choices:

- The map is checked for null before the keys. When the map and the array are
  both null, the outcome is therefore `ActualIsNull`. `Check`'s contract states
  this. No test makes both null, so this is a choice of the model, not tested
  behaviour. The lemma about a null map, `NullActualIsRejected`, claims only
  the tested case: a non-null, non-empty array.
- An empty array is rejected only when the map is non-empty. An empty map
  against an empty array passes (test lines 72-75).
- Duplicate keys in the array collapse: the verdict and the discrepancy sets
  depend only on the set of keys in the array. No test uses a duplicate key,
  so this is a choice of the model, not tested behaviour.

## Model

| member | source | states |
|---|---|---|
| ContainsOnlyKeys.Check | src/test/java/org/assertj/core/internal/maps/Maps_assertContainsOnlyKeys_Test.java:50-116 | a null map and only a null map gives "actual is null" (the map is checked first, a modelling choice, so this includes a null array); a non-null map with a null array and only that gives "keys is null"; an empty array gives "keys is empty" exactly when the map is non-empty; a mismatch carries the map and the caller's array unchanged, the expected keys minus the map's keys and the map's keys minus the expected keys, at least one of them non-empty |
| ContainsOnlyKeys.Unexpected | src/test/java/org/assertj/core/internal/maps/Maps_assertContainsOnlyKeys_Test.java:83-92 | striking each key of the array off the map's key set leaves exactly the map's keys that the array does not mention: the unexpected payload |
| ContainsOnlyKeys.AssertContainsOnlyKeys | src/test/java/org/assertj/core/internal/maps/Maps_assertContainsOnlyKeys_Test.java:50-116 | walking the array for missing keys and the map's keys for extra ones yields, on every input, exactly the outcome `Check` decides |
| ContainsOnlyKeys.NotFound | src/test/java/org/assertj/core/internal/maps/Maps_assertContainsOnlyKeys_Test.java:94-104 | the keys gathered while walking the array are exactly the expected keys minus the map's key set |
| ContainsOnlyKeys.NullActualIsRejected | src/test/java/org/assertj/core/internal/maps/Maps_assertContainsOnlyKeys_Test.java:50-58 | a null map with a non-null, non-empty array fails with the "actual is null" outcome |
| ContainsOnlyKeys.NullKeysAreRejected | src/test/java/org/assertj/core/internal/maps/Maps_assertContainsOnlyKeys_Test.java:60-64 | a null array with any non-null map fails with the distinct "keys is null" outcome, not a mismatch |
| ContainsOnlyKeys.EmptyKeysRejectedOnlyForNonEmptyMap | src/test/java/org/assertj/core/internal/maps/Maps_assertContainsOnlyKeys_Test.java:66-75 | an empty array is rejected as "keys is empty" if and only if the map is non-empty, and passes if and only if the map is empty |
| ContainsOnlyKeys.PassIffSameKeySet | src/test/java/org/assertj/core/internal/maps/Maps_assertContainsOnlyKeys_Test.java:72-81 | for a non-null map and array, the assertion passes if and only if the map's key set equals the set of keys in the array |
| ContainsOnlyKeys.MismatchIffKeySetsDiffer | src/test/java/org/assertj/core/internal/maps/Maps_assertContainsOnlyKeys_Test.java:83-116 | a mismatch is reported if and only if the array is non-empty and the key sets differ, carrying the map, the caller's array unchanged and both set differences |
| ContainsOnlyKeys.OnlyUnexpectedKeys | src/test/java/org/assertj/core/internal/maps/Maps_assertContainsOnlyKeys_Test.java:83-92 | when the map holds every expected key plus others, the failure reports no missing key and exactly the extra keys |
| ContainsOnlyKeys.OnlyMissingKeys | src/test/java/org/assertj/core/internal/maps/Maps_assertContainsOnlyKeys_Test.java:94-104 | when every map key is expected but some expected key is absent, the failure reports exactly the absent keys and no extra key |
| ContainsOnlyKeys.BothDiscrepancies | src/test/java/org/assertj/core/internal/maps/Maps_assertContainsOnlyKeys_Test.java:106-116 | missing and extra keys together are reported in one failure holding both sets |
| ContainsOnlyKeys.SameKeysSameVerdict | src/test/java/org/assertj/core/internal/maps/Maps_assertContainsOnlyKeys_Test.java:77-81 | arrays with the same distinct keys get the same verdict and the same discrepancy sets; only the array carried in a mismatch differs |
| ContainsOnlyKeys.PermutedKeysSameVerdict | src/test/java/org/assertj/core/internal/maps/Maps_assertContainsOnlyKeys_Test.java:77-81 | permuting the array does not change whether the assertion passes, nor the discrepancy sets of a failure |
| ContainsOnlyKeysTest.FailsIfActualIsNull | src/test/java/org/assertj/core/internal/maps/Maps_assertContainsOnlyKeys_Test.java:50-58 | a null map against ["name"] fails with "actual is null" |
| ContainsOnlyKeysTest.FailsIfKeysArrayIsNull | src/test/java/org/assertj/core/internal/maps/Maps_assertContainsOnlyKeys_Test.java:60-64 | the fixture against a null array fails with "keys is null" |
| ContainsOnlyKeysTest.FailsIfKeysArrayIsEmpty | src/test/java/org/assertj/core/internal/maps/Maps_assertContainsOnlyKeys_Test.java:66-70 | the fixture against an empty array fails with "keys is empty" |
| ContainsOnlyKeysTest.PassesIfActualAndKeysAreEmpty | src/test/java/org/assertj/core/internal/maps/Maps_assertContainsOnlyKeys_Test.java:72-75 | an empty map against an empty array passes |
| ContainsOnlyKeysTest.PassesIfActualContainsOnlyExpectedKeys | src/test/java/org/assertj/core/internal/maps/Maps_assertContainsOnlyKeys_Test.java:77-81 | the fixture passes against ["color", "name"] and against ["name", "color"] |
| ContainsOnlyKeysTest.FailsIfActualContainsAnUnexpectedKey | src/test/java/org/assertj/core/internal/maps/Maps_assertContainsOnlyKeys_Test.java:83-92 | the fixture against ["name"] fails with notFound {} and unexpected {"color"} |
| ContainsOnlyKeysTest.FailsIfActualDoesNotContainAllExpectedKeys | src/test/java/org/assertj/core/internal/maps/Maps_assertContainsOnlyKeys_Test.java:94-104 | {name: Yoda} against ["name", "color"] fails with notFound {"color"} and unexpected {} |
| ContainsOnlyKeysTest.FailsIfActualLacksAKeyAndHasAnUnexpectedOne | src/test/java/org/assertj/core/internal/maps/Maps_assertContainsOnlyKeys_Test.java:106-116 | {name: Yoda, job: Jedi} against ["name", "color"] fails with notFound {"color"} and unexpected {"job"} |

## Left out

- The failure reporter the test mocks (`Failures`). The model returns the `Outcome` value the reporter would receive.
- Message rendering: `ShouldContainOnlyKeys`, the "keys to look for is null/empty" messages, the "actual is null" message and the "array of keys" placeholder. These are string formatting in classes that are not part of this model.
- Java exception types. They are distinct `Outcome` constructors instead.
- `AssertionInfo`. It only feeds message rendering and never changes the outcome.
- The `MapsBaseTest` fixture class is not part of this model. Its map {name: Yoda, color: green} is restated as `ContainsOnlyKeysTest.Fixture`.
- Map values. Only keys affect the outcome.
- Null elements inside the array. The test never uses them, and keys are an abstract type with equality.
