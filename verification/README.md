# ConfigCat OpenFeature provider — Dafny model

This project models the result translator of the ConfigCat provider for
OpenFeature (PHP). A caller asks the provider to resolve a flag as a
boolean, string, integer, float or object, with a default and an optional
evaluation context. The provider turns the context into a ConfigCat `User`,
asks the ConfigCat client for the flag's evaluation details, and translates
them into OpenFeature resolution details: a value, an optional variant and
an optional error with a code and a message.

The translation has three stages, and the model keeps all three:

1. The type gate. Each resolver checks the runtime type of the client's
   value: `is_bool`, `is_string`, `is_int`, `is_float`, and `is_string` for
   objects, which arrive as JSON text. A mismatch gives the caller's default
   and `TYPE_MISMATCH`. This happens before the client's error is looked at.
2. The error path. A non-null client error message gives the default and
   an error carrying that exact message. The code is `FLAG_NOT_FOUND` when
   the message contains `key was not found in config JSON`, and `GENERAL`
   otherwise.
3. The success path. The value passes through unchanged; object values go
   through `json_decode`. The variation id, when present, becomes the variant.

Files:

- `Wrappers.dfy`: `Option`, for PHP's nullable values.
- `PhpValues.dfy`: the PHP values that cross the boundary (`Value`). Floats
  are an opaque 64-bit pattern.
- `PhpStrings.dfy`: `str_contains` (`StrContains`), proved equal to a
  declarative "occurs at some position" definition.
- `OpenFeature.dfy`: the framework types (`FlagValueType`, `ErrorCode`,
  `ResolutionError`, `Resolution`, `EvaluationContext`).
- `ConfigCatClient.dfy`: `User`, `EvaluationDetails`, and the client as a
  function from a request to its details.
- `ConfigCatProvider.dfy`: the provider. Its specification is
  `ResolvesAs`, which has one case per outcome. The five resolvers and
  `ProduceResolutionDetails` are proved against it; the other translation
  functions carry the contracts it is built from.
- `ProviderScenarios.dfy`: the repository's test scenarios, each stated
  against any client that answers the scenario's request the way the test
  configuration does.

The provider object is immutable after construction: its one field, the
client, is set in the constructor. So the provider is modelled as a
`Provider` datatype holding the client's `getValueDetails` and the
runtime's `json_decode`, both as function values. Everything else is a pure
function.

Some facts about the code that the model keeps:

- `resolveObjectValue` forwards the caller's array default to the client
  (src/ConfigCatProvider.php:125), not a placeholder.
- `contextToUser` passes null for email and country, and the whole
  attribute array as custom attributes (src/ConfigCatProvider.php:146).
- Any non-null error message takes the error path, the empty string
  included (src/ConfigCatProvider.php:158-159).
- No path sets a reason (src/ConfigCatProvider.php:55-59, 160-177).

## Model

| member | source | states |
|---|---|---|
| `PhpStrings.StrContainsIffOccurs` | src/ConfigCatProvider.php:162 | `str_contains(haystack, needle)` holds exactly when the needle occurs at some position of the haystack (both directions; the empty needle occurs everywhere) |
| `ConfigCatProvider.ClassifyError` | src/ConfigCatProvider.php:162-166 | the code is `FLAG_NOT_FOUND` exactly when the message contains the fragment `key was not found in config JSON` (case-sensitive); otherwise it is `GENERAL`; it is never `TYPE_MISMATCH` |
| `ConfigCatProvider.ResolvesAsIsDeterministic` | src/ConfigCatProvider.php:152-178 | every client answer admits at most one resolution under the specification |
| `ConfigCatProvider.ResolvesAsIsTotal` | src/ConfigCatProvider.php:48-178 | every client answer admits at least one resolution under the specification: the gate's outcome or the translated one, so with the lemma above each path ends in exactly one outcome |
| `ConfigCatProvider.ResolutionInvariants` | src/ConfigCatProvider.php:158-177 | an error always comes with the default value and no variant; there is no error exactly when the gate passed and the client reported no error; the variant is present exactly when, in addition, the variation id is non-null, and then equals it |
| `ConfigCatProvider.ExtractObjectValue` | src/ConfigCatProvider.php:203-213 | a string value yields its JSON decoding and no error; any other value yields the default with `TYPE_MISMATCH`; no variant either way |
| `ConfigCatProvider.ExtractValueFromDetails` | src/ConfigCatProvider.php:183-198 | on a value the gate admitted, the boolean, float and integer casts are identities, a string passes through, an object is decoded, and no error or variant is attached |
| `ConfigCatProvider.ProduceResolutionDetails` | src/ConfigCatProvider.php:152-178 | a non-null error message (the empty one included) gives the default, no variant, and the classified error carrying that message; otherwise the extracted value, no error, and the variation id as variant; called with the client's own value, its result meets the specification |
| `ConfigCatProvider.ContextToUser` | src/ConfigCatProvider.php:140-147 | no context gives no user; otherwise the identifier is the targeting key, or `''` when it is missing; email and country are null; the custom attributes are the context's attribute map unchanged |
| `ConfigCatProvider.ContextToUserLosesOnlyMissingKey` | src/ConfigCatProvider.php:146 | two contexts that map to the same user are equal, except that a missing targeting key and an empty one are not told apart |
| `ConfigCatProvider.ResolveBooleanValue` | src/ConfigCatProvider.php:48-63 | the result follows the specification for the client's answer to (key, default, mapped user): gate, then error, then success; the value is always a boolean |
| `ConfigCatProvider.ResolveStringValue` | src/ConfigCatProvider.php:65-81 | as for booleans, with the string gate; the value is always a string |
| `ConfigCatProvider.ResolveIntegerValue` | src/ConfigCatProvider.php:83-99 | as for booleans, with the integer gate; the value is always an integer |
| `ConfigCatProvider.ResolveFloatValue` | src/ConfigCatProvider.php:101-117 | as for booleans, with the float gate; the value is always a float |
| `ConfigCatProvider.ResolveObjectValue` | src/ConfigCatProvider.php:122-138 | the array default itself is forwarded to the client; the client's value must be a string; the result is the default or the JSON decoding of that string |
| `ProviderScenarios.FlagKeyNotFound` | tests/ConfigCatProviderTest.php:135-148 | the client's missing-key message for `non-existing` gives `false`, `FLAG_NOT_FOUND` and that message |
| `ProviderScenarios.FlagTypeMismatch` | tests/ConfigCatProviderTest.php:150-162 | a boolean lookup of the string flag `stringSetting` gives `false` and `TYPE_MISMATCH` without a message or variant |
| `ProviderScenarios.ObjectMissingKeyIsTypeMismatch` | src/ConfigCatProvider.php:125-135 | an object lookup where the client hands back the array default with an error gives `TYPE_MISMATCH`, and the client's message is dropped: the gate is decided before the error |
| `ProviderScenarios.EmptyErrorMessageIsGeneralError` | src/ConfigCatProvider.php:158-168 | an empty but non-null error message still takes the error path, as `GENERAL` with the empty message |
| `ProviderScenarios.ClassificationIsCaseSensitive` | src/ConfigCatProvider.php:162 | the exact fragment classifies as `FLAG_NOT_FOUND`; the same text with a capital `K` classifies as `GENERAL` |
| `ProviderScenarios.ScalarFlagsResolve` | tests/ConfigCatProviderTest.php:60-118 | successful boolean, string, integer and float lookups return the client's value and variation id unchanged |
| `ProviderScenarios.ResolveWithTargeting` | tests/ConfigCatProviderTest.php:120-133 | a targeted lookup forwards the targeting key as the user identifier and returns the targeted value and variant |

## Left out

- The ConfigCat client (configuration fetch, targeting, percentage rollout) is external. It is a function parameter, `Provider.client`, so the model says what is passed to it and what is done with its answer, but not what it answers.
- `json_decode` is a runtime library call. It is a function parameter, `Provider.jsonDecode`. JSON parsing and decode failures are not modelled.
- Reason codes: the provider sets no reason on any path, so the model has none. The tests call the provider directly and expect `DEFAULT` (tests/ConfigCatProviderTest.php:72, 87, 102, 117), `TARGETING_MATCH` (:132) and `ERROR` (:146, 160). The code cannot meet all of them: the successful calls at :67 and :127 both give the builder only a value and a variant (src/ConfigCatProvider.php:171-177), so at least one of the assertions at :72 and :132 must fail. The model follows the code.
- `ConfigCatProvider.ExtractValueFromDetails`: `filter_var`, `(float)` and `(int)` are modelled only on values the type gate already admitted, where they are identities. Their behaviour on other PHP types is not modelled. No resolver reaches it.
- `ConfigCatProvider.ExtractValueFromDetails`: the flag type is a closed enumeration, so the `default` arm of the `match` (any other flag-type string), which returns `TYPE_MISMATCH`, has no counterpart.
- `ConfigCatProvider.ResolveObjectValue`: the value is not proved to be an array. What `json_decode` returns is not modelled, so it can be any PHP value.
- Integers are unbounded: PHP's 64-bit `int` is only passed through, never computed with, so its width does not matter here.
- Floats are opaque bit patterns, because the only operation on them is an identity cast.
- The `DateTime` member of the default-value union is not modelled, because no resolver passes one.
- The constructor (client creation and its `InvalidArgumentException` for a bad SDK key) and `setLogger` (a no-op) are not modelled.
- `src/ConfigCatMetadata.php` (a constant provider name) and `samples/ConfigCatProvider/main.php` (SDK wiring) are not part of this model.
- `ConfigCatClient.Client` and `OpenFeature.EvaluationContext`: the client is a total pure function, so it answers a request the same way for all time, while the real client refreshes its configuration; the attribute map cannot hold `DateTime` values, and it does not keep the order of the PHP array that `toArray()` returns (src/ConfigCatProvider.php:146).
- Strings: PHP strings are byte strings, but the model uses Dafny `string`, a sequence of characters, for flag keys, messages, identifiers and variants. A byte string that is not valid UTF-8 cannot be represented. Error classification is unaffected, because the fragment is ASCII and UTF-8 is self-synchronising.
