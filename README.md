# Playground custom models: provider codec and record filter

This project models the logic that exposes user-created ("custom") generative-model
records through the `playgroundModels` query.

- **Provider codec.** `ProviderCodec` covers the closed enumeration of seven external
  provider keys (OPENAI, ANTHROPIC, AZURE_OPENAI, GOOGLE, DEEPSEEK, XAI, AWS) and the
  lower-case slug stored on each record. `Encode` maps a key to its slug and is total.
  `Decode` maps a string back to a key by exact, case-sensitive comparison and returns
  `None` for anything else. The table is not a case transform: AZURE_OPENAI is stored
  as `"azure"`.
- **Record filter.** `PlaygroundModels` models the rest of the query.
  `Query` is the storage read. It keeps the eligible records (not built-in, not
  soft-deleted). When a selector is given, it also requires the stored provider to equal
  the selector's slug exactly.
  `ConvertRows` is the accumulating loop. It decodes each row, drops rows that do not
  decode, and appends `(name, providerKey)` for the rest. `Resolved` is the function
  that specifies it. `Listed` is the whole query, and `ListPlaygroundModels` computes it.
- **Scenarios.** `Scenarios` holds the verification script's four sample rows and the
  unit tests' fixture records as constants, with what the model lists for each.

Notes on the modelled code:
- The key enumeration has seven members. OLLAMA is not one of them, even though the
  field-structure test accepts the name `"OLLAMA"`. No key is named OLLAMA, so it is
  never listed (`Scenarios.KeyNamesAreValid`).
- The codec is a chain of comparisons.
- Provider matching is exact and case-sensitive.

The script's sample rows carry no built-in or deleted flags. They are modelled as custom,
live records. Eligibility comes from the unit tests.

## Model

| member | source | states |
|---|---|---|
| `ProviderCodec.Name` | verify_filter_fix.py:18-36 | a key's symbolic name, used for equality and in responses, is a non-empty upper-case identifier |
| `ProviderCodec.NameInjective` | verify_filter_fix.py:24-25 | keys are equal exactly when their names are equal, so datatype equality is the source's name comparison |
| `ProviderCodec.Encode` | verify_filter_fix.py:39-55 | every key is mapped to one of the seven recognised slugs, and that slug is a non-empty lower-case word; there is no failure path |
| `ProviderCodec.Decode` | verify_filter_fix.py:58-74 | a key is returned exactly when the string is one of the seven slugs; every other string gives `None` |
| `ProviderCodec.EncodeInjective` | verify_filter_fix.py:39-55 | two keys share a slug only if they are the same key |
| `ProviderCodec.AzureIsNotACaseTransform` | verify_filter_fix.py:45-46 | AZURE_OPENAI is stored as `"azure"`, which is not its name in lower case |
| `ProviderCodec.DecodeEncode` | verify_filter_fix.py:39-74 | round trip: decoding a key's slug gives back that key |
| `ProviderCodec.EncodeDecode` | verify_filter_fix.py:58-74 | converse round trip: a string decodes to `k` if and only if it is exactly `k`'s slug |
| `ProviderCodec.DecodeDefinedOnImage` | verify_filter_fix.py:58-74 | a string decodes if and only if it is the slug of some key |
| `ProviderCodec.UpperCaseNeverDecodes` | verify_filter_fix.py:58-74 | no upper-case identifier decodes, so no key's own name (such as `"OPENAI"`) is a valid stored provider |
| `ProviderCodec.MalformedSlugsDoNotDecode` | verify_filter_fix.py:58-74 | `""`, `"OPENAI"`, `"AZURE_OPENAI"`, `"azure_openai"`, `"INVALID_PROVIDER"` and `"ollama"` all decode to `None` |
| `PlaygroundModels.Eligible` | tests/unit/server/api/test_playground_models.py:45-60 | the eligibility rule: a record may be exposed only if it is not built-in and not soft-deleted |
| `PlaygroundModels.MatchesQuery` | verify_filter_fix.py:124-127 | a record matching the storage predicate is eligible and, with a selector, its stored provider decodes to exactly that selector |
| `PlaygroundModels.Query` | verify_filter_fix.py:124-127 | the storage read never returns more rows than there are records |
| `PlaygroundModels.QueryMembership` | verify_filter_fix.py:124-127 | a record is read if and only if it is stored, eligible and, when a selector is given, stores exactly the selector's slug |
| `PlaygroundModels.QueryAppend` | verify_filter_fix.py:124-127 | the storage read keeps storage order: reading a concatenation concatenates the reads |
| `PlaygroundModels.Resolve` | verify_filter_fix.py:135-140 | a row yields an entry exactly when its provider is a recognised slug; the entry keeps the row's name, and its key's slug is the row's provider |
| `PlaygroundModels.Resolved` | verify_filter_fix.py:133-140 | converting rows never yields more entries than there are rows |
| `PlaygroundModels.ResolvedMembership` | verify_filter_fix.py:133-140 | an entry is produced if and only if some row decodes to it; rows that do not decode produce nothing |
| `PlaygroundModels.ResolvedAppend` | verify_filter_fix.py:133-140 | entries come out in row order: resolving a concatenation concatenates the results |
| `PlaygroundModels.ConvertRows` | verify_filter_fix.py:133-140 | the loop that appends one entry per decodable row returns exactly `Resolved(rows)` |
| `PlaygroundModels.Listed` | verify_filter_fix.py:120-140 | the whole query's response never holds more entries than there are stored records |
| `PlaygroundModels.ListPlaygroundModels` | verify_filter_fix.py:120-140 | reading the rows and converting them returns exactly the response `Listed(records, selector)` |
| `PlaygroundModels.ListedBounds` | verify_filter_fix.py:124-140 | the response is no longer than the rows read, and those are no more than the records |
| `PlaygroundModels.ListedMembership` | verify_filter_fix.py:120-140 | `(n, k)` is listed if and only if the selector is absent or equals `k`, and some eligible record named `n` stores exactly `k`'s slug |
| `PlaygroundModels.SelectorRespected` | tests/unit/server/api/test_playground_models.py:160-162 | with a selector, every listed entry carries that selector as its key |
| `PlaygroundModels.ListedAppend` | verify_filter_fix.py:124-140 | the response is built record by record in storage order: the response for `a + b` is the response for `a` followed by that for `b` |
| `PlaygroundModels.ListedSingleton` | verify_filter_fix.py:124-140 | a single record contributes its `(name, decoded key)` if it matches the query and decodes, and nothing otherwise |
| `PlaygroundModels.ExcludedRecordContributesNothing` | tests/unit/server/api/test_playground_models.py:45-60 | adding a built-in, soft-deleted, non-matching or undecodable record anywhere in storage leaves the response unchanged |
| `PlaygroundModels.NoEligibleRecordsListNothing` | tests/unit/server/api/test_playground_models.py:201-220 | when no record is eligible the response is empty, whatever the selector |
| `PlaygroundModels.UndecodableRecordsListNothing` | tests/unit/server/api/test_playground_models.py:222-288 | when no record's provider decodes the response is empty, whatever the selector |
| `Scenarios.SampleOpenAI` | verify_filter_fix.py:77-95 | selector OPENAI over the four sample rows lists exactly gpt-4o-custom and gpt-4-turbo-custom, in that order; as a set of names it is the expected set |
| `Scenarios.SampleAnthropic` | verify_filter_fix.py:96-100 | selector ANTHROPIC over the sample rows lists exactly claude-3-5-sonnet-custom |
| `Scenarios.SampleDeepSeek` | verify_filter_fix.py:101-105 | selector DEEPSEEK over the sample rows lists exactly deepseek-coder |
| `Scenarios.FixtureAsWrittenListsNothing` | tests/unit/server/api/test_playground_models.py:19-60 | the fixture as written stores upper-case providers, and under the codec it lists nothing for any selector (see Findings) |
| `Scenarios.FixtureRetiredIgnored` | tests/unit/server/api/test_playground_models.py:45-60 | the built-in and soft-deleted fixture records never change the response |
| `Scenarios.FixtureCustomListed` | tests/unit/server/api/test_playground_models.py:23-43 | the three custom fixture records, stored with lower-case slugs, are all listed in order |
| `Scenarios.FixtureReturnsOnlyCustomModels` | tests/unit/server/api/test_playground_models.py:97-129 | with no selector the fixture lists exactly the three custom, live models, and never gpt-4-builtin or gpt-4-deleted |
| `Scenarios.FixtureFilterByOpenAI` | tests/unit/server/api/test_playground_models.py:131-164 | selector OPENAI lists exactly the two OpenAI custom models, each with key OPENAI |
| `Scenarios.FixtureFilterByAnthropic` | tests/unit/server/api/test_playground_models.py:166-199 | selector ANTHROPIC lists exactly the Anthropic custom model, with key ANTHROPIC |
| `Scenarios.EmptyStoreListsNothing` | tests/unit/server/api/test_playground_models.py:201-220 | an empty store lists nothing, for any selector |
| `Scenarios.EmptyProviderExcluded` | tests/unit/server/api/test_playground_models.py:222-254 | a custom record with an empty provider is silently left out |
| `Scenarios.InvalidProviderExcluded` | tests/unit/server/api/test_playground_models.py:256-288 | a custom record with provider `"INVALID_PROVIDER"` is silently left out |
| `Scenarios.KeyNamesAreValid` | tests/unit/server/api/test_playground_models.py:317-328 | every key's name, and so every listed key's name, is one of the names the test accepts, and it is never `"OLLAMA"` |

## Left out

- Console output, the loop over scenarios and the `all_passed` bookkeeping of the verification script: these only report results. The three scenarios are lemmas instead.
- Display labels of the keys ("OpenAI", "Azure OpenAI", ...) and `__repr__`: filtering never reads them. Keys are compared by name, which is datatype equality here.
- The `OpenInferenceLLMProviderValues` mock objects: modelled as string constants.
- Encode's final `return None`: no member of the closed enumeration reaches it, so `Encode` is total.
- The `if provider_key:` test: a key object is always truthy, so it is modelled as "decoding succeeded".
- The GraphQL client, async database sessions, inserts and commits: the store is a sequence of records and the fixtures are constant sequences. The fixture's step-by-step `add`/`commit` is not modelled as state. Storage failures, which the query would pass on unchanged, are not modelled.
- Token-price rows with floating-point rates, `name_pattern` regular expressions and timestamps: none of them affect the name/providerKey result. `deleted_at` is reduced to a boolean.
- The `isinstance` checks of the field-structure test: the types of `name` and `providerKey` are fixed by the datatype.
- Idempotence of the query: `Listed` is a function of the stored records and the selector, so repeated calls are equal by construction. No separate lemma is stated.

## Findings

| source | as written | input that shows it | evidently intended | confidence | as-written member | corrected member |
|---|---|---|---|---|---|---|
| tests/unit/server/api/test_playground_models.py:26 | the fixture stores providers in upper case (`"OPENAI"`, `"ANTHROPIC"`), but the codec decodes only the lower-case slugs | the five fixture records: no selector lists nothing and OPENAI lists nothing, while the tests expect 3 and 2 entries | the fixture stores `"openai"` and `"anthropic"`, as the sample rows of the verification script do | not executed; medium, because the deployed resolver may differ from the modelled codec | `Scenarios.FixtureAsWrittenListsNothing` | `Scenarios.FixtureReturnsOnlyCustomModels` |
