# Caching breed fetcher — a Dafny model

The `dogapi` package answers one question: given the name of a dog breed,
what are its sub-breeds? `CachingBreedFetcher` wraps another fetcher and
puts a cache in front of it, which it never evicts from:

- a null or blank name is rejected with a `BreedNotFoundException("breed")`.
  Nothing is counted and the wrapped fetcher is not asked;
- otherwise the name is turned into a key by trimming it and lower-casing it.
  If the key is cached, the cached list is returned;
- otherwise the call is counted and the wrapped fetcher is asked with the
  name exactly as given. A successful answer is copied, cached under the key
  and returned. A failure passes through to the caller and is not cached, so
  asking for the same unknown breed again reaches the wrapped fetcher again;
- `getCallsMade()` reports how many lookups reached the wrapped fetcher.

The project has five files:

- `wrappers.dfy` holds `Option` (a possibly-null reference) and `Result`. A
  `BreedNotFound` result stands for the exception.
- `breed_names.dfy` models `String.trim()`, `String.isEmpty()` after trimming
  ("blank") and `toLowerCase(Locale.ROOT)` on breed names. It proves what
  these promise: trimming and normalising are idempotent, case and padding do
  not matter, and a name normalises to the empty string exactly when it is
  blank.
- `cache_model.dfy` describes one lookup as the function `Lookup` on values:
  a state (the cache and the counter), a possibly-null name and the wrapped
  fetcher's answer. `Run` folds `Lookup` over a sequence of names. The lemmas
  cover the cache's key invariant, that entries are never replaced, that
  successes are fetched once per key, that failures are fetched every time,
  and the exact counter value after any sequence of lookups against a
  wrapped fetcher that always succeeds.
- `dogapi.dfy` has the mutable classes. `CachingBreedFetcher` holds the cache
  and the counter as fields, and its `GetSubBreeds` is proved to move between
  states exactly as `Lookup` says. The wrapped `BreedFetcher` interface is a
  class whose answer is an arbitrary function of the requests it has already
  received and of the name. This covers any implementation whose only
  effect is its answer, including a remote service whose data changes over
  time. It also records what it was
  asked, so the contract can say that the name is passed on unchanged.
- `scenarios.dfy` holds small clients that exercise the model from
  outside: two spellings of one breed, an unknown breed asked for twice,
  blank and null names, and a caller building a new list from a returned
  one.

`trim()` strips every character up to U+0020, control characters
included, not only spaces, and `Trim` strips exactly those.

## Model

| member | source | states |
|---|---|---|
| BreedNames.StartFrom | src/main/java/dogapi/CachingBreedFetcher.java:49 | The first position at or after `i` that `trim()` keeps: every character before it (from `i`) is at most U+0020, and the character at it is not. |
| BreedNames.EndFrom | src/main/java/dogapi/CachingBreedFetcher.java:49 | The end of the part `trim()` keeps: every character from it up to `len` is at most U+0020, and the one just before it is not (unless the kept part is empty). |
| BreedNames.Trim | src/main/java/dogapi/CachingBreedFetcher.java:26-49 | `String.trim()` never lengthens a name, and its result has no strippable character at either end. `TrimSplit` and `TrimOfPadded` pin it down fully. |
| BreedNames.IsBlank | src/main/java/dogapi/CachingBreedFetcher.java:26 | `breed.trim().isEmpty()`. Its meaning is proved in `BlankIffAllTrimmable` (every character is at most U+0020) and in `NormalizedEmptyIffBlank` (the key is empty). |
| BreedNames.Normalized | src/main/java/dogapi/CachingBreedFetcher.java:45-50 | The cache key never lengthens a name and is itself trimmed. Its other properties are proved in `NormalizedIdempotent`, `NormalizedEmptyIffBlank`, `NormalizedIgnoresCase`, `NormalizedIgnoresPadding` and `TrimToLowerCommute`. |
| BreedNames.LowerChar | src/main/java/dogapi/CachingBreedFetcher.java:49 | A lower-cased character is never an upper-case ASCII letter, and only upper-case letters are changed. |
| BreedNames.TrimSplit | src/main/java/dogapi/CachingBreedFetcher.java:26 | Any string is leading padding, then `Trim(s)`, then trailing padding. Both paddings consist only of characters `trim()` strips. |
| BreedNames.ToLower | src/main/java/dogapi/CachingBreedFetcher.java:49 | Lower-casing keeps the length and maps each character on its own (A-Z to a-z, everything else unchanged). |
| BreedNames.BlankIffAllTrimmable | src/main/java/dogapi/CachingBreedFetcher.java:26 | `breed.trim().isEmpty()` holds exactly when every character of the name is at most U+0020. |
| BreedNames.TrimOfPadded | src/main/java/dogapi/CachingBreedFetcher.java:49 | Trimming a trimmed string surrounded by strippable padding gives back that string. Together with `TrimSplit`, this pins `Trim` down uniquely. |
| BreedNames.TrimOfTrimmed | src/main/java/dogapi/CachingBreedFetcher.java:49 | A string with no strippable character at either end is its own trim. |
| BreedNames.TrimIdempotent | src/main/java/dogapi/CachingBreedFetcher.java:49 | Trimming twice is the same as trimming once. |
| BreedNames.ToLowerIdempotent | src/main/java/dogapi/CachingBreedFetcher.java:49 | Lower-casing twice is the same as lower-casing once. |
| BreedNames.ToLowerKeepsTrimmable | src/main/java/dogapi/CachingBreedFetcher.java:49 | Lower-casing neither adds nor removes strippable characters: a string is all padding, or is trimmed, exactly when its lower-cased form is. |
| BreedNames.ToLowerConcat | src/main/java/dogapi/CachingBreedFetcher.java:49 | Lower-casing distributes over concatenation. |
| BreedNames.NormalizedIdempotent | src/main/java/dogapi/CachingBreedFetcher.java:45-50 | A cache key is a fixed point of `normalized`: normalising a normalised name changes nothing. |
| BreedNames.NormalizedOfKey | src/main/java/dogapi/CachingBreedFetcher.java:45-50 | A trimmed name with no upper-case letter is already its own key. |
| BreedNames.NormalizedEmptyIffBlank | src/main/java/dogapi/CachingBreedFetcher.java:26-30 | A name's key is empty exactly when the blank check at line 26 rejects the name, so every key that reaches the cache is non-empty. |
| BreedNames.TrimToLowerCommute | src/main/java/dogapi/CachingBreedFetcher.java:49 | Trimming then lower-casing gives the same key as lower-casing then trimming. |
| BreedNames.NormalizedIgnoresCase | src/main/java/dogapi/CachingBreedFetcher.java:45-50 | Names that differ only in letter case have the same key. |
| BreedNames.NormalizedIgnoresPadding | src/main/java/dogapi/CachingBreedFetcher.java:45-50 | Surrounding a name with strippable padding does not change its key. |
| CacheModel.Lookup | src/main/java/dogapi/CachingBreedFetcher.java:25-41 | The five rules of one call. A null or blank name fails with message "breed" and leaves the state alone. A cached key returns its entry and leaves the state alone. A miss adds one to the counter and returns the wrapped fetcher's answer to the original name. A failed miss leaves the cache unchanged. A successful miss stores the answer under the key. |
| CacheModel.StoreKeepsKeysNormalized | src/main/java/dogapi/CachingBreedFetcher.java:30-39 | Storing under the key of a non-blank name keeps every key non-empty and normalised. |
| CacheModel.LookupKeepsKeysNormalized | src/main/java/dogapi/CachingBreedFetcher.java:26-39 | One call preserves the cache invariant that every key is a non-empty, normalised name. |
| CacheModel.LookupOnlyGrows | src/main/java/dogapi/CachingBreedFetcher.java:31-39 | One call never removes a key or replaces an existing entry, and raises the counter by at most one. |
| CacheModel.SameKeySharesEntry | src/main/java/dogapi/CachingBreedFetcher.java:30-39 | After one spelling of a breed succeeds, any other spelling with the same key returns the same list without touching the state. |
| CacheModel.RepeatedSuccessFetchesOnce | src/main/java/dogapi/CachingBreedFetcher.java:31-40 | Asking twice for a name the wrapped fetcher knows raises the counter by one if the key was not yet cached, and by zero if it was: the second call never reaches the wrapped fetcher. Both calls return the same list. |
| CacheModel.RepeatedFailureCountsEachTime | src/main/java/dogapi/CachingBreedFetcher.java:36-39 | Failures are not cached: `m` lookups of a name the wrapped fetcher rejects leave the cache as it was and add exactly `m` to the counter. |
| CacheModel.RunKeepsKeysNormalized | src/main/java/dogapi/CachingBreedFetcher.java:26-39 | Any sequence of calls preserves the key invariant. |
| CacheModel.RunOnlyGrows | src/main/java/dogapi/CachingBreedFetcher.java:31-39 | Across any sequence of calls, the old keys stay with their old entries, and the counter grows by at most the number of calls. |
| CacheModel.KeysOfMeaning | src/main/java/dogapi/CachingBreedFetcher.java:26-30 | A key is among the keys a sequence of names looks up exactly when it is the normal form of some non-blank name in the sequence. |
| CacheModel.RunCountsDistinctMisses | src/main/java/dogapi/CachingBreedFetcher.java:19-36 | Against a wrapped fetcher that always succeeds, the counter after a sequence of calls has grown by exactly the number of distinct new keys looked up. The cache then holds the old keys plus those keys. |
| DogApi.KeysComeFromExtended | src/main/java/dogapi/CachingBreedFetcher.java:36-39 | Forwarding one more name, and storing under its key, keeps every cache key traceable to a forwarded name. |
| DogApi.BreedFetcher.GetSubBreeds | src/main/java/dogapi/CachingBreedFetcher.java:37 | The wrapped fetcher answers from its history and the name, and records the name. |
| DogApi.CachingBreedFetcher.constructor | src/main/java/dogapi/CachingBreedFetcher.java:17-22 | A new caching fetcher wraps the given fetcher, starts with an empty cache, has a counter of zero, and satisfies the object invariant. |
| DogApi.CachingBreedFetcher.GetSubBreeds | src/main/java/dogapi/CachingBreedFetcher.java:25-41 | The new cache and counter, and the result, are exactly what `Lookup` gives for the old state and the wrapped fetcher's current answers. The call preserves the invariant (normalised keys, counter equal to the number of forwarded names). The wrapped fetcher is asked once, with the original name, only on a miss, and not at all otherwise. |
| DogApi.CachingBreedFetcher.GetCallsMade | src/main/java/dogapi/CachingBreedFetcher.java:43 | Returns the counter, which equals the number of names forwarded to the wrapped fetcher. |
| Scenarios.HuskyKeys | src/main/java/dogapi/CachingBreedFetcher.java:45-50 | "Husky" and " HUSKY " both pass the blank check and share the key "husky". |
| Scenarios.SameBreedScenario | src/main/java/dogapi/CachingBreedFetcher.java:30-40 | Two spellings of one breed on a fresh fetcher return the same list. The counter ends at 1, and the wrapped fetcher was asked once, with the first spelling. |
| Scenarios.FailureScenario | src/main/java/dogapi/CachingBreedFetcher.java:10-11 | An unknown breed asked for twice fails both times with the wrapped fetcher's message. The counter ends at 2, and the wrapped fetcher was asked twice. |
| Scenarios.BlankScenario | src/main/java/dogapi/CachingBreedFetcher.java:26-28 | A blank and a null name both fail with message "breed". The counter stays at 0, and the wrapped fetcher is never asked. |
| Scenarios.DefensiveCopyScenario | src/main/java/dogapi/CachingBreedFetcher.java:38-40 | Records the value-semantics choice for the copy at line 38: a list the caller builds from the result is a new value, and the next lookup of the same breed returns the stored list. |

## Left out

- `DogApiBreedFetcher` (the HTTP and JSON client) is not part of this model: its network I/O and JSON parsing are outside the cache's logic. The wrapped fetcher is any function of its request history and the name.
- The `BreedFetcher` Java interface is modelled as one class with an arbitrary answer function. It does not model an implementation that has side effects other than answering. `CachingBreedFetcher` implements `BreedFetcher` in Java (line 15), so caching fetchers can be stacked. In the model a `CachingBreedFetcher` cannot itself be a delegate. Stacking is still covered, because an inner caching fetcher's answers are a function of its own request history, which `source` can express.
- Unchecked exceptions from the wrapped fetcher other than `BreedNotFoundException` are not modelled. In Java they also escape before `cache.put`, with the counter already raised. A wrapped fetcher returning a null list (a `NullPointerException` at line 38) is not modelled either.
- `toLowerCase(Locale.ROOT)` is modelled on ASCII letters only. Full Unicode case mapping, including mappings that change a string's length, is not modelled.
- The null branch of `normalized` (lines 46-48) is not modelled, because it cannot be reached: `normalized` is only called after the null check at line 26. `Normalized` takes a non-null string.
- `Objects.requireNonNull` in the constructor (line 21) is not modelled, because Dafny's `BreedFetcher` type has no null value.
- `Collections.unmodifiableList(new ArrayList<>(results))` (line 38) is modelled by sequences being values. The cache therefore shares no mutable list with the caller or the wrapped fetcher. Throwing `UnsupportedOperationException` on mutation of the returned list is not modelled.
- DogApi.CachingBreedFetcher.GetSubBreeds: the counter is an unbounded `nat`. Java's `int callsMade` would wrap after 2^31 - 1 misses, and that wrap-around is not modelled.
- DogApi.CachingBreedFetcher.GetCallsMade: returns a `nat`. It does not model the negative value Java's `int` would report after wrap-around.
- Concurrency is not modelled. The Java class uses an unsynchronised `HashMap`.
- A Java `String` is a sequence of UTF-16 code units, but a Dafny `string` is a sequence of Unicode scalar values, so lone surrogates cannot be represented. A returned `List<String>` may hold null elements, which `new ArrayList<>(results)` at line 38 copies, but `seq<string>` has no null. Neither difference affects `trim()`, because every surrogate lies above U+0020, and neither affects the cache rules.
