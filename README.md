# Hoverfly cache matcher, modelled in Dafny

Hoverfly's `CacheMatcher` is the exact-match cache in front of the
request-template matcher. It holds an optional reference to a key/value
store (`RequestCache`). It keys entries by a fingerprint of a request's
identifying fields: scheme, method, destination, path, query and body.
It offers five operations:

- `GetCachedResponse` looks up one request.
- `GetAllResponses` lists every entry.
- `SaveRequestTemplateResponsePair` stores a matched pair. Its `HeaderMatch`
  flag is set when the template has headers.
- `FlushCache` empties the store.
- `PreloadCache` walks a simulation in order. It stores only the templates
  whose Body, Destination, Method, Path, Query and Scheme are all exact
  matchers.

Every operation fails first with "No cache set" when no store is configured.

The model follows the contract pinned down by hoverfly's unit test
`core/matching/cache_matcher_test.go`.

Modules, one per component:

- `Wrappers` (wrappers.dfy): `Option`, `Result`, and `Outcome` (a Go `error` return).
- `ByteStore` (byte_store.dfy): bytes, and the in-memory store as a class
  over a `map<Bytes, Bytes>`.
- `Models` (models.dfy): field matchers as a sum type `ExactMatch | RegexMatch`.
  An absent matcher is `None`. Also templates, pairs, simulations, request
  details and `CachedResponse`. Holds the "fully exact" predicate, the
  construction of the one request a fully exact template describes, and the
  `HeaderMatch` rule.
- `Fingerprint` (fingerprint.dfy): the concatenation of the six identity
  fields, and its digest.
- `Codec` (codec.dfy): a self-delimiting byte encoding of a cached response,
  with the round trip proved.
- `Preload` (preload.dfy): `Preloaded`, the entries a preload writes, as a
  function of the simulation, with lemmas about its keys and values.
- `Matching` (cache_matcher.dfy): the `CacheMatcher` class. Its store
  reference is `InMemoryCache?`, where `null` means no cache is set. Each
  method is proved against the functions above.
- `MatchingScenarios` (cache_matcher_scenarios.dfy): each unit test as a
  method. Its postcondition is what the test expects.

The store's state is described by `View`, which is what each stored value
decodes to. The model leaves open the order in which a headers map is
written, so the encoder is a method and its output bytes are not fixed.
Only what they decode to is.

The digest is MD5 rendered as lowercase hex in the running system. It is a
foreign library, so it is a parameter (`Digest`) given to the matcher at
construction. The tests rely on one fact about it: the MD5 of the empty
string is `d41d8cd98f00b204e9800998ecf8427e` (RFC 1321, appendix A.5). That
fact appears as the precondition `MatchesEmptyMd5` of the scenarios that
read the store under that key.

## Model

| member | source | states |
|---|---|---|
| `ByteStore.InMemoryCache.constructor` | core/matching/cache_matcher_test.go:41-44 | a new in-memory store is empty |
| `ByteStore.InMemoryCache.Set` | core/matching/cache_matcher_test.go:46-53 | a write replaces the value under its key and changes no other key |
| `ByteStore.InMemoryCache.Get` | core/matching/cache_matcher_test.go:55-56 | a read succeeds exactly when the key is present and returns its value; a missing key is an error |
| `ByteStore.InMemoryCache.GetAllKeys` | core/matching/cache_matcher_test.go:128-129 | returns exactly the stored keys |
| `ByteStore.InMemoryCache.DeleteData` | core/matching/cache_matcher_test.go:88-95 | leaves the store empty |
| `Models.ExactValue` | core/matching/cache_matcher_test.go:136-155 | yields a literal exactly for a present exact matcher, and that literal is the matcher's |
| `Models.IsFullyExact` | core/matching/cache_matcher_test.go:132-197 | a template is eligible for preloading iff Body, Destination, Method, Path, Query and Scheme are all present `ExactMatch` matchers; headers do not matter |
| `Models.BuildRequestDetailsFromExactMatches` | core/matching/cache_matcher_test.go:132-171 | gives request details exactly for a fully exact template; they carry the template's six literals and no headers |
| `Models.ExactTemplateDeterminesIdentity` | core/matching/cache_matcher_test.go:132-171 | a fully exact template accepts a request iff the request has the identity of the details built from it |
| `Models.NewCachedResponse` | core/matching/cache_matcher_test.go:40-86 | the entry carries the pair unchanged; `HeaderMatch` is true iff the template's Headers map is non-empty |
| `Fingerprint.Concatenate` | core/matching/cache_matcher_test.go:46-55 | the identity string is scheme, method, destination, path, query and body joined with no separator: its length is the sum of theirs, it starts with the scheme and ends with the body |
| `Fingerprint.Hash` | core/matching/cache_matcher_test.go:55 | key = digest of scheme‖method‖destination‖path‖query‖body; headers play no part |
| `Fingerprint.HashIgnoresHeaders` | core/matching/cache_matcher_test.go:64-79 | requests agreeing on the six identity fields share a key whatever their headers |
| `Fingerprint.EmptyRequestKey` | core/matching/cache_matcher_test.go:46-55 | empty request details are keyed by the MD5 hex of the empty string |
| `Fingerprint.ConcatenationIsAmbiguous` | core/matching/cache_matcher_test.go:46-55 | two requests of different identity can have the same unseparated concatenation, hence the same key |
| `Codec.DecodeNat` | core/matching/cache_matcher_test.go:58 | a successful read of a number consumes at least one byte |
| `Codec.NatRoundTrip` | core/matching/cache_matcher_test.go:58-61 | a number decodes back from its encoding, leaving the following bytes |
| `Codec.IntRoundTrip` | core/matching/cache_matcher_test.go:58-61 | a signed status code decodes back from its encoding |
| `Codec.CharRoundTrip` | core/matching/cache_matcher_test.go:58-61 | a character decodes back from its encoding |
| `Codec.CharsRoundTrip` | core/matching/cache_matcher_test.go:58-61 | a run of characters decodes back given its length |
| `Codec.StringRoundTrip` | core/matching/cache_matcher_test.go:58-61 | a length-prefixed string decodes back |
| `Codec.StringItemsRoundTrip` | core/matching/cache_matcher_test.go:82-85 | a run of header values decodes back given its count |
| `Codec.StringsRoundTrip` | core/matching/cache_matcher_test.go:82-85 | a counted list of header values decodes back |
| `Codec.HeaderPairsRoundTrip` | core/matching/cache_matcher_test.go:82-85 | the pairs written for any list of keys decode to the headers map restricted to those keys |
| `Codec.EncodeHeaders` | core/matching/cache_matcher_test.go:82-85 | a headers map written in any key order decodes back to the same map |
| `Codec.MatcherRoundTrip` | core/matching/cache_matcher_test.go:58-61 | an absent, exact or regex field matcher decodes back |
| `Codec.MatchersRoundTrip` | core/matching/cache_matcher_test.go:58-61 | a template's six field matchers decode back in order |
| `Codec.EncodeTemplate` | core/matching/cache_matcher_test.go:58-61 | a request template, headers included, decodes back from its encoding |
| `Codec.ResponseRoundTrip` | core/matching/cache_matcher_test.go:58-61 | response details decode back from their encoding |
| `Codec.DecodeCachedResponse` | core/matching/cache_matcher_test.go:58 | decoding fails on empty input (`Truncated`) and on a bad leading tag (`BadTag`); by its definition it also fails on left-over, truncated or badly tagged bytes anywhere |
| `Codec.EncodeCachedResponse` | core/matching/cache_matcher_test.go:55-61 | the stored bytes of a cached response decode back to it: decode(encode(e)) == e |
| `Preload.PreloadKey` | core/matching/cache_matcher_test.go:132-171 | a pair has a preload key exactly when its template is fully exact |
| `Preload.Preloaded` | core/matching/cache_matcher_test.go:106-252 | the entries a preload writes, pair by pair in order; it never holds more entries than the simulation has pairs |
| `Preload.PreloadedKeys` | core/matching/cache_matcher_test.go:199-252 | a key is preloaded iff some fully exact pair anywhere in the simulation has it |
| `Preload.PreloadedLastWriteWins` | core/matching/cache_matcher_test.go:199-252 | the last fully exact pair with a given key decides that key's entry |
| `Preload.PreloadedNothingWithoutExactTemplates` | core/matching/cache_matcher_test.go:106-130 | a simulation with no fully exact template preloads nothing |
| `Preload.PreloadedSingleExactTemplate` | core/matching/cache_matcher_test.go:132-171 | a simulation with one fully exact template preloads exactly that template's entry under its key |
| `Preload.PreloadedServesExactRequests` | core/matching/cache_matcher_test.go:132-171 | after preloading, every request a fully exact template accepts finds an entry under its own key |
| `Matching.Lookup` | core/matching/cache_matcher_test.go:55-61 | a lookup is "not in cache" iff the key is absent; it succeeds iff the key is present and its bytes decode, and then returns what they decode to; bytes that do not decode give `Undecodable` with the decoder's error |
| `Matching.Message` | core/matching/cache_matcher_test.go:19 | an error's text is "No cache set" exactly for the no-store error |
| `Matching.LookupAfterSave` | core/matching/cache_matcher_test.go:40-62 | after a save, the saved key looks up to the saved entry and other keys look up as before |
| `Matching.CacheMatcher.constructor` | core/matching/cache_matcher_test.go:15 | builds a matcher over the given store, or with no cache set |
| `Matching.CacheMatcher.GetCachedResponse` | core/matching/cache_matcher_test.go:13-20 | "No cache set" without a store; otherwise the lookup of the request's fingerprint; changes nothing |
| `Matching.CacheMatcher.GetAllResponses` | core/matching/cache_matcher_test.go:22-29 | "No cache set" without a store; otherwise succeeds iff every value decodes, returns every key with its decoded entry, and changes nothing |
| `Matching.CacheMatcher.SaveRequestTemplateResponsePair` | core/matching/cache_matcher_test.go:31-86 | "No cache set" without a store, before the pair is looked at; otherwise adds or overwrites exactly the fingerprint key with the entry, `HeaderMatch` included, and leaves the stored bytes of every other key as they were |
| `Matching.CacheMatcher.FlushCache` | core/matching/cache_matcher_test.go:88-95 | "No cache set" without a store; otherwise leaves it empty |
| `Matching.CacheMatcher.PreloadCache` | core/matching/cache_matcher_test.go:97-252 | "No cache set" without a store; otherwise succeeds, keys become old keys plus preloaded keys, and the view becomes the old view overridden by `Preloaded` of the simulation |
| `MatchingScenarios.GetCachedResponseWithoutCache` | core/matching/cache_matcher_test.go:13-20 | lookup on a matcher with no store fails with `NoCacheSet`, whose text is "No cache set" |
| `MatchingScenarios.GetAllResponsesWithoutCache` | core/matching/cache_matcher_test.go:22-29 | listing on a matcher with no store fails with `NoCacheSet` |
| `MatchingScenarios.SaveWithoutCache` | core/matching/cache_matcher_test.go:31-38 | saving a nil pair on a matcher with no store fails with `NoCacheSet` |
| `MatchingScenarios.SaveAndReadBack` | core/matching/cache_matcher_test.go:40-62 | after saving for empty request details, the store holds bytes under the MD5 of "" that decode to the saved entry |
| `MatchingScenarios.SaveWithoutHeaders` | core/matching/cache_matcher_test.go:40-62 | a template without headers is read back with `HeaderMatch` false |
| `MatchingScenarios.SaveWithHeaders` | core/matching/cache_matcher_test.go:64-86 | a template with headers is read back with `HeaderMatch` true |
| `MatchingScenarios.FlushWithoutCache` | core/matching/cache_matcher_test.go:88-95 | flushing a matcher with no store fails with `NoCacheSet` |
| `MatchingScenarios.PreloadWithoutCache` | core/matching/cache_matcher_test.go:97-104 | preloading on a matcher with no store fails with `NoCacheSet` |
| `MatchingScenarios.PreloadIntoFreshStore` | core/matching/cache_matcher_test.go:106-130 | preloading a fresh store succeeds and leaves exactly the preloaded keys |
| `MatchingScenarios.PreloadLooseBody` | core/matching/cache_matcher_test.go:106-130 | a lone regex-body template is skipped without error: zero keys |
| `MatchingScenarios.PreloadFullyExact` | core/matching/cache_matcher_test.go:132-171 | a lone fully exact template is stored: one key |
| `MatchingScenarios.PreloadRegexDestination` | core/matching/cache_matcher_test.go:173-197 | a lone regex-destination template is skipped without error: zero keys |
| `MatchingScenarios.PreloadChecksEveryTemplate` | core/matching/cache_matcher_test.go:199-252 | a loose template before a fully exact one with headers does not stop the walk: one key |
| `MatchingScenarios.SaveThenGet` | core/matching/cache_matcher_test.go:40-62 | a lookup after a save, for a request of the same identity, returns the saved entry whatever the headers |
| `MatchingScenarios.FlushThenGet` | core/matching/cache_matcher_test.go:88-95 | after a flush, a lookup is "not in cache" and the listing is empty |

## Left out

- The MD5 digest and its hex rendering. They are a foreign library, so `Digest` is a parameter. Only the empty-string test vector is stated, as a precondition.
- The running system's byte layout for cached responses (a library serialiser). `Codec` is a layout of its own. Only the round trip is claimed.
- Store failures. The in-memory store never fails, so there is no store-error path. Other store implementations and their I/O are not modelled.
- Concurrency. Thread safety belongs to the store, and every operation is modelled as one sequential step.
- The generic template matcher. Regex, glob and other comparators are not evaluated. `RegexMatch` only makes a template ineligible for preloading.
- Response headers and other response fields. A response is a status and a body, carried through the cache unchanged.
- A matcher object with both an exact and a regex pattern set. The Go struct has one pointer per kind, so this is possible there. Here a field matcher is a sum type, so a field holds one kind or none.
- Parsing of the query literal. The exact Query string enters the fingerprint as written.
- Matching.CacheMatcher.SaveRequestTemplateResponsePair: a nil pair with a store set is excluded by a precondition. In Go it would be a nil dereference. The nil pair itself is modelled as `None`, which the no-store test passes.
- Matching.CacheMatcher.GetAllResponses: returns a map from key to entry. The order of the running system's result is not modelled; a map carries no order.
- Matching.CacheMatcher.PreloadCache: the results of the individual saves are ignored, as a skipped template is not an error. With the in-memory store those saves cannot fail.
- Matching.Message: only the text "No cache set" is stated. The texts it gives for the "not in cache" and "cannot decode" errors are descriptive and are not claimed to be the running system's.
- The `HeaderMatch` check a consumer makes against live request headers on a cache hit. It belongs to the template matcher.
