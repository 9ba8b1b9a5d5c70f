/**
 * The cache matcher's unit tests, one method each: a fresh matcher (with or
 * without a fresh in-memory store) is driven as the test drives it, and the
 * postcondition states what the test expects.
 */
module MatchingScenarios {
  import opened Wrappers
  import opened ByteStore
  import opened Models
  import opened Fingerprint
  import opened Codec
  import opened Preload
  import opened Matching

  function Exact(s: string): Option<FieldMatcher> {
    Some(ExactMatch(s))
  }

  function Regex(s: string): Option<FieldMatcher> {
    Some(RegexMatch(s))
  }

  const NoMatcher: Option<FieldMatcher> := None

  const Ok200 := ResponseDetails(200, "body")

  /** A template whose six identity fields are all exact. */
  const FullyExactTemplate :=
    RequestTemplate(Exact("path"), Exact("method"), Exact("destination"), Exact("scheme"),
                    Exact("query"), Exact("body"), map[])

  const RegexDestinationTemplate :=
    RequestTemplate(NoMatcher, NoMatcher, Regex("destination"), NoMatcher, NoMatcher, NoMatcher, map[])

  method GetCachedResponseWithoutCache(digest: Digest) returns (r: Result<CachedResponse, CacheError>)
    ensures r == Failure(NoCacheSet)
    ensures Message(r.error) == "No cache set"
  {
    var unit := new CacheMatcher(null, digest);
    r := unit.GetCachedResponse(EmptyRequestDetails);
  }

  method GetAllResponsesWithoutCache(digest: Digest) returns (r: Result<map<Bytes, CachedResponse>, CacheError>)
    ensures r == Failure(NoCacheSet)
    ensures Message(r.error) == "No cache set"
  {
    var unit := new CacheMatcher(null, digest);
    r := unit.GetAllResponses();
  }

  method SaveWithoutCache(digest: Digest) returns (r: Outcome<CacheError>)
    ensures r == Fail(NoCacheSet)
    ensures Message(r.error) == "No cache set"
  {
    var unit := new CacheMatcher(null, digest);
    r := unit.SaveRequestTemplateResponsePair(EmptyRequestDetails, None);
  }

  /**
   * Saves a pair for empty request details and reads the store under the MD5
   * of the empty string, as the tests do.
   */
  method SaveAndReadBack(digest: Digest, template: RequestTemplate)
    returns (saved: Outcome<CacheError>, stored: Result<Bytes, StoreError>, decoded: Result<CachedResponse, DecodeError>)
    requires MatchesEmptyMd5(digest)
    ensures saved == Pass && stored.Success? && decoded.Success?
    ensures decoded.value == NewCachedResponse(RequestTemplateResponsePair(template, ResponseDetails(0, "")))
  {
    var store := new InMemoryCache();
    var unit := new CacheMatcher(store, digest);
    var pair := RequestTemplateResponsePair(template, ResponseDetails(0, ""));
    saved := unit.SaveRequestTemplateResponsePair(EmptyRequestDetails, Some(pair));
    EmptyRequestKey(digest);
    var key := AsciiBytes(EmptyMd5Hex);
    assert View(store.elements)[key] == Success(NewCachedResponse(pair));
    stored := store.Get(key);
    decoded := DecodeCachedResponse(stored.value);
  }

  method SaveWithoutHeaders(digest: Digest) returns (headerMatch: bool)
    requires MatchesEmptyMd5(digest)
    ensures !headerMatch
  {
    var template := RequestTemplate(NoMatcher, NoMatcher, Exact("test"), NoMatcher, NoMatcher, NoMatcher, map[]);
    var _, _, decoded := SaveAndReadBack(digest, template);
    headerMatch := decoded.value.headerMatch;
  }

  method SaveWithHeaders(digest: Digest) returns (headerMatch: bool)
    requires MatchesEmptyMd5(digest)
    ensures headerMatch
  {
    var template := RequestTemplate(NoMatcher, NoMatcher, NoMatcher, NoMatcher, NoMatcher, NoMatcher,
                                    map["test" := ["headers"]]);
    var _, _, decoded := SaveAndReadBack(digest, template);
    headerMatch := decoded.value.headerMatch;
  }

  method FlushWithoutCache(digest: Digest) returns (r: Outcome<CacheError>)
    ensures r == Fail(NoCacheSet)
    ensures Message(r.error) == "No cache set"
  {
    var unit := new CacheMatcher(null, digest);
    r := unit.FlushCache();
  }

  method PreloadWithoutCache(digest: Digest) returns (r: Outcome<CacheError>)
    ensures r == Fail(NoCacheSet)
    ensures Message(r.error) == "No cache set"
  {
    var unit := new CacheMatcher(null, digest);
    r := unit.PreloadCache(Simulation([]));
  }

  /** Preloads `pairs` into a fresh store and returns the error and the store's keys. */
  method PreloadIntoFreshStore(digest: Digest, pairs: seq<RequestTemplateResponsePair>)
    returns (r: Outcome<CacheError>, keys: set<Bytes>)
    ensures r == Pass && keys == Preloaded(digest, pairs).Keys
  {
    var store := new InMemoryCache();
    var unit := new CacheMatcher(store, digest);
    r := unit.PreloadCache(Simulation(pairs));
    keys := store.GetAllKeys();
  }

  method PreloadLooseBody(digest: Digest) returns (r: Outcome<CacheError>, keys: set<Bytes>)
    ensures r == Pass && |keys| == 0
  {
    var loose := RequestTemplate(NoMatcher, NoMatcher, NoMatcher, NoMatcher, NoMatcher, Regex("loose"), map[]);
    var pairs := [RequestTemplateResponsePair(loose, Ok200)];
    PreloadedNothingWithoutExactTemplates(digest, pairs);
    r, keys := PreloadIntoFreshStore(digest, pairs);
  }

  method PreloadFullyExact(digest: Digest) returns (r: Outcome<CacheError>, keys: set<Bytes>)
    ensures r == Pass && |keys| == 1
  {
    var pairs := [RequestTemplateResponsePair(FullyExactTemplate, Ok200)];
    PreloadedSingleExactTemplate(digest, pairs, 0);
    r, keys := PreloadIntoFreshStore(digest, pairs);
  }

  method PreloadRegexDestination(digest: Digest) returns (r: Outcome<CacheError>, keys: set<Bytes>)
    ensures r == Pass && |keys| == 0
  {
    var pairs := [RequestTemplateResponsePair(RegexDestinationTemplate, Ok200)];
    PreloadedNothingWithoutExactTemplates(digest, pairs);
    r, keys := PreloadIntoFreshStore(digest, pairs);
  }

  method PreloadChecksEveryTemplate(digest: Digest) returns (r: Outcome<CacheError>, keys: set<Bytes>)
    ensures r == Pass && |keys| == 1
  {
    var withHeaders := FullyExactTemplate.(headers := map["Headers" := ["value"]]);
    var pairs := [RequestTemplateResponsePair(RegexDestinationTemplate, Ok200),
                  RequestTemplateResponsePair(withHeaders, Ok200)];
    PreloadedSingleExactTemplate(digest, pairs, 1);
    r, keys := PreloadIntoFreshStore(digest, pairs);
  }

  /** A save followed by a lookup of the same request identity observes the save, headers aside. */
  method SaveThenGet(digest: Digest, request: RequestDetails, lookup: RequestDetails, pair: RequestTemplateResponsePair)
    returns (r: Result<CachedResponse, CacheError>)
    requires SameIdentity(request, lookup)
    ensures r == Success(NewCachedResponse(pair))
  {
    var store := new InMemoryCache();
    var unit := new CacheMatcher(store, digest);
    ghost var before := store.elements;
    var _ := unit.SaveRequestTemplateResponsePair(request, Some(pair));
    HashIgnoresHeaders(digest, request, lookup);
    LookupAfterSave(before, store.elements, Hash(digest, request), NewCachedResponse(pair), Hash(digest, lookup));
    r := unit.GetCachedResponse(lookup);
  }

  /** After a flush nothing is found and the list of responses is empty. */
  method FlushThenGet(digest: Digest, request: RequestDetails, pair: RequestTemplateResponsePair)
    returns (one: Result<CachedResponse, CacheError>, all: Result<map<Bytes, CachedResponse>, CacheError>)
    ensures one == Failure(NotInCache) && all == Success(map[])
  {
    var store := new InMemoryCache();
    var unit := new CacheMatcher(store, digest);
    var _ := unit.SaveRequestTemplateResponsePair(request, Some(pair));
    var _ := unit.FlushCache();
    one := unit.GetCachedResponse(request);
    all := unit.GetAllResponses();
    assert all.Success? ==> Lift(all.value).Keys == {};
  }
}
