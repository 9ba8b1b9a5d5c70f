/**
 * The exact-match cache in front of the template matcher. It holds an
 * optional reference to a byte store and keys entries by request
 * fingerprint; every operation first fails with "No cache set" when no store
 * is configured.
 */
module Matching {
  import opened Wrappers
  import opened ByteStore
  import opened Models
  import opened Fingerprint
  import opened Codec
  import opened Preload

  datatype CacheError = NoCacheSet | NotInCache | Undecodable(reason: DecodeError)

  /**
   * The text of an error. Only the text of `NoCacheSet` is fixed by the
   * matcher's contract; the other two texts are descriptive.
   */
  function Message(e: CacheError): (text: string)
    ensures text == "No cache set" <==> e == NoCacheSet
  {
    match e
    case NoCacheSet => "No cache set"
    case NotInCache => "Could not find recorded request in cache"
    case Undecodable(_) => "Could not decode cached response"
  }

  /** What each stored value decodes to, key by key. */
  function View(elements: map<Bytes, Bytes>): (v: map<Bytes, Result<CachedResponse, DecodeError>>)
    ensures v.Keys == elements.Keys
  {
    map k | k in elements :: DecodeCachedResponse(elements[k])
  }

  /** Entries seen as successfully decoded values. */
  function Lift(entries: map<Bytes, CachedResponse>): (v: map<Bytes, Result<CachedResponse, DecodeError>>)
    ensures v.Keys == entries.Keys
  {
    map k | k in entries :: Success(entries[k])
  }

  /** The outcome of a lookup of `key` in a configured store. */
  function Lookup(elements: map<Bytes, Bytes>, key: Bytes): (r: Result<CachedResponse, CacheError>)
    ensures r.Failure? && r.error == NotInCache <==> key !in elements
    ensures r.Success? <==> key in elements && DecodeCachedResponse(elements[key]).Success?
    ensures r.Success? ==> DecodeCachedResponse(elements[key]) == Success(r.value)
    ensures key in elements && DecodeCachedResponse(elements[key]).Failure?
            ==> r == Failure(Undecodable(DecodeCachedResponse(elements[key]).error))
  {
    if key !in elements then Failure(NotInCache)
    else match DecodeCachedResponse(elements[key])
      case Failure(e) => Failure(Undecodable(e))
      case Success(entry) => Success(entry)
  }

  /**
   * Lookup after a save: the saved key gives the saved entry, every other key
   * what it gave before.
   */
  lemma LookupAfterSave(before: map<Bytes, Bytes>, after: map<Bytes, Bytes>, saved: Bytes, entry: CachedResponse, key: Bytes)
    requires View(after) == View(before)[saved := Success(entry)]
    ensures Lookup(after, key) == if key == saved then Success(entry) else Lookup(before, key)
  {
    if key in after {
      assert View(after)[key] == DecodeCachedResponse(after[key]);
    }
    if key in before {
      assert View(before)[key] == DecodeCachedResponse(before[key]);
    }
  }

  lemma UnionUpdate<K, V>(a: map<K, V>, b: map<K, V>, k: K, v: V)
    ensures (a + b)[k := v] == a + b[k := v]
  {
  }

  lemma {:induction false} PreloadStep(digest: Digest, pairs: seq<RequestTemplateResponsePair>, i: nat)
    requires i < |pairs|
    ensures Lift(Preloaded(digest, pairs[..i + 1]))
         == match PreloadKey(digest, pairs[i])
            case None => Lift(Preloaded(digest, pairs[..i]))
            case Some(k) => Lift(Preloaded(digest, pairs[..i]))[k := Success(NewCachedResponse(pairs[i]))]
  {
    assert pairs[..i + 1][..i] == pairs[..i];
  }

  class CacheMatcher {
    var requestCache: InMemoryCache?
    /** The digest behind request fingerprints (MD5 in the running system). */
    const digest: Digest

    /** A matcher over `requestCache`; `null` is a matcher with no cache set. */
    constructor (requestCache: InMemoryCache?, digest: Digest)
      ensures this.requestCache == requestCache && this.digest == digest
    {
      this.requestCache := requestCache;
      this.digest := digest;
    }

    /** The cached response for `request`, by its fingerprint. Changes nothing. */
    method GetCachedResponse(request: RequestDetails) returns (r: Result<CachedResponse, CacheError>)
      ensures requestCache == null ==> r == Failure(NoCacheSet)
      ensures requestCache != null ==> r == Lookup(requestCache.elements, Hash(digest, request))
    {
      if requestCache == null {
        return Failure(NoCacheSet);
      }
      var stored := requestCache.Get(Hash(digest, request));
      if stored.Failure? {
        return Failure(NotInCache);
      }
      var decoded := DecodeCachedResponse(stored.value);
      if decoded.Failure? {
        return Failure(Undecodable(decoded.error));
      }
      r := Success(decoded.value);
    }

    /**
     * Every cached response, by key. One value that does not decode makes the
     * whole call fail. Changes nothing.
     */
    method GetAllResponses() returns (r: Result<map<Bytes, CachedResponse>, CacheError>)
      ensures requestCache == null ==> r == Failure(NoCacheSet)
      ensures requestCache != null ==>
        && (r.Success? <==> forall k :: k in requestCache.elements ==> DecodeCachedResponse(requestCache.elements[k]).Success?)
        && (r.Success? ==> Lift(r.value) == View(requestCache.elements))
        && (r.Failure? ==> r.error.Undecodable?)
    {
      if requestCache == null {
        return Failure(NoCacheSet);
      }
      var keys := requestCache.GetAllKeys();
      var remaining := keys;
      var all: map<Bytes, CachedResponse> := map[];
      while remaining != {}
        invariant remaining <= keys && keys == requestCache.elements.Keys
        invariant all.Keys == keys - remaining
        invariant forall k :: k in all ==> DecodeCachedResponse(requestCache.elements[k]) == Success(all[k])
        decreases remaining
      {
        var k :| k in remaining;
        var stored := requestCache.Get(k);
        var decoded := DecodeCachedResponse(stored.value);
        if decoded.Failure? {
          return Failure(Undecodable(decoded.error));
        }
        all := all[k := decoded.value];
        remaining := remaining - {k};
      }
      assert Lift(all) == View(requestCache.elements);
      r := Success(all);
    }

    /**
     * Stores `pair` under the fingerprint of `request`, replacing what was
     * there, with `HeaderMatch` set when the template has headers. The pair
     * may be absent only when no cache is set: the check for a store comes first.
     */
    method SaveRequestTemplateResponsePair(request: RequestDetails, pair: Option<RequestTemplateResponsePair>)
      returns (r: Outcome<CacheError>)
      requires requestCache != null ==> pair.Some?
      modifies requestCache
      ensures requestCache == null ==> r == Fail(NoCacheSet)
      ensures requestCache != null ==>
        && r == Pass
        && requestCache.elements.Keys == old(requestCache.elements.Keys) + {Hash(digest, request)}
        && (forall k :: k in old(requestCache.elements) && k != Hash(digest, request)
              ==> requestCache.elements[k] == old(requestCache.elements)[k])
        && View(requestCache.elements)
           == View(old(requestCache.elements))[Hash(digest, request) := Success(NewCachedResponse(pair.value))]
    {
      if requestCache == null {
        return Fail(NoCacheSet);
      }
      var key := Hash(digest, request);
      var value := EncodeCachedResponse(NewCachedResponse(pair.value));
      requestCache.Set(key, value);
      r := Pass;
    }

    /** Removes every cached response. */
    method FlushCache() returns (r: Outcome<CacheError>)
      modifies requestCache
      ensures requestCache == null ==> r == Fail(NoCacheSet)
      ensures requestCache != null ==> r == Pass && requestCache.elements == map[]
    {
      if requestCache == null {
        return Fail(NoCacheSet);
      }
      requestCache.DeleteData();
      r := Pass;
    }

    /**
     * Walks the simulation in order and saves every fully exact pair under
     * the fingerprint of the request its literals describe; other pairs are
     * skipped, which is not an error.
     */
    method PreloadCache(simulation: Simulation) returns (r: Outcome<CacheError>)
      modifies requestCache
      ensures requestCache == null ==> r == Fail(NoCacheSet)
      ensures requestCache != null ==>
        && r == Pass
        && requestCache.elements.Keys == old(requestCache.elements.Keys) + Preloaded(digest, simulation.templates).Keys
        && View(requestCache.elements)
           == View(old(requestCache.elements)) + Lift(Preloaded(digest, simulation.templates))
    {
      if requestCache == null {
        return Fail(NoCacheSet);
      }
      var pairs := simulation.templates;
      for i := 0 to |pairs|
        invariant View(requestCache.elements) == View(old(requestCache.elements)) + Lift(Preloaded(digest, pairs[..i]))
      {
        var details := BuildRequestDetailsFromExactMatches(pairs[i].requestTemplate);
        PreloadStep(digest, pairs, i);
        if details.Some? {
          var _ := SaveRequestTemplateResponsePair(details.value, Some(pairs[i]));
          UnionUpdate(View(old(requestCache.elements)), Lift(Preloaded(digest, pairs[..i])),
                      Hash(digest, details.value), Success(NewCachedResponse(pairs[i])));
        }
      }
      assert pairs[..|pairs|] == pairs;
      r := Pass;
    }
  }
}
