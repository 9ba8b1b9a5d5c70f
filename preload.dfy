/**
 * What preloading a simulation puts in the cache, as a function of the
 * simulation's pairs, and what that content is.
 */
module Preload {
  import opened Wrappers
  import opened ByteStore
  import opened Models
  import opened Fingerprint

  /** The key a pair is preloaded under: the fingerprint of its exact literals, if it has them all. */
  function PreloadKey(digest: Digest, pair: RequestTemplateResponsePair): (k: Option<Bytes>)
    ensures k.Some? <==> IsFullyExact(pair.requestTemplate)
  {
    match BuildRequestDetailsFromExactMatches(pair.requestTemplate)
    case None => None
    case Some(d) => Some(Hash(digest, d))
  }

  /**
   * The entries preloading `pairs` writes, in order: each fully exact pair
   * writes its cached response under its key, later writes replacing earlier
   * ones, and every other pair is skipped.
   */
  function Preloaded(digest: Digest, pairs: seq<RequestTemplateResponsePair>): (entries: map<Bytes, CachedResponse>)
    ensures |entries| <= |pairs|
  {
    if pairs == [] then map[]
    else
      var before := Preloaded(digest, pairs[..|pairs| - 1]);
      var last := pairs[|pairs| - 1];
      match PreloadKey(digest, last)
      case None => before
      case Some(k) => before[k := NewCachedResponse(last)]
  }

  /** A key is preloaded exactly when some fully exact pair of the simulation has it. */
  lemma {:induction false} PreloadedKeys(digest: Digest, pairs: seq<RequestTemplateResponsePair>, k: Bytes)
    ensures k in Preloaded(digest, pairs)
        <==> exists j :: 0 <= j < |pairs| && PreloadKey(digest, pairs[j]) == Some(k)
  {
    if pairs != [] {
      var init := pairs[..|pairs| - 1];
      PreloadedKeys(digest, init, k);
      if k in Preloaded(digest, init) {
        var j :| 0 <= j < |init| && PreloadKey(digest, init[j]) == Some(k);
        assert pairs[j] == init[j];
      }
      if j :| 0 <= j < |pairs| && PreloadKey(digest, pairs[j]) == Some(k) {
        if j < |init| {
          assert init[j] == pairs[j];
        }
      }
    }
  }

  /** The last fully exact pair with a given key decides that key's entry. */
  lemma {:induction false} PreloadedLastWriteWins(digest: Digest, pairs: seq<RequestTemplateResponsePair>, j: nat)
    requires j < |pairs| && PreloadKey(digest, pairs[j]).Some?
    requires forall i :: j < i < |pairs| ==> PreloadKey(digest, pairs[i]) != PreloadKey(digest, pairs[j])
    ensures PreloadKey(digest, pairs[j]).value in Preloaded(digest, pairs)
    ensures Preloaded(digest, pairs)[PreloadKey(digest, pairs[j]).value] == NewCachedResponse(pairs[j])
  {
    var init := pairs[..|pairs| - 1];
    if j < |pairs| - 1 {
      forall i | j < i < |init|
        ensures PreloadKey(digest, init[i]) != PreloadKey(digest, init[j])
      {
        assert init[i] == pairs[i];
      }
      assert init[j] == pairs[j];
      PreloadedLastWriteWins(digest, init, j);
    }
  }

  /** A simulation with no fully exact template preloads nothing. */
  lemma {:induction false} PreloadedNothingWithoutExactTemplates(digest: Digest, pairs: seq<RequestTemplateResponsePair>)
    requires forall j :: 0 <= j < |pairs| ==> !IsFullyExact(pairs[j].requestTemplate)
    ensures Preloaded(digest, pairs) == map[]
  {
    forall k | k in Preloaded(digest, pairs)
      ensures false
    {
      PreloadedKeys(digest, pairs, k);
    }
  }

  /** A simulation with exactly one fully exact template preloads exactly that one entry. */
  lemma {:induction false} PreloadedSingleExactTemplate(digest: Digest, pairs: seq<RequestTemplateResponsePair>, j: nat)
    requires j < |pairs| && IsFullyExact(pairs[j].requestTemplate)
    requires forall i :: 0 <= i < |pairs| && i != j ==> !IsFullyExact(pairs[i].requestTemplate)
    ensures Preloaded(digest, pairs) == map[PreloadKey(digest, pairs[j]).value := NewCachedResponse(pairs[j])]
  {
    var k := PreloadKey(digest, pairs[j]).value;
    PreloadedLastWriteWins(digest, pairs, j);
    forall k' | k' in Preloaded(digest, pairs)
      ensures k' == k
    {
      PreloadedKeys(digest, pairs, k');
    }
  }

  /**
   * Every live request accepted by the exact matchers of a fully exact
   * template of the simulation finds an entry under its own key once the
   * simulation is preloaded, whatever headers it carries.
   */
  lemma {:induction false} PreloadedServesExactRequests(digest: Digest, pairs: seq<RequestTemplateResponsePair>, j: nat, request: RequestDetails)
    requires j < |pairs| && ExactMatchersAccept(pairs[j].requestTemplate, request)
    ensures Hash(digest, request) in Preloaded(digest, pairs)
  {
    var t := pairs[j].requestTemplate;
    assert IsFullyExact(t);
    ExactTemplateDeterminesIdentity(t, request);
    HashIgnoresHeaders(digest, request, BuildRequestDetailsFromExactMatches(t).value);
    PreloadedKeys(digest, pairs, Hash(digest, request));
  }
}
