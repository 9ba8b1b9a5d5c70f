/**
 * The cache key of a request: a digest of its identifying fields written one
 * after the other with no separator. The digest (MD5 rendered as lowercase
 * hex in the running system) is a foreign library; it is a parameter here.
 */
module Fingerprint {
  import opened ByteStore
  import opened Models

  /** A deterministic digest of a string, giving the key bytes. */
  type Digest = string -> Bytes

  /** MD5 of the empty string as lowercase hex (RFC 1321, appendix A.5). */
  const EmptyMd5Hex: string := "d41d8cd98f00b204e9800998ecf8427e"

  /** The digest agrees with MD5 on the empty message. */
  predicate MatchesEmptyMd5(digest: Digest) {
    digest("") == AsciiBytes(EmptyMd5Hex)
  }

  /** Scheme, method, destination, path, query and body, in that order, unseparated. */
  function Concatenate(d: RequestDetails): (s: string)
    ensures |s| == |d.scheme| + |d.httpMethod| + |d.destination| + |d.path| + |d.query| + |d.body|
    ensures s[..|d.scheme|] == d.scheme
    ensures s[|s| - |d.body|..] == d.body
  {
    d.scheme + d.httpMethod + d.destination + d.path + d.query + d.body
  }

  /** The key of a request: the digest of scheme, method, destination, path, query and body. */
  function Hash(digest: Digest, d: RequestDetails): (key: Bytes)
    ensures key == digest(d.scheme + d.httpMethod + d.destination + d.path + d.query + d.body)
  {
    digest(Concatenate(d))
  }

  /** Headers never take part in the key: requests of the same identity share it. */
  lemma HashIgnoresHeaders(digest: Digest, a: RequestDetails, b: RequestDetails)
    requires SameIdentity(a, b)
    ensures Hash(digest, a) == Hash(digest, b)
  {
  }

  /** Empty request details are keyed by the digest of the empty string. */
  lemma EmptyRequestKey(digest: Digest)
    requires MatchesEmptyMd5(digest)
    ensures Hash(digest, EmptyRequestDetails) == AsciiBytes(EmptyMd5Hex)
  {
    assert Concatenate(EmptyRequestDetails) == "";
  }

  /**
   * With no separator between the fields, two requests of different identity
   * can be written the same way and so share a key whatever the digest.
   */
  lemma ConcatenationIsAmbiguous()
    ensures exists a: RequestDetails, b: RequestDetails ::
      !SameIdentity(a, b) && Concatenate(a) == Concatenate(b)
  {
    var a := RequestDetails("/ab", "GET", "host", "http", "", "", map[]);
    var b := RequestDetails("/a", "GET", "host", "http", "b", "", map[]);
    assert Concatenate(a) == Concatenate(b);
  }
}
