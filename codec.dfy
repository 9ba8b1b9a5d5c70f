/**
 * Serialisation of a cached response to the bytes kept in the store, and
 * back. The layout is self-delimiting: natural numbers are base-128 groups
 * (low group first, high bit set while more groups follow), strings and
 * lists are a count followed by their items, optional matchers and flags are
 * a tag byte. Only the round trip `decode(encode(e)) == e` is claimed; the
 * running system's own byte layout is not reproduced.
 */
module Codec {
  import opened Wrappers
  import opened ByteStore
  import opened Models

  datatype DecodeError = Truncated | BadTag(tag: Byte) | BadScalar(code: nat) | TrailingBytes

  /** A decoded value and the bytes after it. */
  type Decoded<T> = Result<(T, Bytes), DecodeError>

  // ---------------------------------------------------------------- numbers

  function EncodeNat(n: nat): (bs: Bytes)
    decreases n
  {
    if n < 128 then [n as Byte] else [(128 + n % 128) as Byte] + EncodeNat(n / 128)
  }

  /** Reads one number; it always consumes at least one byte. */
  function DecodeNat(bs: Bytes): (r: Decoded<nat>)
    ensures r.Success? ==> |r.value.1| < |bs|
  {
    if |bs| == 0 then Failure(Truncated)
    else if bs[0] < 128 then Success((bs[0] as nat, bs[1..]))
    else
      var high :- DecodeNat(bs[1..]);
      Success(((bs[0] as int - 128) + 128 * high.0, high.1))
  }

  lemma {:induction false} NatRoundTrip(n: nat, rest: Bytes)
    ensures DecodeNat(EncodeNat(n) + rest) == Success((n, rest))
    decreases n
  {
    if n >= 128 {
      var bs := EncodeNat(n) + rest;
      assert bs[1..] == EncodeNat(n / 128) + rest;
      NatRoundTrip(n / 128, rest);
    }
  }

  function EncodeInt(i: int): Bytes {
    if i < 0 then [1] + EncodeNat(-i) else [0] + EncodeNat(i)
  }

  function DecodeInt(bs: Bytes): Decoded<int> {
    if |bs| == 0 then Failure(Truncated)
    else if bs[0] == 0 then
      var n :- DecodeNat(bs[1..]);
      Success((n.0 as int, n.1))
    else if bs[0] == 1 then
      var n :- DecodeNat(bs[1..]);
      var negative := 0 - n.0 as int;
      Success((negative, n.1))
    else Failure(BadTag(bs[0]))
  }

  lemma {:induction false} IntRoundTrip(i: int, rest: Bytes)
    ensures DecodeInt(EncodeInt(i) + rest) == Success((i, rest))
  {
    var magnitude: nat := if i < 0 then -i else i;
    var tail := EncodeNat(magnitude) + rest;
    var bs := EncodeInt(i) + rest;
    assert bs == [if i < 0 then 1 else 0] + tail;
    assert bs[1..] == tail;
    NatRoundTrip(magnitude, rest);
  }

  function EncodeBool(b: bool): Bytes {
    if b then [1] else [0]
  }

  function DecodeBool(bs: Bytes): Decoded<bool> {
    if |bs| == 0 then Failure(Truncated)
    else if bs[0] == 0 then Success((false, bs[1..]))
    else if bs[0] == 1 then Success((true, bs[1..]))
    else Failure(BadTag(bs[0]))
  }

  // ---------------------------------------------------------------- strings

  /** A Unicode scalar value, the range of `char`. */
  predicate IsScalar(code: nat) {
    code < 0xD800 || 0xE000 <= code < 0x11_0000
  }

  function EncodeChar(c: char): Bytes {
    EncodeNat(c as int)
  }

  function DecodeChar(bs: Bytes): Decoded<char> {
    var code :- DecodeNat(bs);
    if IsScalar(code.0) then Success((code.0 as char, code.1)) else Failure(BadScalar(code.0))
  }

  lemma CharRoundTrip(c: char, rest: Bytes)
    ensures DecodeChar(EncodeChar(c) + rest) == Success((c, rest))
  {
    NatRoundTrip(c as int, rest);
  }

  function EncodeChars(s: string): Bytes {
    if s == [] then [] else EncodeChar(s[0]) + EncodeChars(s[1..])
  }

  function DecodeChars(n: nat, bs: Bytes): Decoded<string>
    decreases n
  {
    if n == 0 then Success(([], bs))
    else
      var c :- DecodeChar(bs);
      var tail :- DecodeChars(n - 1, c.1);
      Success(([c.0] + tail.0, tail.1))
  }

  lemma {:induction false} CharsRoundTrip(s: string, rest: Bytes)
    ensures DecodeChars(|s|, EncodeChars(s) + rest) == Success((s, rest))
  {
    if s != [] {
      var tailBytes := EncodeChars(s[1..]) + rest;
      assert EncodeChars(s) + rest == EncodeChar(s[0]) + tailBytes;
      CharRoundTrip(s[0], tailBytes);
      CharsRoundTrip(s[1..], rest);
      assert [s[0]] + s[1..] == s;
    } else {
      assert EncodeChars(s) + rest == rest;
    }
  }

  function EncodeString(s: string): Bytes {
    EncodeNat(|s|) + EncodeChars(s)
  }

  function DecodeString(bs: Bytes): Decoded<string> {
    var n :- DecodeNat(bs);
    DecodeChars(n.0, n.1)
  }

  lemma StringRoundTrip(s: string, rest: Bytes)
    ensures DecodeString(EncodeString(s) + rest) == Success((s, rest))
  {
    assert EncodeString(s) + rest == EncodeNat(|s|) + (EncodeChars(s) + rest);
    NatRoundTrip(|s|, EncodeChars(s) + rest);
    CharsRoundTrip(s, rest);
  }

  function EncodeStringItems(vs: seq<string>): Bytes {
    if vs == [] then [] else EncodeString(vs[0]) + EncodeStringItems(vs[1..])
  }

  function DecodeStringItems(n: nat, bs: Bytes): Decoded<seq<string>>
    decreases n
  {
    if n == 0 then Success(([], bs))
    else
      var v :- DecodeString(bs);
      var tail :- DecodeStringItems(n - 1, v.1);
      Success(([v.0] + tail.0, tail.1))
  }

  lemma {:induction false} StringItemsRoundTrip(vs: seq<string>, rest: Bytes)
    ensures DecodeStringItems(|vs|, EncodeStringItems(vs) + rest) == Success((vs, rest))
  {
    if vs != [] {
      assert EncodeStringItems(vs) + rest == EncodeString(vs[0]) + (EncodeStringItems(vs[1..]) + rest);
      StringRoundTrip(vs[0], EncodeStringItems(vs[1..]) + rest);
      StringItemsRoundTrip(vs[1..], rest);
      assert [vs[0]] + vs[1..] == vs;
    } else {
      assert EncodeStringItems(vs) + rest == rest;
    }
  }

  function EncodeStrings(vs: seq<string>): Bytes {
    EncodeNat(|vs|) + EncodeStringItems(vs)
  }

  function DecodeStrings(bs: Bytes): Decoded<seq<string>> {
    var n :- DecodeNat(bs);
    DecodeStringItems(n.0, n.1)
  }

  lemma StringsRoundTrip(vs: seq<string>, rest: Bytes)
    ensures DecodeStrings(EncodeStrings(vs) + rest) == Success((vs, rest))
  {
    assert EncodeStrings(vs) + rest == EncodeNat(|vs|) + (EncodeStringItems(vs) + rest);
    NatRoundTrip(|vs|, EncodeStringItems(vs) + rest);
    StringItemsRoundTrip(vs, rest);
  }

  // ---------------------------------------------------------------- headers

  /** The name/values pairs of `h` for the keys `ks`, in that order. */
  function EncodeHeaderPairs(ks: seq<string>, h: Headers): Bytes
    requires forall k :: k in ks ==> k in h
  {
    if ks == [] then [] else EncodeString(ks[0]) + EncodeStrings(h[ks[0]]) + EncodeHeaderPairs(ks[1..], h)
  }

  function DecodeHeaderPairs(n: nat, bs: Bytes): Decoded<Headers>
    decreases n
  {
    if n == 0 then Success((map[], bs))
    else
      var name :- DecodeString(bs);
      var values :- DecodeStrings(name.1);
      var tail :- DecodeHeaderPairs(n - 1, values.1);
      Success((tail.0[name.0 := values.0], tail.1))
  }

  lemma {:induction false} HeaderPairsRoundTrip(ks: seq<string>, h: Headers, rest: Bytes)
    requires forall k :: k in ks ==> k in h
    ensures DecodeHeaderPairs(|ks|, EncodeHeaderPairs(ks, h) + rest) == Success((map k | k in ks :: h[k], rest))
  {
    if ks != [] {
      var tailBytes := EncodeHeaderPairs(ks[1..], h) + rest;
      assert EncodeHeaderPairs(ks, h) + rest == EncodeString(ks[0]) + (EncodeStrings(h[ks[0]]) + tailBytes);
      StringRoundTrip(ks[0], EncodeStrings(h[ks[0]]) + tailBytes);
      StringsRoundTrip(h[ks[0]], tailBytes);
      HeaderPairsRoundTrip(ks[1..], h, rest);
      assert (map k | k in ks[1..] :: h[k])[ks[0] := h[ks[0]]] == map k | k in ks :: h[k];
    } else {
      assert EncodeHeaderPairs(ks, h) + rest == rest;
    }
  }

  function DecodeHeaders(bs: Bytes): Decoded<Headers> {
    var n :- DecodeNat(bs);
    DecodeHeaderPairs(n.0, n.1)
  }

  /**
   * Writes the pairs of `h`, followed by `tail`. The order in which the keys
   * are written is left open; any order decodes back to `h`.
   */
  method EncodeHeaders(h: Headers, tail: Bytes) returns (bs: Bytes)
    ensures DecodeHeaders(bs) == Success((h, tail))
  {
    var remaining := h.Keys;
    var pairs: Bytes := [];
    var count: nat := 0;
    ghost var written: seq<string> := [];
    while remaining != {}
      invariant remaining <= h.Keys
      invariant forall k :: k in written ==> k in h
      invariant forall k :: k in h ==> k in remaining || k in written
      invariant count == |written|
      invariant pairs == EncodeHeaderPairs(written, h)
      decreases remaining
    {
      var k :| k in remaining;
      pairs := EncodeString(k) + EncodeStrings(h[k]) + pairs;
      written := [k] + written;
      count := count + 1;
      remaining := remaining - {k};
    }
    assert (map k | k in written :: h[k]) == h;
    bs := EncodeNat(count) + (pairs + tail);
    NatRoundTrip(count, pairs + tail);
    HeaderPairsRoundTrip(written, h, tail);
  }

  // ---------------------------------------------------------------- templates and entries

  function EncodeMatcher(m: Option<FieldMatcher>): Bytes {
    match m
    case None => [0]
    case Some(ExactMatch(s)) => [1] + EncodeString(s)
    case Some(RegexMatch(p)) => [2] + EncodeString(p)
  }

  function DecodeMatcher(bs: Bytes): Decoded<Option<FieldMatcher>> {
    if |bs| == 0 then Failure(Truncated)
    else if bs[0] == 0 then Success((None, bs[1..]))
    else if bs[0] == 1 then
      var s :- DecodeString(bs[1..]);
      Success((Some(ExactMatch(s.0)), s.1))
    else if bs[0] == 2 then
      var s :- DecodeString(bs[1..]);
      Success((Some(RegexMatch(s.0)), s.1))
    else Failure(BadTag(bs[0]))
  }

  lemma {:induction false} MatcherRoundTrip(m: Option<FieldMatcher>, rest: Bytes)
    ensures DecodeMatcher(EncodeMatcher(m) + rest) == Success((m, rest))
  {
    if m.Some? {
      var literal := match m.value case ExactMatch(s) => s case RegexMatch(p) => p;
      var tail := EncodeString(literal) + rest;
      var bs := EncodeMatcher(m) + rest;
      assert bs == [if m.value.ExactMatch? then 1 else 2] + tail;
      assert bs[1..] == tail;
      StringRoundTrip(literal, rest);
    }
  }

  /** The six matchers of a template, in declaration order, followed by `tail`. */
  function EncodeMatchers(t: RequestTemplate, tail: Bytes): Bytes {
    EncodeMatcher(t.path) + (EncodeMatcher(t.httpMethod) + (EncodeMatcher(t.destination)
      + (EncodeMatcher(t.scheme) + (EncodeMatcher(t.query) + (EncodeMatcher(t.body) + tail)))))
  }

  /** A template with its headers not yet read. */
  type Matchers = (Option<FieldMatcher>, Option<FieldMatcher>, Option<FieldMatcher>,
                   Option<FieldMatcher>, Option<FieldMatcher>, Option<FieldMatcher>)

  function DecodeMatchers(bs: Bytes): Decoded<Matchers> {
    var path :- DecodeMatcher(bs);
    var httpMethod :- DecodeMatcher(path.1);
    var destination :- DecodeMatcher(httpMethod.1);
    var scheme :- DecodeMatcher(destination.1);
    var query :- DecodeMatcher(scheme.1);
    var body :- DecodeMatcher(query.1);
    Success(((path.0, httpMethod.0, destination.0, scheme.0, query.0, body.0), body.1))
  }

  lemma {:induction false} MatchersRoundTrip(t: RequestTemplate, tail: Bytes)
    ensures DecodeMatchers(EncodeMatchers(t, tail))
         == Success(((t.path, t.httpMethod, t.destination, t.scheme, t.query, t.body), tail))
  {
    var afterQuery := EncodeMatcher(t.body) + tail;
    var afterScheme := EncodeMatcher(t.query) + afterQuery;
    var afterDestination := EncodeMatcher(t.scheme) + afterScheme;
    var afterMethod := EncodeMatcher(t.destination) + afterDestination;
    var afterPath := EncodeMatcher(t.httpMethod) + afterMethod;
    MatcherRoundTrip(t.path, afterPath);
    MatcherRoundTrip(t.httpMethod, afterMethod);
    MatcherRoundTrip(t.destination, afterDestination);
    MatcherRoundTrip(t.scheme, afterScheme);
    MatcherRoundTrip(t.query, afterQuery);
    MatcherRoundTrip(t.body, tail);
  }

  function DecodeTemplate(bs: Bytes): Decoded<RequestTemplate> {
    var matchers :- DecodeMatchers(bs);
    var headers :- DecodeHeaders(matchers.1);
    var (path, httpMethod, destination, scheme, query, body) := matchers.0;
    Success((RequestTemplate(path, httpMethod, destination, scheme, query, body, headers.0), headers.1))
  }

  /** The bytes of `t` followed by `tail`. */
  method EncodeTemplate(t: RequestTemplate, tail: Bytes) returns (bs: Bytes)
    ensures DecodeTemplate(bs) == Success((t, tail))
  {
    var headers := EncodeHeaders(t.headers, tail);
    bs := EncodeMatchers(t, headers);
    MatchersRoundTrip(t, headers);
  }

  function EncodeResponse(r: ResponseDetails): Bytes {
    EncodeInt(r.status) + EncodeString(r.body)
  }

  function DecodeResponse(bs: Bytes): Decoded<ResponseDetails> {
    var status :- DecodeInt(bs);
    var body :- DecodeString(status.1);
    Success((ResponseDetails(status.0, body.0), body.1))
  }

  lemma ResponseRoundTrip(r: ResponseDetails, rest: Bytes)
    ensures DecodeResponse(EncodeResponse(r) + rest) == Success((r, rest))
  {
    assert EncodeResponse(r) + rest == EncodeInt(r.status) + (EncodeString(r.body) + rest);
    IntRoundTrip(r.status, EncodeString(r.body) + rest);
    StringRoundTrip(r.body, rest);
  }

  /** The inverse of `EncodeCachedResponse`; bytes left over are an error. */
  function DecodeCachedResponse(bs: Bytes): (r: Result<CachedResponse, DecodeError>)
    ensures |bs| == 0 ==> r == Failure(Truncated)
    ensures |bs| > 0 && bs[0] > 2 ==> r == Failure(BadTag(bs[0]))
  {
    var template :- DecodeTemplate(bs);
    var response :- DecodeResponse(template.1);
    var headerMatch :- DecodeBool(response.1);
    if headerMatch.1 != [] then Failure(TrailingBytes)
    else Success(CachedResponse(RequestTemplateResponsePair(template.0, response.0), headerMatch.0))
  }

  /** The bytes stored for a cached response; they always decode back to it. */
  method EncodeCachedResponse(e: CachedResponse) returns (bs: Bytes)
    ensures DecodeCachedResponse(bs) == Success(e)
  {
    var flag := EncodeBool(e.headerMatch);
    bs := EncodeTemplate(e.matchingPair.requestTemplate, EncodeResponse(e.matchingPair.response) + flag);
    ResponseRoundTrip(e.matchingPair.response, flag);
  }
}
