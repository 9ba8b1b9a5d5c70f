/**
 * The values the cache works with: request templates and their field
 * matchers, the request details of a live request, simulations, and the
 * cached response stored under a fingerprint.
 */
module Models {
  import opened Wrappers

  /** How one request field is matched. Absence of a matcher means "any value". */
  datatype FieldMatcher = ExactMatch(value: string) | RegexMatch(pattern: string)

  type Headers = map<string, seq<string>>

  datatype RequestTemplate = RequestTemplate(
    path: Option<FieldMatcher>,
    httpMethod: Option<FieldMatcher>,
    destination: Option<FieldMatcher>,
    scheme: Option<FieldMatcher>,
    query: Option<FieldMatcher>,
    body: Option<FieldMatcher>,
    headers: Headers)

  /** The canned response; carried through the cache unchanged. */
  datatype ResponseDetails = ResponseDetails(status: int, body: string)

  datatype RequestTemplateResponsePair = RequestTemplateResponsePair(
    requestTemplate: RequestTemplate,
    response: ResponseDetails)

  datatype Simulation = Simulation(templates: seq<RequestTemplateResponsePair>)

  /** The attributes of a live request. */
  datatype RequestDetails = RequestDetails(
    path: string,
    httpMethod: string,
    destination: string,
    scheme: string,
    query: string,
    body: string,
    headers: Headers)

  /** The value stored under a fingerprint. */
  datatype CachedResponse = CachedResponse(
    matchingPair: RequestTemplateResponsePair,
    headerMatch: bool)

  /** The request details with every field empty (`models.RequestDetails{}`). */
  const EmptyRequestDetails := RequestDetails("", "", "", "", "", "", map[])

  /** Two requests agree on every field that identifies them (headers excluded). */
  predicate SameIdentity(a: RequestDetails, b: RequestDetails) {
    && a.path == b.path
    && a.httpMethod == b.httpMethod
    && a.destination == b.destination
    && a.scheme == b.scheme
    && a.query == b.query
    && a.body == b.body
  }

  /** The literal of an exact matcher; nothing for a regex or an absent matcher. */
  function ExactValue(m: Option<FieldMatcher>): (r: Option<string>)
    ensures r.Some? <==> m.Some? && m.value.ExactMatch?
    ensures r.Some? ==> m == Some(ExactMatch(r.value))
  {
    match m
    case Some(ExactMatch(s)) => Some(s)
    case _ => None
  }

  /** Body, Destination, Method, Path, Query and Scheme all carry an exact matcher. */
  predicate IsFullyExact(t: RequestTemplate)
    ensures IsFullyExact(t) <==>
      && t.body.Some? && t.body.value.ExactMatch?
      && t.destination.Some? && t.destination.value.ExactMatch?
      && t.httpMethod.Some? && t.httpMethod.value.ExactMatch?
      && t.path.Some? && t.path.value.ExactMatch?
      && t.query.Some? && t.query.value.ExactMatch?
      && t.scheme.Some? && t.scheme.value.ExactMatch?
  {
    && ExactValue(t.body).Some?
    && ExactValue(t.destination).Some?
    && ExactValue(t.httpMethod).Some?
    && ExactValue(t.path).Some?
    && ExactValue(t.query).Some?
    && ExactValue(t.scheme).Some?
  }

  /** The six exact matchers of `t` all accept the corresponding fields of `d`. */
  predicate ExactMatchersAccept(t: RequestTemplate, d: RequestDetails) {
    && t.path == Some(ExactMatch(d.path))
    && t.httpMethod == Some(ExactMatch(d.httpMethod))
    && t.destination == Some(ExactMatch(d.destination))
    && t.scheme == Some(ExactMatch(d.scheme))
    && t.query == Some(ExactMatch(d.query))
    && t.body == Some(ExactMatch(d.body))
  }

  /**
   * The one request a fully exact template describes, built from its six
   * literals and carrying no headers; nothing for any other template.
   */
  function BuildRequestDetailsFromExactMatches(t: RequestTemplate): (r: Option<RequestDetails>)
    ensures r.Some? <==> IsFullyExact(t)
    ensures r.Some? ==> ExactMatchersAccept(t, r.value) && r.value.headers == map[]
  {
    if IsFullyExact(t) then
      Some(RequestDetails(
        ExactValue(t.path).value,
        ExactValue(t.httpMethod).value,
        ExactValue(t.destination).value,
        ExactValue(t.scheme).value,
        ExactValue(t.query).value,
        ExactValue(t.body).value,
        map[]))
    else
      None
  }

  /**
   * A fully exact template accepts a request exactly when the request has the
   * identity of the details built from the template: such a template stands
   * for one request identity, whatever the headers.
   */
  lemma ExactTemplateDeterminesIdentity(t: RequestTemplate, d: RequestDetails)
    requires IsFullyExact(t)
    ensures ExactMatchersAccept(t, d) <==> SameIdentity(d, BuildRequestDetailsFromExactMatches(t).value)
  {
  }

  /** The entry saved for a matched pair: `HeaderMatch` records whether the template constrains headers. */
  function NewCachedResponse(pair: RequestTemplateResponsePair): (r: CachedResponse)
    ensures r.matchingPair == pair
    ensures r.headerMatch <==> pair.requestTemplate.headers != map[]
  {
    CachedResponse(pair, |pair.requestTemplate.headers| > 0)
  }
}
