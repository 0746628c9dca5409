/**
 * The HTTP client core: the shared id/updated-after filter, the client
 * value with its base URL and required headers, and the classification of
 * a response into a decoded value or an error, including the rate-limit
 * reset time read from the `Ratelimit-Reset` header.  Sending the request
 * and reading the body are outside the model: a response is given as its
 * status code, the body decoded as the expected type or as the API's error
 * record (or the decoding failure), and the reset header's value.
 */
module Client {
  import opened Wrappers
  import opened Text
  import opened Query
  import opened WaniKani

  // ---------------------------------------------------------------- IdFilter

  /** A list of ids, in decimal and joined by commas, only when set. */
  function IdListParam(xs: Option<seq<Id>>): Param
  {
    if xs.Some? then Pair(DecimalList(xs.value)) else Unset
  }

  /** A list of u32 values (levels, stages), in decimal and joined by commas, only when set. */
  function U32ListParam(xs: Option<seq<U32>>): Param
  {
    if xs.Some? then Pair(DecimalList(xs.value)) else Unset
  }

  /** A list of subject types, by display name and joined by commas, only when set. */
  function SubjectTypesParam(ts: Option<seq<SubjectType>>): Param
  {
    if ts.Some? then Pair(SubjectTypeList(ts.value)) else Unset
  }

  /** A list of strings joined by commas as they are, only when set. */
  function StringListParam(ss: Option<seq<string>>): Param
  {
    if ss.Some? then Pair(Join(ss.value, ',')) else Unset
  }

  /** A single u32 in decimal, only when set. */
  function U32Param(x: Option<U32>): Param
  {
    if x.Some? then Pair(NatToString(x.value)) else Unset
  }

  /** Filter parameters shared by several collections. */
  datatype IdFilter = IdFilter(ids: Option<seq<Id>>, updatedAfter: Option<Timestamp>)

  const DefaultIdFilter: IdFilter := IdFilter(None, None)

  const IdFilterKeys: seq<string> := ["ids", "updated_after"]

  function IdFilterValues(f: IdFilter, rfc3339: Timestamp -> string): (vs: seq<Param>)
    ensures |vs| == |IdFilterKeys|
  {
    [ IdListParam(f.ids),
      FormattedParam(f.updatedAfter, rfc3339) ]
  }

  /** The query entries `apply_filters` appends for an IdFilter. */
  function IdFilterQuery(f: IdFilter, rfc3339: Timestamp -> string): seq<QueryPair>
  {
    EncodeParams(IdFilterKeys, IdFilterValues(f, rfc3339))
  }

  /** `IdFilter::apply_filters`: appends the filter's entries to the URL's query. */
  method ApplyIdFilter(f: IdFilter, rfc3339: Timestamp -> string, url: Url)
    modifies url
    ensures url.query == old(url.query) + IdFilterQuery(f, rfc3339)
    ensures url.path == old(url.path)
  {
    var query := url.query;
    ghost var q0 := query;
    var keys, vals := IdFilterKeys, IdFilterValues(f, rfc3339);
    query := AppendParam(query, keys, vals, 0, q0);  // ids
    query := AppendParam(query, keys, vals, 1, q0);  // updated_after
    EncodeUpToAll(q0, keys, vals);
    url.SetQuery(query);
  }

  /** The default filter adds nothing to the query. */
  lemma IdFilterDefaultEmpty(rfc3339: Timestamp -> string)
    ensures IdFilterQuery(DefaultIdFilter, rfc3339) == []
  {
    EncodeAllUnset(IdFilterKeys, IdFilterValues(DefaultIdFilter, rfc3339));
  }

  /**
   * At most one `ids` entry holding the comma-joined ids, then at most one
   * `updated_after` entry holding the formatted timestamp, and nothing else.
   */
  lemma IdFilterQueryContents(f: IdFilter, rfc3339: Timestamp -> string)
    ensures var q := IdFilterQuery(f, rfc3339);
      && Lookup(q, "ids") == (if f.ids.Some? then Some(Some(DecimalList(f.ids.value))) else None)
      && Lookup(q, "updated_after") == (if f.updatedAfter.Some? then Some(Some(rfc3339(f.updatedAfter.value))) else None)
      && (forall k :: k !in IdFilterKeys ==> Lookup(q, k) == None)
      && IsSubsequence(Keys(q), IdFilterKeys)
      && Distinct(Keys(q))
      && |q| == (if f.ids.Some? then 1 else 0) + (if f.updatedAfter.Some? then 1 else 0)
  {
    var keys, vals := IdFilterKeys, IdFilterValues(f, rfc3339);
    EncodeLookup(keys, vals, 0);
    EncodeLookup(keys, vals, 1);
    forall k | k !in keys ensures Lookup(EncodeParams(keys, vals), k) == None {
      EncodeLookupAbsent(keys, vals, k);
    }
    EncodeKeysInOrder(keys, vals);
    EncodeDistinctKeys(keys, vals);
    EncodeLength(keys, vals);
    assert vals == vals[0..];
    CountFrom(vals, 0);
    CountFrom(vals, 1);
    assert vals[2..] == [];
  }

  // ---------------------------------------------------------------- the client

  const RevisionHeader: string := "Wanikani-Revision"

  /** The client: a base URL, the secret token and the API revision. */
  class WKClient {
    const baseUrl: Url
    const token: string
    const version: string

    /** The base URL is `https://api.wanikani.com/v2` with no query; nothing changes it. */
    predicate Valid()
      reads baseUrl
    {
      baseUrl.path == BasePath && baseUrl.query == []
    }

    /** `WKClient::new`. */
    constructor (token: string)
      ensures fresh(baseUrl) && Valid()
      ensures this.token == token && version == ApiVersion
    {
      baseUrl := new Url(BasePath, []);
      this.token := token;
      version := ApiVersion;
    }

    /** `add_required_headers`: bearer authentication with the token, then the revision header. */
    function RequiredHeaders(): (h: seq<(string, string)>)
      ensures |h| == 2
      ensures h[0].0 == "Authorization" && |h[0].1| == 7 + |token|
      ensures h[0].1[..7] == "Bearer " && h[0].1[7..] == token
      ensures h[1] == (RevisionHeader, version)
    {
      [("Authorization", "Bearer " + token), (RevisionHeader, version)]
    }
  }

  // ---------------------------------------------------------------- responses

  /** reqwest's StatusCode holds a three-digit code. */
  type StatusCode = x: int | 100 <= x <= 999 witness 200

  const StatusOk: StatusCode := 200
  const StatusTooManyRequests: StatusCode := 429

  /** A body read as JSON of some type: the value, or the decoding failure. */
  datatype Decoded<T> = Decoded(value: T) | Undecodable(cause: ClientError)

  /**
   * A received response: its status, its body read as the expected type and
   * as the API's error record, and the value of its `Ratelimit-Reset` header.
   */
  datatype Response<T> = Response(
    status: StatusCode,
    body: Decoded<T>,
    errorBody: Decoded<WanikaniError>,
    resetHeader: Option<string>)

  /** `HeaderValue::to_str` succeeds only on visible ASCII and tab. */
  predicate HeaderIsText(v: string)
  {
    forall i :: 0 <= i < |v| ==> v[i] == '\t' || (' ' <= v[i] <= '~')
  }

  /** The epoch-seconds value `rate_limit_reset` reads: the parsed header, or 0 when absent or not an integer. */
  function ResetSeconds(header: Option<string>): (n: int)
    ensures I64Min <= n <= I64Max
  {
    match header
    case None => 0
    case Some(v) =>
      match ParseI64(v)
      case Some(n) => n
      case None => 0
  }

  const MillisInSecond: int := 1000

  /** The millisecond range chrono's `NaiveDateTime` can hold: years -262144 to 262143. */
  const ChronoMinMillis: int := -8_334_632_937_600_000
  const ChronoMaxMillis: int := 8_210_298_412_799_999

  /**
   * What `rate_limit_reset` needs in order not to panic: a header that is
   * text, and a reset time whose milliseconds stay in chrono's range.  That
   * range lies inside `i64`, so the multiplication by 1000 cannot overflow
   * either.
   */
  predicate ResetHeaderUsable(header: Option<string>)
  {
    && (header.Some? ==> HeaderIsText(header.value))
    && ChronoMinMillis <= ResetSeconds(header) * MillisInSecond <= ChronoMaxMillis
  }

  /** `rate_limit_reset`: the instant the header names, in milliseconds since the epoch. */
  function RateLimitReset(header: Option<string>): (t: Timestamp)
    requires ResetHeaderUsable(header)
    ensures header.None? ==> t == 0
    ensures header.Some? && ParseI64(header.value).None? ==> t == 0
    ensures header.Some? && ParseI64(header.value).Some? ==> t == ParseI64(header.value).value * 1000
  {
    ResetSeconds(header) * MillisInSecond
  }

  /** A header holding the decimal n names the instant n seconds after the epoch. */
  lemma RateLimitResetDecimal(n: nat)
    requires n * MillisInSecond <= ChronoMaxMillis
    ensures HeaderIsText(NatToString(n))
    ensures ResetHeaderUsable(Some(NatToString(n)))
    ensures RateLimitReset(Some(NatToString(n))) == n * 1000
  {
    ParseI64Rendered(n);
  }

  /** A header that is not a number (here, one starting with a letter) gives the epoch. */
  lemma RateLimitResetNotANumber(v: string)
    requires |v| > 0 && HeaderIsText(v) && !IsDigit(v[0]) && v[0] != '+' && v[0] != '-'
    ensures ResetHeaderUsable(Some(v))
    ensures RateLimitReset(Some(v)) == 0
  {
    ParseI64RejectsNonDigit(v, 0);
  }

  /** `handle_error`: classification of a non-success response. */
  function HandleError(status: StatusCode, errorBody: Decoded<WanikaniError>, resetHeader: Option<string>): (e: Error)
    requires status == StatusTooManyRequests && errorBody.Decoded? ==> ResetHeaderUsable(resetHeader)
    ensures e.RateLimit? <==> status == StatusTooManyRequests && errorBody.Decoded?
    ensures e.RateLimit? ==> e.error == errorBody.value && e.resetTime == RateLimitReset(resetHeader)
    ensures e.WaniKaniError? <==> status != StatusTooManyRequests && errorBody.Decoded?
    ensures e.WaniKaniError? ==> e.error == errorBody.value
    ensures e.Client? <==> errorBody.Undecodable?
    ensures e.Client? ==> e.cause == errorBody.cause
  {
    match errorBody
    case Decoded(error) =>
      if status == StatusTooManyRequests then RateLimit(error, RateLimitReset(resetHeader))
      else WaniKaniError(error)
    case Undecodable(cause) => Client(cause)
  }

  /** What `do_request` needs of a response in order not to panic. */
  predicate ResponseUsable<T>(sent: Result<Response<T>, ClientError>)
  {
    (sent.Ok? && sent.value.status == StatusTooManyRequests && sent.value.errorBody.Decoded?)
    ==> ResetHeaderUsable(sent.value.resetHeader)
  }

  /**
   * `do_request` after the headers are attached: a failed send is a client
   * error; status 200 decodes the body as the expected type; every other
   * status goes to `handle_error`.
   */
  function DoRequest<T>(sent: Result<Response<T>, ClientError>): (r: Result<T, Error>)
    requires ResponseUsable(sent)
    ensures sent.Err? ==> r == Err(Client(sent.error))
    ensures r.Ok? <==> sent.Ok? && sent.value.status == StatusOk && sent.value.body.Decoded?
    ensures r.Ok? ==> r.value == sent.value.body.value
    ensures sent.Ok? && sent.value.status == StatusOk && sent.value.body.Undecodable?
      ==> r == Err(Client(sent.value.body.cause))
    ensures sent.Ok? && sent.value.status != StatusOk
      ==> r == Err(HandleError(sent.value.status, sent.value.errorBody, sent.value.resetHeader))
  {
    match sent
    case Err(cause) => Err(Client(cause))
    case Ok(resp) =>
      if resp.status == StatusOk then
        match resp.body
        case Decoded(v) => Ok(v)
        case Undecodable(cause) => Err(Client(cause))
      else Err(HandleError(resp.status, resp.errorBody, resp.resetHeader))
  }

  /** Any other status, a 2xx one included, is an error even when the body would decode. */
  lemma OnlyStatusOkSucceeds<T>(resp: Response<T>)
    requires ResponseUsable<T>(Ok(resp)) && resp.status != StatusOk
    ensures DoRequest(Ok(resp)).Err?
    ensures resp.errorBody.Decoded? && resp.status == StatusTooManyRequests
      ==> DoRequest(Ok(resp)) == Err(RateLimit(resp.errorBody.value, RateLimitReset(resp.resetHeader)))
    ensures resp.errorBody.Decoded? && resp.status != StatusTooManyRequests
      ==> DoRequest(Ok(resp)) == Err(WaniKaniError(resp.errorBody.value))
  {
  }
}
