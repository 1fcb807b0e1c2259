/** The forwarding layer in front of the metadata HTTP service: how an
    incoming request's path and query become the forwarded URL, how endpoint
    URLs are built, how a response body is classified, and when a response is
    handed to the summarizer. HTTP is the parameter `fetch`; `parse_qsl`,
    `urlencode` and `str.format` are the parameters `parseQsl`, `urlencode`
    and `format`. */
module MetadataService {
  import opened Values
  import opened TokenOperator
  import TokenOperatorProperties
  import opened Summarizer

  /** One decoded query parameter. */
  type Pair = (string, string)

  /** The names `_remove_extra_query_params` drops. */
  const EXTRA_QUERY_PARAMS_TO_REMOVE: seq<string> := ["user_question"]

  /** The settings a `MetadataService` is built with; none changes afterwards. */
  datatype Service = Service(url: string, apiVersion: string, apiKeyName: string, apiKey: string)

  /** The parts of an incoming request the service reads. */
  datatype Request = Request(httpMethod: string, path: string, query: string)

  /** `MetadataResult | MetadataMessage`. A result keeps the body's fields. */
  datatype MetadataResponse =
    | MetadataResult(fields: Fields)
    | MetadataMessage(message: Json)

  /** What `get_metadata` hands back: the forwarded response, or a summary. */
  datatype Answer = Forwarded(response: MetadataResponse) | Summarized(summary: Json)

  /** `MetadataResult(results=[])`. */
  const EMPTY_RESULT: MetadataResponse := MetadataResult([("results", Array([]))])

  /** `self._base_url`. */
  function BaseUrl(svc: Service): string
  {
    svc.url + "/" + svc.apiVersion
  }

  /** `_get_headers`: the API key under its configured header name, and nothing else. */
  function GetHeaders(svc: Service): (r: map<string, string>)
    ensures r.Keys == {svc.apiKeyName} && r[svc.apiKeyName] == svc.apiKey
  {
    map[svc.apiKeyName := svc.apiKey]
  }

  // ---------------------------------------------------------------------
  // Query parameters
  // ---------------------------------------------------------------------

  /** The list comprehension of `_remove_extra_query_params`: every pair whose
      name is not to be removed, duplicates included, in order. */
  function FilterQueryParams(pairs: seq<Pair>): (r: seq<Pair>)
    ensures forall p :: p in r <==> p in pairs && p.0 !in EXTRA_QUERY_PARAMS_TO_REMOVE
    ensures |r| <= |pairs|
  {
    if pairs == [] then []
    else
      var rest := FilterQueryParams(pairs[1..]);
      if pairs[0].0 in EXTRA_QUERY_PARAMS_TO_REMOVE then rest else [pairs[0]] + rest
  }

  /** A kept pair occurs as often after filtering as before; a removed one never. */
  lemma {:induction false} FilterQueryParamsKeepsDuplicates(pairs: seq<Pair>, p: Pair)
    ensures p.0 !in EXTRA_QUERY_PARAMS_TO_REMOVE ==> multiset(FilterQueryParams(pairs))[p] == multiset(pairs)[p]
    ensures p.0 in EXTRA_QUERY_PARAMS_TO_REMOVE ==> multiset(FilterQueryParams(pairs))[p] == 0
  {
    if pairs != [] {
      FilterQueryParamsKeepsDuplicates(pairs[1..], p);
      assert pairs == [pairs[0]] + pairs[1..];
    }
  }

  /** Filtering commutes with concatenation: the kept pairs keep their order. */
  lemma {:induction false} FilterQueryParamsAppend(a: seq<Pair>, b: seq<Pair>)
    ensures FilterQueryParams(a + b) == FilterQueryParams(a) + FilterQueryParams(b)
  {
    if a == [] {
      assert a + b == b;
    } else {
      assert (a + b)[0] == a[0] && (a + b)[1..] == a[1..] + b;
      FilterQueryParamsAppend(a[1..], b);
      var fa, fb := FilterQueryParams(a[1..]), FilterQueryParams(b);
      assert [a[0]] + (fa + fb) == ([a[0]] + fa) + fb;
    }
  }

  /** Filtering twice is filtering once. */
  lemma {:induction false} FilterQueryParamsIdempotent(pairs: seq<Pair>)
    ensures FilterQueryParams(FilterQueryParams(pairs)) == FilterQueryParams(pairs)
  {
    if pairs != [] {
      FilterQueryParamsIdempotent(pairs[1..]);
      var rest := FilterQueryParams(pairs[1..]);
      if pairs[0].0 !in EXTRA_QUERY_PARAMS_TO_REMOVE {
        assert ([pairs[0]] + rest)[1..] == rest;
      }
    }
  }

  /** A query without a removed name passes the filter unchanged. */
  lemma {:induction false} FilterQueryParamsKeepsCleanQuery(pairs: seq<Pair>)
    requires forall p :: p in pairs ==> p.0 !in EXTRA_QUERY_PARAMS_TO_REMOVE
    ensures FilterQueryParams(pairs) == pairs
  {
    if pairs != [] {
      assert forall p :: p in pairs[1..] ==> p in pairs;
      FilterQueryParamsKeepsCleanQuery(pairs[1..]);
    }
  }

  /** `_remove_extra_query_params`: decode, filter, and encode whatever is
      left; nothing left gives the empty string. */
  function RemoveExtraQueryParams(parseQsl: string -> seq<Pair>, urlencode: seq<Pair> -> string, query: string): (r: string)
    ensures FilterQueryParams(parseQsl(query)) == [] ==> r == ""
    ensures FilterQueryParams(parseQsl(query)) != [] ==> r == urlencode(FilterQueryParams(parseQsl(query)))
  {
    var filteredParams := FilterQueryParams(parseQsl(query));
    if filteredParams != [] then urlencode(filteredParams) else ""
  }

  /** Whenever `urlencode` followed by `parse_qsl` gives back the kept pairs,
      the filtered query decodes to exactly those pairs, holds no
      `user_question`, and filtering it again changes nothing. */
  lemma RemoveExtraQueryParamsDropsQuestion(parseQsl: string -> seq<Pair>, urlencode: seq<Pair> -> string, query: string)
    requires parseQsl("") == []
    requires parseQsl(urlencode(FilterQueryParams(parseQsl(query)))) == FilterQueryParams(parseQsl(query))
    ensures var out := RemoveExtraQueryParams(parseQsl, urlencode, query);
      && parseQsl(out) == FilterQueryParams(parseQsl(query))
      && (forall p :: p in parseQsl(out) ==> p.0 != "user_question")
      && RemoveExtraQueryParams(parseQsl, urlencode, out) == out
  {
    FilterQueryParamsIdempotent(parseQsl(query));
  }

  // ---------------------------------------------------------------------
  // URLs
  // ---------------------------------------------------------------------

  /** `_get_path_and_query_url`. */
  function GetPathAndQueryUrl(parseQsl: string -> seq<Pair>, urlencode: seq<Pair> -> string,
                              request: Request, removeExtraParams: bool): (r: string)
    ensures request.query == "" ==> r == request.path
    ensures request.query != "" && !removeExtraParams ==> r == request.path + "?" + request.query
    ensures request.query != "" && removeExtraParams ==>
      var q := RemoveExtraQueryParams(parseQsl, urlencode, request.query);
      (q == "" ==> r == request.path) && (q != "" ==> r == request.path + "?" + q)
  {
    var path := request.path;
    var query :=
      if request.query != "" && removeExtraParams
      then RemoveExtraQueryParams(parseQsl, urlencode, request.query)
      else request.query;
    if query != "" then path + "?" + query else path
  }

  /** With the filter on, the forwarded address is the path alone or the path
      followed by a non-empty query that decodes without `user_question`. */
  lemma ForwardedQueryHasNoQuestion(parseQsl: string -> seq<Pair>, urlencode: seq<Pair> -> string, request: Request)
    requires parseQsl("") == []
    requires parseQsl(urlencode(FilterQueryParams(parseQsl(request.query)))) == FilterQueryParams(parseQsl(request.query))
    ensures var pq := GetPathAndQueryUrl(parseQsl, urlencode, request, true);
      || pq == request.path
      || (request.query != "" &&
          var q := RemoveExtraQueryParams(parseQsl, urlencode, request.query);
          && q != "" && pq == request.path + "?" + q
          && forall p :: p in parseQsl(q) ==> p.0 != "user_question")
  {
    RemoveExtraQueryParamsDropsQuestion(parseQsl, urlencode, request.query);
  }

  /** A string without one leading `/`. */
  function StripOneSlash(s: string): string
  {
    if |s| > 0 && s[0] == '/' then s[1..] else s
  }

  /** `_get_url`: the base URL, exactly one `/`, then the path and query with
      one leading `/` of its own absorbed into it. */
  function GetUrl(svc: Service, parseQsl: string -> seq<Pair>, urlencode: seq<Pair> -> string, request: Request): (r: string)
    ensures r == BaseUrl(svc) + "/" + StripOneSlash(GetPathAndQueryUrl(parseQsl, urlencode, request, true))
  {
    var pathAndQuery := GetPathAndQueryUrl(parseQsl, urlencode, request, true);
    var separator := if |pathAndQuery| > 0 && pathAndQuery[0] == '/' then "" else "/";
    assert |pathAndQuery| > 0 && pathAndQuery[0] == '/' ==> pathAndQuery == "/" + pathAndQuery[1..];
    svc.url + "/" + svc.apiVersion + separator + pathAndQuery
  }

  /** `_build_url`: the base URL, exactly one `/`, then the endpoint path,
      formatted with the path parameters when there are any. */
  function BuildUrl(svc: Service, endpointValue: string, pathParams: map<string, string>,
                    format: (string, map<string, string>) -> string): (r: string)
    ensures |r| > |BaseUrl(svc)| && r[..|BaseUrl(svc)| + 1] == BaseUrl(svc) + "/"
    ensures |pathParams| == 0 ==> r[|BaseUrl(svc)| + 1..] == endpointValue
    ensures |pathParams| != 0 ==> r[|BaseUrl(svc)| + 1..] == format(endpointValue, pathParams)
  {
    var endpointPath := if |pathParams| != 0 then format(endpointValue, pathParams) else endpointValue;
    var r := BaseUrl(svc) + "/" + endpointPath;
    assert r[..|BaseUrl(svc)| + 1] == BaseUrl(svc) + "/";
    assert r[|BaseUrl(svc)| + 1..] == endpointPath;
    r
  }

  /** An endpoint without path parameters is reached at the same address
      whether it is built directly or forwarded from a request for `/` plus
      the endpoint path with no query. */
  lemma BuildUrlAgreesWithForwarding(svc: Service, endpointValue: string, format: (string, map<string, string>) -> string,
                                     parseQsl: string -> seq<Pair>, urlencode: seq<Pair> -> string, httpMethod: string)
    ensures BuildUrl(svc, endpointValue, map[], format) ==
            GetUrl(svc, parseQsl, urlencode, Request(httpMethod, "/" + endpointValue, ""))
  {
    var r := BuildUrl(svc, endpointValue, map[], format);
    assert r == r[..|BaseUrl(svc)| + 1] + r[|BaseUrl(svc)| + 1..];
    assert StripOneSlash("/" + endpointValue) == endpointValue;
  }

  // ---------------------------------------------------------------------
  // Responses
  // ---------------------------------------------------------------------

  /** The `any(...)` of `_parse_response`: some key equals `message` once lower-cased. */
  function HasMessageKey(fields: Fields): (r: bool)
    ensures r <==> exists k :: k in Keys(fields) && Lower(k) == "message"
  {
    if fields == [] then false
    else
      assert forall k :: k in Keys(fields) <==> k == fields[0].0 || k in Keys(fields[1..]);
      Lower(fields[0].0) == "message" || HasMessageKey(fields[1..])
  }

  /** `_parse_response`. `body` is the decoded JSON, or None when it is not
      valid JSON. A body that is not a JSON object cannot be unpacked into a
      result and raises. */
  function ParseResponse(body: Option<Json>, passEmpty: bool): (r: Result<MetadataResponse, PyError>)
    ensures passEmpty || body.None? ==> r == Success(EMPTY_RESULT)
    ensures !passEmpty && body.Some? ==>
      match body.value
      case Object(fs) =>
        && (HasMessageKey(fs) ==> r == Success(MetadataMessage(GetOr(fs, "message", Str("")))))
        && (!HasMessageKey(fs) ==> r == Success(MetadataResult(fs)))
      case Array(_) => r == Failure(NotAMapping(body.value))
      case Str(_) => r == Failure(NotAMapping(body.value))
      case _ => r == Failure(NotIterable(body.value))
  {
    if passEmpty then Success(EMPTY_RESULT)
    else match body
      case None => Success(EMPTY_RESULT)
      case Some(responseJson) =>
        if Iterate(responseJson).None? then Failure(NotIterable(responseJson))
        else if !responseJson.Object? then Failure(NotAMapping(responseJson))
        else if HasMessageKey(responseJson.fields) then
          Success(MetadataMessage(GetOr(responseJson.fields, "message", Str(""))))
        else Success(MetadataResult(responseJson.fields))
  }

  /** The message test ignores case but the message is read under the exact
      key `message`: a body whose only message key is spelt otherwise becomes
      a message with the empty text. */
  lemma MessageKeyInOtherCaseGivesEmptyMessage(key: string, text: Json, rest: Fields)
    requires Lower(key) == "message" && key != "message"
    requires "message" !in Keys(rest)
    ensures ParseResponse(Some(Object([(key, text)] + rest)), false) == Success(MetadataMessage(Str("")))
  {
    var fs := [(key, text)] + rest;
    assert fs[1..] == rest;
    assert key in Keys(fs);
  }

  /** `_forward_request_to_metadata`: one request with the service's headers
      to the forwarded URL, parsed without `pass_empty`. It raises exactly
      when the answer is valid JSON but not an object; an invalid body gives
      the empty result; a result carries the body's own fields, and a message
      comes exactly from an object with a message key. */
  function ForwardRequestToMetadata(svc: Service, fetch: (string, string, map<string, string>) -> Option<Json>,
                                    parseQsl: string -> seq<Pair>, urlencode: seq<Pair> -> string,
                                    request: Request): (r: Result<MetadataResponse, PyError>)
    ensures var body := fetch(request.httpMethod, GetUrl(svc, parseQsl, urlencode, request), GetHeaders(svc));
      && (r.Failure? <==> body.Some? && !body.value.Object?)
      && (body.None? ==> r == Success(EMPTY_RESULT))
      && (r.Success? && r.value.MetadataResult? ==> body.None? || body == Some(Object(r.value.fields)))
      && (r.Success? && r.value.MetadataMessage? ==> body.Some? && body.value.Object? && HasMessageKey(body.value.fields))
      && (body.Some? && body.value.Object? && HasMessageKey(body.value.fields) ==>
            r == Success(MetadataMessage(GetOr(body.value.fields, "message", Str("")))))
  {
    var url := GetUrl(svc, parseQsl, urlencode, request);
    var headers := GetHeaders(svc);
    ParseResponse(fetch(request.httpMethod, url, headers), false)
  }

  // ---------------------------------------------------------------------
  // Summarizing a response
  // ---------------------------------------------------------------------

  /** `metadata_response.results` when the attribute exists. */
  function ResultsOf(response: MetadataResponse): Option<Json>
  {
    match response
    case MetadataMessage(_) => None
    case MetadataResult(fields) => Lookup(fields, "results")
  }

  /** True when `_summarize_metadata` returns the response as it is. */
  predicate NothingToSummarize(response: MetadataResponse)
  {
    ResultsOf(response).None? || !Truthy(ResultsOf(response).value)
  }

  /** The empty result and every message are passed through unsummarized. */
  lemma EmptyResponsesAreNotSummarized(message: Json)
    ensures NothingToSummarize(EMPTY_RESULT)
    ensures NothingToSummarize(MetadataMessage(message))
  {
    assert ResultsOf(EMPTY_RESULT) == Some(Array([]));
  }

  /** `_summarize_metadata` over the corrected summarizer: no or empty
      results short-circuit; otherwise the results alone are summarized. */
  method SummarizeMetadata(tokens: Json -> nat, respond: Call -> Json, response: MetadataResponse, userQuestion: string)
    returns (r: Result<Answer, PyError>, calls: seq<Call>)
    ensures NothingToSummarize(response) ==> r == Success(Forwarded(response)) && calls == []
    ensures !NothingToSummarize(response) ==>
      var input := [("results", ResultsOf(response).value)];
      && (Chunked(tokens, TOKEN_LIMIT, input).Failure? ==>
            r == Failure(Chunked(tokens, TOKEN_LIMIT, input).error) && calls == [])
      && (Chunked(tokens, TOKEN_LIMIT, input).Success? ==>
            && r.Success? && r.value.Summarized?
            && |calls| == |Chunked(tokens, TOKEN_LIMIT, input).value| + 1
            && |calls| >= 2
            && calls[|calls| - 1].assistant == FinalSummary
            && r.value.summary == respond(calls[|calls| - 1]))
  {
    var results := ResultsOf(response);
    if results.None? || !Truthy(results.value) {
      return Success(Forwarded(response)), [];
    }
    var metadataResponseDict := [("results", results.value)];
    ghost var chunked := Chunked(tokens, TOKEN_LIMIT, metadataResponseDict);
    if chunked.Success? {
      assert ResultsValue(metadataResponseDict) == results.value;
      TruthyIterationNonEmpty(results.value);
      TokenOperatorProperties.EmptyChunksIffNoResults(tokens, TOKEN_LIMIT, metadataResponseDict);
    }
    var summary;
    summary, calls := SummarizeIntended(tokens, respond, userQuestion, metadataResponseDict);
    if summary.Failure? {
      return Failure(summary.error), calls;
    }
    r := Success(Summarized(summary.value));
  }

  /** `_summarize_metadata` as written: a response with results to summarize
      never gets past the map step, so it raises before any call. */
  method SummarizeMetadataAsWritten(tokens: Json -> nat, respond: Call -> Json, response: MetadataResponse, userQuestion: string)
    returns (r: Result<Answer, PyError>, calls: seq<Call>)
    ensures NothingToSummarize(response) ==> r == Success(Forwarded(response)) && calls == []
    ensures !NothingToSummarize(response) ==>
      var input := [("results", ResultsOf(response).value)];
      && calls == []
      && (Chunked(tokens, TOKEN_LIMIT, input).Failure? ==> r == Failure(Chunked(tokens, TOKEN_LIMIT, input).error))
      && (Chunked(tokens, TOKEN_LIMIT, input).Success? ==> r == Failure(UnpackMismatch(2, 4)))
  {
    var results := ResultsOf(response);
    if results.None? || !Truthy(results.value) {
      return Success(Forwarded(response)), [];
    }
    var metadataResponseDict := [("results", results.value)];
    ghost var chunked := Chunked(tokens, TOKEN_LIMIT, metadataResponseDict);
    if chunked.Success? {
      assert ResultsValue(metadataResponseDict) == results.value;
      TruthyIterationNonEmpty(results.value);
      TokenOperatorProperties.EmptyChunksIffNoResults(tokens, TOKEN_LIMIT, metadataResponseDict);
    }
    var summary;
    summary, calls := Summarize(tokens, respond, userQuestion, metadataResponseDict);
    match summary
    case Failure(e) => r := Failure(e);
    case Success(v) => r := Success(Summarized(v));
  }

  /** `get_metadata` as written: forward, then summarize only when asked to.
      Asked to summarize a response with results, it raises before any
      assistant call. */
  method GetMetadata(svc: Service, fetch: (string, string, map<string, string>) -> Option<Json>,
                     parseQsl: string -> seq<Pair>, urlencode: seq<Pair> -> string,
                     tokens: Json -> nat, respond: Call -> Json,
                     request: Request, userQuestion: string, summarize: bool)
    returns (r: Result<Answer, PyError>, calls: seq<Call>)
    ensures var forwarded := ForwardRequestToMetadata(svc, fetch, parseQsl, urlencode, request);
      && (forwarded.Failure? ==> r == Failure(forwarded.error) && calls == [])
      && (forwarded.Success? && (!summarize || NothingToSummarize(forwarded.value)) ==>
            r == Success(Forwarded(forwarded.value)) && calls == [])
      && (forwarded.Success? && summarize && !NothingToSummarize(forwarded.value) ==>
            var input := [("results", ResultsOf(forwarded.value).value)];
            && calls == []
            && (Chunked(tokens, TOKEN_LIMIT, input).Failure? ==> r == Failure(Chunked(tokens, TOKEN_LIMIT, input).error))
            && (Chunked(tokens, TOKEN_LIMIT, input).Success? ==> r == Failure(UnpackMismatch(2, 4))))
  {
    var metadataResponse := ForwardRequestToMetadata(svc, fetch, parseQsl, urlencode, request);
    if metadataResponse.Failure? {
      return Failure(metadataResponse.error), [];
    }
    if !summarize {
      return Success(Forwarded(metadataResponse.value)), [];
    }
    r, calls := SummarizeMetadataAsWritten(tokens, respond, metadataResponse.value, userQuestion);
  }

  /** `get_metadata` over the corrected summarizer. */
  method GetMetadataIntended(svc: Service, fetch: (string, string, map<string, string>) -> Option<Json>,
                             parseQsl: string -> seq<Pair>, urlencode: seq<Pair> -> string,
                             tokens: Json -> nat, respond: Call -> Json,
                             request: Request, userQuestion: string, summarize: bool)
    returns (r: Result<Answer, PyError>, calls: seq<Call>)
    ensures var forwarded := ForwardRequestToMetadata(svc, fetch, parseQsl, urlencode, request);
      && (forwarded.Failure? ==> r == Failure(forwarded.error) && calls == [])
      && (forwarded.Success? && (!summarize || NothingToSummarize(forwarded.value)) ==>
            r == Success(Forwarded(forwarded.value)) && calls == [])
      && (forwarded.Success? && summarize && !NothingToSummarize(forwarded.value) ==>
            var input := [("results", ResultsOf(forwarded.value).value)];
            && (Chunked(tokens, TOKEN_LIMIT, input).Failure? ==>
                  r == Failure(Chunked(tokens, TOKEN_LIMIT, input).error) && calls == [])
            && (Chunked(tokens, TOKEN_LIMIT, input).Success? ==>
                  && r.Success? && r.value.Summarized?
                  && |calls| == |Chunked(tokens, TOKEN_LIMIT, input).value| + 1
                  && calls[|calls| - 1].assistant == FinalSummary
                  && r.value.summary == respond(calls[|calls| - 1])))
  {
    var metadataResponse := ForwardRequestToMetadata(svc, fetch, parseQsl, urlencode, request);
    if metadataResponse.Failure? {
      return Failure(metadataResponse.error), [];
    }
    if !summarize {
      return Success(Forwarded(metadataResponse.value)), [];
    }
    r, calls := SummarizeMetadata(tokens, respond, metadataResponse.value, userQuestion);
  }
}
