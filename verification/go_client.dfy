/**
 * The Go SDK's transport client: default normalisation in NewApiClient,
 * the retry and error loop of makeRequest (with its copy of the response
 * headers), the verb wrappers and the two setters. Durations are integral
 * nanoseconds; the network is a sequence of per-attempt outcomes and
 * `time.Sleep` becomes the list of delays the loop asked for.
 */
module GoClient {
  import opened Common

  const Second: int := 1_000_000_000

  /** ApiClientConfig, durations in nanoseconds. */
  datatype Config = Config(
    BaseURL: string,
    ApiKey: string,
    Timeout: int,
    Retries: int,
    RetryDelay: int,
    Debug: bool)

  /** What one call of `httpClient.Do` produced. */
  datatype Attempt =
    | NetError(msg: string)
    | Response(status: nat, header: map<string, seq<string>>, body: string, parsed: Option<Json>)

  datatype ApiError = ApiError(Message: string, Status: nat, Code: string, Details: map<string, Json>)

  datatype ApiResponse = ApiResponse(
    Data: Json,
    Status: nat,
    Headers: map<string, string>,
    Success: bool)

  /**
   * How makeRequest ends: a response with a nil error, an *ApiError, or the
   * generic "request failed after N attempts" error wrapping the last
   * transport error (None when there was none).
   */
  datatype Outcome =
    | Succeeded(response: ApiResponse)
    | Failed(error: ApiError)
    | Wrapped(attempts: int, cause: Option<string>)

  /** After one attempt: return, sleep and continue, or break out of the loop. */
  datatype Step = Finish(outcome: Outcome) | Retry(delay: int) | Break

  datatype Trace = Trace(outcome: Outcome, attempts: nat, delays: seq<int>)

  /** What each attempt sends (the URL is joined from the two parts). */
  datatype Request = Request(
    verb: string,
    baseUrl: string,
    endpoint: string,
    headers: map<string, string>,
    body: Option<Json>)

  /** NewApiClient's normalisation: a zero Timeout, Retries or RetryDelay takes its default. */
  function Normalize(c: Config): (r: Config)
    ensures r.Timeout != 0 && r.Retries != 0 && r.RetryDelay != 0
    ensures c.Timeout != 0 ==> r.Timeout == c.Timeout
    ensures c.Retries != 0 ==> r.Retries == c.Retries
    ensures c.RetryDelay != 0 ==> r.RetryDelay == c.RetryDelay
    ensures c.Timeout == 0 ==> r.Timeout == 30 * Second
    ensures c.Retries == 0 ==> r.Retries == 3
    ensures c.RetryDelay == 0 ==> r.RetryDelay == Second
    ensures r.BaseURL == c.BaseURL && r.ApiKey == c.ApiKey && r.Debug == c.Debug
  {
    var c1 := if c.Timeout == 0 then c.(Timeout := 30 * Second) else c;
    var c2 := if c1.Retries == 0 then c1.(Retries := 3) else c1;
    if c2.RetryDelay == 0 then c2.(RetryDelay := Second) else c2
  }

  /** Normalising twice changes nothing more. */
  lemma NormalizeIdempotent(c: Config)
    ensures Normalize(Normalize(c)) == Normalize(c)
  {
  }

  /** The headers each attempt sets on its request. */
  function RequestHeaders(apiKey: string): (h: map<string, string>)
    ensures "Content-Type" in h && h["Content-Type"] == "application/json"
    ensures "Authorization" in h <==> apiKey != ""
    ensures apiKey != "" ==> h["Authorization"] == "Bearer " + apiKey
    ensures h.Keys <= {"Content-Type", "Authorization"}
  {
    var h := map["Content-Type" := "application/json"];
    if apiKey != "" then h["Authorization" := "Bearer " + apiKey] else h
  }

  /** The first value of every response header that has one. */
  function FirstValues(header: map<string, seq<string>>): map<string, string> {
    map k | k in header && |header[k]| > 0 :: header[k][0]
  }

  /** The header-copying loop of makeRequest. */
  method CopyHeaders(header: map<string, seq<string>>) returns (headers: map<string, string>)
    ensures forall k :: k in headers <==> k in header && |header[k]| > 0
    ensures forall k :: k in headers ==> headers[k] == header[k][0]
    ensures headers == FirstValues(header)
  {
    headers := map[];
    var keys := header.Keys;
    while keys != {}
      invariant keys <= header.Keys
      invariant forall k :: k in headers <==> k in header && k !in keys && |header[k]| > 0
      invariant forall k :: k in headers ==> headers[k] == header[k][0]
      decreases keys
    {
      var key :| key in keys;
      var values := header[key];
      if |values| > 0 {
        headers := headers[key := values[0]];
      }
      keys := keys - {key};
    }
  }

  /** The string under `key`, if the decoded error object has one. */
  function StringField(errorData: map<string, Json>, key: string): Option<string> {
    if key in errorData && errorData[key].JStr? then Some(errorData[key].s) else None
  }

  /**
   * The *ApiError built for a status >= 400: message and code only when the
   * body holds them as strings, otherwise "Request failed" and
   * "UNKNOWN_ERROR"; the decoded object (empty when the body is not one)
   * as details.
   */
  function ErrorFromBody(status: nat, parsed: Option<Json>): (e: ApiError)
    ensures e.Status == status
    ensures e.Details == (if IsObject(parsed) then parsed.value.fields else map[])
    ensures StringField(e.Details, "message").Some? ==> e.Message == StringField(e.Details, "message").value
    ensures StringField(e.Details, "message").None? ==> e.Message == "Request failed"
    ensures StringField(e.Details, "code").Some? ==> e.Code == StringField(e.Details, "code").value
    ensures StringField(e.Details, "code").None? ==> e.Code == "UNKNOWN_ERROR"
  {
    var errorData := if IsObject(parsed) then parsed.value.fields else map[];
    var message := StringField(errorData, "message");
    var code := StringField(errorData, "code");
    ApiError(
      if message.Some? then message.value else "Request failed",
      status,
      if code.Some? then code.value else "UNKNOWN_ERROR",
      errorData)
  }

  /** The data of a response: the decoded body, nil (JNull) when empty or undecodable. */
  function DecodedData(body: string, parsed: Option<Json>): (d: Json)
    ensures body != "" && parsed.Some? ==> d == parsed.value
    ensures body == "" || parsed.None? ==> d == JNull
  {
    if |body| > 0 && parsed.Some? then parsed.value else JNull
  }

  /** The decision makeRequest takes after attempt number `attempt` (from 0). */
  function Decide(retries: int, retryDelay: int, attempt: nat, a: Attempt): (s: Step)
    ensures s.Retry? ==> s.delay == retryDelay * (attempt + 1)
    ensures s.Retry? <==> attempt < retries && (a.NetError? || a.status >= 500)
    ensures s.Break? <==> a.NetError? && attempt >= retries
    ensures a.Response? && a.status >= 400 && s.Finish? ==>
      s.outcome == Failed(ErrorFromBody(a.status, a.parsed))
    ensures a.Response? && a.status < 400 ==>
      s == Finish(Succeeded(ApiResponse(DecodedData(a.body, a.parsed), a.status, FirstValues(a.header),
                                        200 <= a.status < 300)))
  {
    match a
    case NetError(msg) =>
      if attempt < retries then Retry(retryDelay * (attempt + 1)) else Break
    case Response(status, header, body, parsed) =>
      if status >= 400 then
        if status >= 500 && attempt < retries then Retry(retryDelay * (attempt + 1))
        else Finish(Failed(ErrorFromBody(status, parsed)))
      else
        Finish(Succeeded(ApiResponse(DecodedData(body, parsed), status, FirstValues(header),
                                     200 <= status < 300)))
  }

  /**
   * The loop of makeRequest from attempt `k` on, `lastErr` being the last
   * transport error seen so far and `slept` the sleeps asked for so far.
   */
  function Run(retries: int, retryDelay: int, net: seq<Attempt>, k: nat, lastErr: Option<string>,
               slept: seq<int>): (t: Trace)
    requires |net| > retries
    ensures k <= t.attempts
    ensures t.attempts == k <==> k > retries
    decreases retries + 1 - k
  {
    if k > retries then Trace(Wrapped(retries + 1, lastErr), k, slept)
    else match Decide(retries, retryDelay, k, net[k])
      case Finish(o) => Trace(o, k + 1, slept)
      case Break => Trace(Wrapped(retries + 1, Some(net[k].msg)), k + 1, slept)
      case Retry(d) =>
        var err := if net[k].NetError? then Some(net[k].msg) else lastErr;
        Run(retries, retryDelay, net, k + 1, err, slept + [d])
  }

  /**
   * At most Retries + 1 attempts, one sleep between consecutive attempts,
   * the sleep before attempt i + 1 being RetryDelay * (i + 1); the loop is
   * left without an attempt only when none is left.
   */
  lemma {:induction false} RunBounds(retries: int, retryDelay: int, net: seq<Attempt>, k: nat,
                                     lastErr: Option<string>, slept: seq<int>)
    requires |net| > retries
    ensures var t := Run(retries, retryDelay, net, k, lastErr, slept);
      && (k > retries ==> t == Trace(Wrapped(retries + 1, lastErr), k, slept))
      && (k <= retries ==> k < t.attempts <= retries + 1 && |t.delays| == |slept| + t.attempts - k - 1)
      && |slept| <= |t.delays| && t.delays[..|slept|] == slept
      && (forall j :: |slept| <= j < |t.delays| ==> t.delays[j] == retryDelay * (k + j - |slept| + 1))
    decreases retries + 1 - k
  {
    if k <= retries {
      var s := Decide(retries, retryDelay, k, net[k]);
      if s.Retry? {
        var err := if net[k].NetError? then Some(net[k].msg) else lastErr;
        var slept' := slept + [s.delay];
        RunBounds(retries, retryDelay, net, k + 1, err, slept');
        var t := Run(retries, retryDelay, net, k, lastErr, slept);
        assert t == Run(retries, retryDelay, net, k + 1, err, slept');
        assert t.delays[..|slept|] == t.delays[..|slept'|][..|slept|];
        assert t.delays[|slept|] == t.delays[..|slept'|][|slept|];
      }
    }
  }

  /**
   * The generic wrapped error comes out only when the last attempt was a
   * transport error (and names it), or when no attempt was made at all.
   */
  lemma {:induction false} WrappedOnlyAfterTransportError(retries: int, retryDelay: int, net: seq<Attempt>,
                                                          k: nat, lastErr: Option<string>, slept: seq<int>)
    requires |net| > retries && k <= retries
    ensures var t := Run(retries, retryDelay, net, k, lastErr, slept);
      t.outcome.Wrapped? ==>
        && t.attempts == retries + 1
        && net[retries].NetError?
        && t.outcome == Wrapped(retries + 1, Some(net[retries].msg))
    decreases retries - k
  {
    var s := Decide(retries, retryDelay, k, net[k]);
    if s.Retry? {
      assert k < retries;
      var err := if net[k].NetError? then Some(net[k].msg) else lastErr;
      WrappedOnlyAfterTransportError(retries, retryDelay, net, k + 1, err, slept + [s.delay]);
    }
  }

  /** A configured negative Retries is kept, and then no request is sent at all. */
  lemma NegativeRetriesMakeNoAttempt(c: Config, retryDelay: int, net: seq<Attempt>)
    requires c.Retries < 0 && |net| > c.Retries
    ensures Normalize(c).Retries == c.Retries
    ensures Run(Normalize(c).Retries, retryDelay, net, 0, None, []) == Trace(Wrapped(c.Retries + 1, None), 0, [])
  {
  }

  /** A 3xx answer is returned at once, with Success false and no error. */
  lemma RedirectIsNotSuccess(retries: int, retryDelay: int, net: seq<Attempt>)
    requires retries >= 0 && |net| > retries
    requires net[0].Response? && 300 <= net[0].status < 400
    ensures var t := Run(retries, retryDelay, net, 0, None, []);
      && t.attempts == 1
      && t.outcome.Succeeded?
      && !t.outcome.response.Success
      && t.outcome.response.Status == net[0].status
  {
  }

  /**
   * 5xx on every attempt: all Retries + 1 attempts are made and the last
   * answer's *ApiError is returned.
   */
  lemma {:induction false} ServerErrorsExhaustRetries(retries: int, retryDelay: int, net: seq<Attempt>,
                                                      k: nat, lastErr: Option<string>, slept: seq<int>)
    requires |net| > retries && k <= retries
    requires forall i :: 0 <= i < |net| ==> net[i].Response? && net[i].status >= 500
    ensures var t := Run(retries, retryDelay, net, k, lastErr, slept);
      && t.attempts == retries + 1
      && |t.delays| == |slept| + retries - k
      && net[retries].Response?
      && t.outcome == Failed(ErrorFromBody(net[retries].status, net[retries].parsed))
    decreases retries - k
  {
    if k < retries {
      ServerErrorsExhaustRetries(retries, retryDelay, net, k + 1, lastErr, slept + [retryDelay * (k + 1)]);
    }
  }

  /** Linear backoff never asks for a zero-length sleep when the delay is not zero. */
  lemma BackoffNonZero(retryDelay: int, attempt: nat)
    requires retryDelay != 0
    ensures retryDelay * (attempt + 1) != 0
  {
  }

  /** ApiClient: its configuration and the http.Client timeout taken from it. */
  class ApiClient {
    var config: Config
    var httpTimeout: int

    /** What NewApiClient establishes and the setters keep: no zero duration or retry count. */
    ghost predicate Valid()
      reads this
    {
      config.Timeout != 0 && config.Retries != 0 && config.RetryDelay != 0
    }

    /** NewApiClient. */
    constructor (config: Config)
      ensures this.config == Normalize(config)
      ensures httpTimeout == this.config.Timeout
      ensures Valid()
    {
      var c := config;
      if c.Timeout == 0 {
        c := c.(Timeout := 30 * Second);
      }
      if c.Retries == 0 {
        c := c.(Retries := 3);
      }
      if c.RetryDelay == 0 {
        c := c.(RetryDelay := Second);
      }
      this.config := c;
      httpTimeout := c.Timeout;
    }

    /**
     * makeRequest: one attempt per network answer, at most Retries + 1,
     * each with the Content-Type header and, for a non-empty key, the
     * bearer token; ends as `Run` says. On a valid client (RetryDelay not
     * zero) every sleep it asks for is a real pause.
     */
    method MakeRequest(verb: string, endpoint: string, body: Option<Json>, net: seq<Attempt>)
      returns (outcome: Outcome, sent: seq<Request>, delays: seq<int>)
      requires |net| > config.Retries
      ensures Trace(outcome, |sent|, delays) == Run(config.Retries, config.RetryDelay, net, 0, None, [])
      ensures forall q :: q in sent ==>
        q == Request(verb, config.BaseURL, endpoint, RequestHeaders(config.ApiKey), body)
      ensures Valid() ==> forall d :: d in delays ==> d != 0
    {
      var retries, retryDelay := config.Retries, config.RetryDelay;
      sent, delays := [], [];
      var lastErr: Option<string> := None;
      var attempt: nat := 0;
      while attempt <= retries
        invariant attempt == 0 || attempt <= retries + 1
        invariant |sent| == attempt
        invariant forall q :: q in sent ==>
          q == Request(verb, config.BaseURL, endpoint, RequestHeaders(config.ApiKey), body)
        invariant Run(retries, retryDelay, net, attempt, lastErr, delays) == Run(retries, retryDelay, net, 0, None, [])
        invariant retryDelay != 0 ==> forall d :: d in delays ==> d != 0
        decreases retries + 1 - attempt
      {
        var reqHeaders := map["Content-Type" := "application/json"];
        if config.ApiKey != "" {
          reqHeaders := reqHeaders["Authorization" := "Bearer " + config.ApiKey];
        }
        sent := sent + [Request(verb, config.BaseURL, endpoint, reqHeaders, body)];
        var delay := retryDelay * (attempt + 1);
        if retryDelay != 0 {
          BackoffNonZero(retryDelay, attempt);
        }
        match net[attempt] {
          case NetError(msg) =>
            lastErr := Some(msg);
            if attempt < retries {
              delays := delays + [delay];
            } else {
              break;
            }
          case Response(status, header, responseBody, parsed) =>
            var headers := CopyHeaders(header);
            if status >= 400 {
              var apiErr := ErrorFromBody(status, parsed);
              if status >= 500 && attempt < retries {
                delays := delays + [delay];
              } else {
                outcome := Failed(apiErr);
                return;
              }
            } else {
              var data := if |responseBody| > 0 && parsed.Some? then parsed.value else JNull;
              outcome := Succeeded(ApiResponse(data, status, headers, 200 <= status < 300));
              return;
            }
        }
        attempt := attempt + 1;
      }
      outcome := Wrapped(retries + 1, lastErr);
    }

    method Get(endpoint: string, net: seq<Attempt>) returns (outcome: Outcome, sent: seq<Request>, delays: seq<int>)
      requires |net| > config.Retries
      ensures Trace(outcome, |sent|, delays) == Run(config.Retries, config.RetryDelay, net, 0, None, [])
      ensures forall q :: q in sent ==>
        q == Request("GET", config.BaseURL, endpoint, RequestHeaders(config.ApiKey), None)
    {
      outcome, sent, delays := MakeRequest("GET", endpoint, None, net);
    }

    method Post(endpoint: string, body: Option<Json>, net: seq<Attempt>)
      returns (outcome: Outcome, sent: seq<Request>, delays: seq<int>)
      requires |net| > config.Retries
      ensures Trace(outcome, |sent|, delays) == Run(config.Retries, config.RetryDelay, net, 0, None, [])
      ensures forall q :: q in sent ==>
        q == Request("POST", config.BaseURL, endpoint, RequestHeaders(config.ApiKey), body)
    {
      outcome, sent, delays := MakeRequest("POST", endpoint, body, net);
    }

    method Put(endpoint: string, body: Option<Json>, net: seq<Attempt>)
      returns (outcome: Outcome, sent: seq<Request>, delays: seq<int>)
      requires |net| > config.Retries
      ensures Trace(outcome, |sent|, delays) == Run(config.Retries, config.RetryDelay, net, 0, None, [])
      ensures forall q :: q in sent ==>
        q == Request("PUT", config.BaseURL, endpoint, RequestHeaders(config.ApiKey), body)
    {
      outcome, sent, delays := MakeRequest("PUT", endpoint, body, net);
    }

    method Patch(endpoint: string, body: Option<Json>, net: seq<Attempt>)
      returns (outcome: Outcome, sent: seq<Request>, delays: seq<int>)
      requires |net| > config.Retries
      ensures Trace(outcome, |sent|, delays) == Run(config.Retries, config.RetryDelay, net, 0, None, [])
      ensures forall q :: q in sent ==>
        q == Request("PATCH", config.BaseURL, endpoint, RequestHeaders(config.ApiKey), body)
    {
      outcome, sent, delays := MakeRequest("PATCH", endpoint, body, net);
    }

    method Delete(endpoint: string, net: seq<Attempt>) returns (outcome: Outcome, sent: seq<Request>, delays: seq<int>)
      requires |net| > config.Retries
      ensures Trace(outcome, |sent|, delays) == Run(config.Retries, config.RetryDelay, net, 0, None, [])
      ensures forall q :: q in sent ==>
        q == Request("DELETE", config.BaseURL, endpoint, RequestHeaders(config.ApiKey), None)
    {
      outcome, sent, delays := MakeRequest("DELETE", endpoint, None, net);
    }

    /** Changes the key only; later requests carry the new bearer token. */
    method SetApiKey(apiKey: string)
      modifies this
      ensures config == old(config).(ApiKey := apiKey)
      ensures httpTimeout == old(httpTimeout)
      ensures old(Valid()) ==> Valid()
    {
      config := config.(ApiKey := apiKey);
    }

    /** Changes the base URL only. */
    method SetBaseURL(baseURL: string)
      modifies this
      ensures config == old(config).(BaseURL := baseURL)
      ensures httpTimeout == old(httpTimeout)
      ensures old(Valid()) ==> Valid()
    {
      config := config.(BaseURL := baseURL);
    }
  }
}
