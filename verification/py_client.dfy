/**
 * The Python SDK's transport client: construction-time session headers,
 * the retry and error-normalisation loop of `_make_request`, the verb
 * wrappers and the two setters. The network is a sequence of per-attempt
 * outcomes; `time.sleep` becomes the list of delays the loop asked for.
 */
module PyClient {
  import opened Common

  /** ApiClientConfig; the Python defaults are timeout 30, retries 3, retry_delay 1, debug off. */
  datatype Config = Config(
    baseUrl: string,
    apiKey: Option<string>,
    timeout: int,
    retries: int,
    retryDelay: int,
    debug: bool)

  /** ApiClientConfig(base_url=..., api_key=...) with every other field left at its default. */
  function DefaultConfig(baseUrl: string, apiKey: Option<string>): (c: Config)
    ensures c.baseUrl == baseUrl && c.apiKey == apiKey
    ensures c.timeout == 30 && c.retries == 3 && c.retryDelay == 1 && !c.debug
  {
    Config(baseUrl, apiKey, 30, 3, 1, false)
  }

  /** What one call of `session.request` produced. */
  datatype Attempt =
    | Transport(msg: string)
    | Resp(status: nat, headers: map<string, string>, text: string, parsed: Option<Json>)

  /** ApiError(message, status, code, details); details is JNull when absent. */
  datatype ApiError = ApiError(message: Json, status: nat, code: Json, details: Json)

  /** The `data` of a response: the parsed JSON, or the raw text when it does not parse. */
  datatype Payload = JsonData(json: Json) | TextData(text: string)

  datatype ApiResponse = ApiResponse(
    data: Payload,
    status: nat,
    headers: map<string, string>,
    success: bool)

  /**
   * How a call of `_make_request` ends: it returns a response, raises
   * ApiError, raises AttributeError (an error body that parses to JSON
   * other than an object has no `.get`), raises OverflowError or ValueError
   * (`time.sleep` refuses a delay too long to convert, or a negative one),
   * or runs out of loop and returns None (only when retries < 0).
   */
  datatype Outcome =
    | Returned(response: ApiResponse)
    | Raised(error: ApiError)
    | RaisedAttributeError
    | RaisedOverflowError
    | RaisedValueError
    | ReturnedNone

  /** The three-way decision taken after one attempt. */
  datatype Step = Finish(outcome: Outcome) | Retry(delay: int)

  /** A whole call: its outcome, how many attempts it made and the sleeps it asked for. */
  datatype Trace = Trace(outcome: Outcome, attempts: nat, delays: seq<int>)

  /** What `session.request` is called with (the URL is joined from the two parts). */
  datatype Request = Request(
    verb: string,
    baseUrl: string,
    url: string,
    headers: map<string, string>,
    kwargs: map<string, Option<Json>>)

  /** A Python string is truthy when it is present and non-empty. */
  predicate Truthy(key: Option<string>) {
    key.Some? && key.value != ""
  }

  /** requests' `Response.ok`: false exactly for the 4xx and 5xx statuses. */
  function RequestsOk(status: nat): (ok: bool)
    ensures 400 <= status < 500 ==> !ok
    ensures 500 <= status < 600 ==> !ok
    ensures status < 400 || status >= 600 ==> ok
  {
    !(400 <= status < 600)
  }

  function Digit(d: nat): char
    requires d < 10
  {
    "0123456789"[d]
  }

  /** Decimal notation of a status code, as an f-string prints it. */
  function DecimalString(n: nat): string
    decreases n
  {
    if n < 10 then [Digit(n)] else DecimalString(n / 10) + [Digit(n % 10)]
  }

  function DefaultMessage(status: nat): string {
    "Request failed with status " + DecimalString(status)
  }

  /** dict.get(key, default) */
  function Lookup(m: map<string, Json>, key: string, default: Json): Json {
    if key in m then m[key] else default
  }

  /** The headers the constructor merges into the session. */
  function ConstructionHeaders(apiKey: Option<string>): (h: map<string, string>)
    ensures "Content-Type" in h && h["Content-Type"] == "application/json"
    ensures "Authorization" in h <==> Truthy(apiKey)
    ensures Truthy(apiKey) ==> h["Authorization"] == "Bearer " + apiKey.value
    ensures h.Keys <= {"Content-Type", "Authorization"}
  {
    var headers := map["Content-Type" := "application/json"];
    if Truthy(apiKey) then headers["Authorization" := "Bearer " + apiKey.value] else headers
  }

  /**
   * The error raised for a non-ok response: message and code from the body
   * or their defaults, the whole body (or {}) as details.
   */
  function ErrorFromBody(status: nat, parsed: Option<Json>): (o: Outcome)
    ensures o.Raised? || o == RaisedAttributeError
    ensures o.Raised? <==> parsed.None? || IsObject(parsed)
    ensures o.Raised? ==> o.error.status == status
    ensures parsed.None? ==>
      o.error == ApiError(JStr(DefaultMessage(status)), status, JStr("UNKNOWN_ERROR"), JObj(map[]))
    ensures IsObject(parsed) ==> o.error.details == parsed.value
    ensures IsObject(parsed) && "message" in parsed.value.fields ==>
      o.error.message == parsed.value.fields["message"]
    ensures IsObject(parsed) && "message" !in parsed.value.fields ==>
      o.error.message == JStr(DefaultMessage(status))
    ensures IsObject(parsed) && "code" in parsed.value.fields ==>
      o.error.code == parsed.value.fields["code"]
    ensures IsObject(parsed) && "code" !in parsed.value.fields ==>
      o.error.code == JStr("UNKNOWN_ERROR")
  {
    var errorData := if parsed.None? then map[] else if parsed.value.JObj? then parsed.value.fields else map[];
    if parsed.Some? && !parsed.value.JObj? then RaisedAttributeError
    else Raised(ApiError(
      Lookup(errorData, "message", JStr(DefaultMessage(status))),
      status,
      Lookup(errorData, "code", JStr("UNKNOWN_ERROR")),
      JObj(errorData)))
  }

  /** The response returned for an ok status. */
  function SuccessResponse(status: nat, headers: map<string, string>, text: string,
                           parsed: Option<Json>): (r: ApiResponse)
    ensures r.success && r.status == status && r.headers == headers
    ensures parsed.Some? ==> r.data == JsonData(parsed.value)
    ensures parsed.None? ==> r.data == TextData(text)
  {
    ApiResponse(if parsed.Some? then JsonData(parsed.value) else TextData(text), status, headers, true)
  }

  /**
   * Whether the loop goes on to `time.sleep` after this attempt: a transport
   * failure that is not on the last attempt, or a 5xx with attempts left.
   */
  predicate WantsSleep(retries: int, attempt: nat, a: Attempt) {
    if a.Transport? then attempt != retries else a.status >= 500 && attempt < retries
  }

  /**
   * The largest number of whole seconds, either way, that `time.sleep`
   * accepts: it first converts its argument to int64 nanoseconds.
   */
  const MAX_SLEEP: int := 9_223_372_036

  /** The delay converts to int64 nanoseconds. */
  predicate SleepFits(delay: int) {
    -MAX_SLEEP <= delay <= MAX_SLEEP
  }

  /**
   * `time.sleep(delay)`: OverflowError when the delay does not convert,
   * otherwise ValueError when it is negative; it sleeps only for a
   * convertible non-negative delay.
   */
  function Sleep(delay: int): (s: Step)
    ensures s.Retry? <==> 0 <= delay <= MAX_SLEEP
    ensures s.Retry? ==> s.delay == delay
    ensures s.Finish? && SleepFits(delay) ==> s.outcome == RaisedValueError
    ensures s.Finish? && !SleepFits(delay) ==> s.outcome == RaisedOverflowError
  {
    if !SleepFits(delay) then Finish(RaisedOverflowError)
    else if delay < 0 then Finish(RaisedValueError)
    else Retry(delay)
  }

  /** A sleep refused by `time.sleep`. */
  predicate SleepRefused(o: Outcome) {
    o.RaisedOverflowError? || o.RaisedValueError?
  }

  /** Linear backoff grows with the attempt number when the delay is not negative. */
  lemma BackoffGrows(retryDelay: int, i: int, j: int)
    requires 0 <= retryDelay && i <= j
    ensures retryDelay * i <= retryDelay * j
  {
  }

  /** The decision `_make_request` takes after attempt number `attempt` (from 0). */
  function Decide(retries: int, retryDelay: int, attempt: nat, a: Attempt): (s: Step)
    ensures s.Retry? ==> s.delay == retryDelay * (attempt + 1) && retryDelay >= 0
    ensures s.Retry? <==> WantsSleep(retries, attempt, a) && 0 <= retryDelay * (attempt + 1) <= MAX_SLEEP
    ensures WantsSleep(retries, attempt, a) ==> s == Sleep(retryDelay * (attempt + 1))
    ensures s.Finish? && SleepRefused(s.outcome) ==> WantsSleep(retries, attempt, a)
    ensures s == Finish(RaisedValueError) ==> retryDelay < 0
    ensures a.Transport? && !WantsSleep(retries, attempt, a) ==>
      s == Finish(Raised(ApiError(JStr(a.msg), 0, JStr("NETWORK_ERROR"), JNull)))
    ensures a.Resp? && !WantsSleep(retries, attempt, a) && RequestsOk(a.status) ==>
      s == Finish(Returned(SuccessResponse(a.status, a.headers, a.text, a.parsed)))
    ensures a.Resp? && !WantsSleep(retries, attempt, a) && !RequestsOk(a.status) ==>
      s == Finish(ErrorFromBody(a.status, a.parsed))
    ensures s.Finish? ==> !s.outcome.ReturnedNone?
  {
    match a
    case Transport(msg) =>
      if attempt == retries then Finish(Raised(ApiError(JStr(msg), 0, JStr("NETWORK_ERROR"), JNull)))
      else Sleep(retryDelay * (attempt + 1))
    case Resp(status, headers, text, parsed) =>
      if status >= 500 && attempt < retries then Sleep(retryDelay * (attempt + 1))
      else if !RequestsOk(status) then Finish(ErrorFromBody(status, parsed))
      else Finish(Returned(SuccessResponse(status, headers, text, parsed)))
  }

  /**
   * The loop of `_make_request` over `range(retries + 1)`, from attempt `k`
   * on, the sleeps asked for so far being `slept`.
   */
  function Run(retries: int, retryDelay: int, net: seq<Attempt>, k: nat, slept: seq<int>): (t: Trace)
    requires |net| > retries
    ensures k <= t.attempts
    ensures t.attempts == k <==> k > retries
    decreases retries + 1 - k
  {
    if k >= retries + 1 then Trace(ReturnedNone, k, slept)
    else match Decide(retries, retryDelay, k, net[k])
      case Finish(o) => Trace(o, k + 1, slept)
      case Retry(d) => Run(retries, retryDelay, net, k + 1, slept + [d])
  }

  /**
   * The loop falls through (returning None) only when no attempt is left,
   * makes at most retries + 1 attempts, sleeps once between consecutive
   * attempts, and the sleep before attempt i + 1 is retry_delay * (i + 1).
   */
  lemma {:induction false} RunBounds(retries: int, retryDelay: int, net: seq<Attempt>, k: nat, slept: seq<int>)
    requires |net| > retries
    ensures var t := Run(retries, retryDelay, net, k, slept);
      && (t.outcome.ReturnedNone? <==> k > retries)
      && (t.outcome.ReturnedNone? ==> t.attempts == k && t.delays == slept)
      && (!t.outcome.ReturnedNone? ==>
            k < t.attempts <= retries + 1 && |t.delays| == |slept| + t.attempts - k - 1)
      && |slept| <= |t.delays| && t.delays[..|slept|] == slept
      && (forall j :: |slept| <= j < |t.delays| ==> t.delays[j] == retryDelay * (k + j - |slept| + 1))
      && (forall j :: |slept| <= j < |t.delays| ==> 0 <= t.delays[j] <= MAX_SLEEP)
      && (retryDelay < 0 ==> t.delays == slept)
      && (t.outcome.RaisedValueError? ==> retryDelay < 0)
    decreases retries + 1 - k
  {
    if k < retries + 1 {
      var s := Decide(retries, retryDelay, k, net[k]);
      if s.Retry? {
        var slept' := slept + [s.delay];
        RunBounds(retries, retryDelay, net, k + 1, slept');
        var t := Run(retries, retryDelay, net, k, slept);
        assert t == Run(retries, retryDelay, net, k + 1, slept');
        assert t.delays[..|slept|] == t.delays[..|slept'|][..|slept|];
        assert t.delays[|slept|] == t.delays[..|slept'|][|slept|];
      }
    }
  }

  /**
   * Every attempt but the last was a retry decision, and the call ends with
   * the decision taken on the last attempt.
   */
  lemma {:induction false} RunStopsAtFirstFinish(retries: int, retryDelay: int, net: seq<Attempt>,
                                                 k: nat, slept: seq<int>)
    requires |net| > retries && k <= retries + 1
    ensures var t := Run(retries, retryDelay, net, k, slept);
      && t.attempts <= |net|
      && (forall j :: k <= j < t.attempts - 1 ==> Decide(retries, retryDelay, j, net[j]).Retry?)
      && (!t.outcome.ReturnedNone? ==>
            t.attempts >= 1 && Decide(retries, retryDelay, t.attempts - 1, net[t.attempts - 1]) == Finish(t.outcome))
    decreases retries + 1 - k
  {
    RunBounds(retries, retryDelay, net, k, slept);
    if k < retries + 1 {
      var s := Decide(retries, retryDelay, k, net[k]);
      if s.Retry? {
        RunStopsAtFirstFinish(retries, retryDelay, net, k + 1, slept + [s.delay]);
        RunBounds(retries, retryDelay, net, k + 1, slept + [s.delay]);
      }
    }
  }

  /** With retries >= 0 the call never falls through to None. */
  lemma NeverNoneWithRetries(retries: int, retryDelay: int, net: seq<Attempt>)
    requires retries >= 0 && |net| > retries
    ensures !Run(retries, retryDelay, net, 0, []).outcome.ReturnedNone?
    ensures Run(retries, retryDelay, net, 0, []).attempts <= retries + 1
  {
    RunBounds(retries, retryDelay, net, 0, []);
  }

  /** A 4xx response is raised on the spot: one attempt, no sleep, that status. */
  lemma ClientErrorRaisedAtOnce(retries: int, retryDelay: int, net: seq<Attempt>)
    requires retries >= 0 && |net| > retries
    requires net[0].Resp? && 400 <= net[0].status < 500
    ensures var t := Run(retries, retryDelay, net, 0, []);
      && t.attempts == 1 && t.delays == []
      && t.outcome == ErrorFromBody(net[0].status, net[0].parsed)
  {
  }

  /** A 2xx first answer is returned on the spot: one attempt, no sleep, that response. */
  lemma SuccessAtOnce(retries: int, retryDelay: int, net: seq<Attempt>)
    requires retries >= 0 && |net| > retries
    requires net[0].Resp? && 200 <= net[0].status < 300
    ensures Run(retries, retryDelay, net, 0, []) ==
      Trace(Returned(SuccessResponse(net[0].status, net[0].headers, net[0].text, net[0].parsed)), 1, [])
  {
  }

  /** The 400 VALIDATION_ERROR case: status 400 and code VALIDATION_ERROR after a single attempt. */
  lemma ValidationErrorExample(retries: int, retryDelay: int, net: seq<Attempt>)
    requires retries >= 0 && |net| > retries
    requires net[0] == Resp(400, map[], "", Some(JObj(map[
      "message" := JStr("Bad Request"),
      "code" := JStr("VALIDATION_ERROR"),
      "details" := JObj(map["field" := JStr("email")])])))
    ensures var t := Run(retries, retryDelay, net, 0, []);
      && t.attempts == 1
      && t.outcome.Raised?
      && t.outcome.error.status == 400
      && t.outcome.error.code == JStr("VALIDATION_ERROR")
      && t.outcome.error.message == JStr("Bad Request")
  {
    ClientErrorRaisedAtOnce(retries, retryDelay, net);
  }

  /** A network answer that is a 5xx response with an object body (or none). */
  predicate ServerError(a: Attempt) {
    a.Resp? && 500 <= a.status < 600 && (a.parsed.None? || IsObject(a.parsed))
  }

  /**
   * 5xx on every attempt. When every sleep fits (retry_delay >= 0 and
   * retry_delay * retries at most MAX_SLEEP), all retries + 1 attempts are
   * made, sleeping between each, and the last response's ApiError is raised.
   * A negative retry_delay ends the call at the first sleep with what
   * `time.sleep` raises; a positive one whose last sleep does not fit ends
   * it with OverflowError.
   */
  lemma {:induction false} ServerErrorsExhaustRetries(retries: int, retryDelay: int, net: seq<Attempt>,
                                                      k: nat, slept: seq<int>)
    requires |net| > retries && k <= retries
    requires forall i :: 0 <= i < |net| ==> ServerError(net[i])
    ensures var t := Run(retries, retryDelay, net, k, slept);
      && ServerError(net[retries])
      && (k == retries || (0 <= retryDelay && retryDelay * retries <= MAX_SLEEP) ==>
            && t.attempts == retries + 1
            && |t.delays| == |slept| + retries - k
            && t.outcome == ErrorFromBody(net[retries].status, net[retries].parsed)
            && t.outcome.Raised?
            && t.outcome.error.status == net[retries].status)
      && (k < retries && retryDelay < 0 ==> t == Trace(Sleep(retryDelay * (k + 1)).outcome, k + 1, slept))
      && (k < retries && retryDelay > 0 && retryDelay * retries > MAX_SLEEP ==> t.outcome == RaisedOverflowError)
    decreases retries - k
  {
    if k < retries && retryDelay >= 0 {
      BackoffGrows(retryDelay, k + 1, retries);
      if retryDelay * (k + 1) <= MAX_SLEEP {
        ServerErrorsExhaustRetries(retries, retryDelay, net, k + 1, slept + [retryDelay * (k + 1)]);
      }
    }
  }

  /**
   * A 5xx answer followed by a 200: two attempts, one sleep of retry_delay,
   * success; a retry_delay `time.sleep` refuses ends the call after the first.
   */
  lemma ServerErrorThenSuccess(retries: int, retryDelay: int, net: seq<Attempt>)
    requires retries >= 1 && |net| > retries
    requires ServerError(net[0]) && net[1].Resp? && net[1].status == 200
    ensures var t := Run(retries, retryDelay, net, 0, []);
      && (0 <= retryDelay <= MAX_SLEEP ==>
            && t.attempts == 2
            && t.delays == [retryDelay]
            && t.outcome.Returned?
            && t.outcome.response.success
            && t.outcome.response.status == 200)
      && (!(0 <= retryDelay <= MAX_SLEEP) ==> t == Trace(Sleep(retryDelay).outcome, 1, []))
  {
  }

  /**
   * Transport failures on every attempt. When every sleep fits, NETWORK_ERROR
   * with status 0 after retries + 1 attempts; a negative retry_delay ends the
   * call at the first sleep with what `time.sleep` raises; a positive one
   * whose last sleep does not fit ends it with OverflowError.
   */
  lemma {:induction false} TransportFailuresExhaustRetries(retries: int, retryDelay: int, net: seq<Attempt>,
                                                           k: nat, slept: seq<int>)
    requires |net| > retries && k <= retries
    requires forall i :: 0 <= i < |net| ==> net[i].Transport?
    ensures var t := Run(retries, retryDelay, net, k, slept);
      && (k == retries || (0 <= retryDelay && retryDelay * retries <= MAX_SLEEP) ==>
            && t.attempts == retries + 1
            && |t.delays| == |slept| + retries - k
            && t.outcome == Raised(ApiError(JStr(net[retries].msg), 0, JStr("NETWORK_ERROR"), JNull)))
      && (k < retries && retryDelay < 0 ==> t == Trace(Sleep(retryDelay * (k + 1)).outcome, k + 1, slept))
      && (k < retries && retryDelay > 0 && retryDelay * retries > MAX_SLEEP ==> t.outcome == RaisedOverflowError)
    decreases retries - k
  {
    if k < retries && retryDelay >= 0 {
      BackoffGrows(retryDelay, k + 1, retries);
      if retryDelay * (k + 1) <= MAX_SLEEP {
        TransportFailuresExhaustRetries(retries, retryDelay, net, k + 1, slept + [retryDelay * (k + 1)]);
      }
    }
  }

  /**
   * The default retry settings (retries 3, retry_delay 1, as `DefaultConfig`
   * sets them) against a server that keeps answering 5xx: four attempts,
   * sleeping 1, 2 and 3 seconds, then the fourth answer's ApiError.
   */
  lemma DefaultConfigServerErrors(retries: int, retryDelay: int, net: seq<Attempt>)
    requires retries == DefaultConfig("", None).retries && retryDelay == DefaultConfig("", None).retryDelay
    requires |net| > retries
    requires forall i :: 0 <= i < |net| ==> ServerError(net[i])
    ensures var t := Run(retries, retryDelay, net, 0, []);
      && net[retries].Resp?
      && t.attempts == 4
      && t.delays == [1, 2, 3]
      && t.outcome == ErrorFromBody(net[retries].status, net[retries].parsed)
  {
    ServerErrorsExhaustRetries(retries, retryDelay, net, 0, []);
    RunBounds(retries, retryDelay, net, 0, []);
    var t := Run(retries, retryDelay, net, 0, []);
    assert t.delays[0] == 1 && t.delays[1] == 2 && t.delays[2] == 3;
  }

  /** The kwargs `post`, `put` and `patch` pass on: `data` and `json` only when given. */
  method BodyKwargs(data: Option<Json>, jsonData: Option<Json>) returns (kwargs: map<string, Option<Json>>)
    ensures kwargs.Keys <= {"data", "json"}
    ensures "data" in kwargs <==> data.Some?
    ensures "json" in kwargs <==> jsonData.Some?
    ensures "data" in kwargs ==> kwargs["data"] == data
    ensures "json" in kwargs ==> kwargs["json"] == jsonData
  {
    kwargs := map[];
    if data.Some? {
      kwargs := kwargs["data" := data];
    }
    if jsonData.Some? {
      kwargs := kwargs["json" := jsonData];
    }
  }

  /** ApiClient: its configuration and the session's default headers and timeout. */
  class ApiClient {
    var config: Config
    var sessionHeaders: map<string, string>
    var sessionTimeout: int

    /** Requests are JSON, and a truthy key is always sent as a bearer token. */
    ghost predicate Valid()
      reads this
    {
      && "Content-Type" in sessionHeaders
      && sessionHeaders["Content-Type"] == "application/json"
      && (Truthy(config.apiKey) ==>
            "Authorization" in sessionHeaders
            && sessionHeaders["Authorization"] == "Bearer " + config.apiKey.value)
    }

    /**
     * `sessionDefaults` are the headers a fresh requests.Session carries;
     * the constructor's own headers are merged over them.
     */
    constructor (config: Config, sessionDefaults: map<string, string>)
      ensures this.config == config && sessionTimeout == config.timeout
      ensures sessionHeaders == sessionDefaults + ConstructionHeaders(config.apiKey)
      ensures "Authorization" in sessionHeaders <==>
        Truthy(config.apiKey) || "Authorization" in sessionDefaults
      ensures Valid()
    {
      this.config := config;
      sessionTimeout := config.timeout;
      var headers := map["Content-Type" := "application/json"];
      if Truthy(config.apiKey) {
        headers := headers["Authorization" := "Bearer " + config.apiKey.value];
      }
      sessionHeaders := sessionDefaults + headers;
    }

    /**
     * `_make_request`: one attempt per network answer, at most retries + 1,
     * each sent with the session headers (so, on a valid client, as JSON and
     * with the bearer token of a truthy key); ends as `Run` says.
     */
    method MakeRequest(verb: string, url: string, kwargs: map<string, Option<Json>>, net: seq<Attempt>)
      returns (outcome: Outcome, sent: seq<Request>, delays: seq<int>)
      requires |net| > config.retries
      ensures Trace(outcome, |sent|, delays) == Run(config.retries, config.retryDelay, net, 0, [])
      ensures forall q :: q in sent ==> q == Request(verb, config.baseUrl, url, sessionHeaders, kwargs)
      ensures Valid() ==> forall q :: q in sent ==>
        && "Content-Type" in q.headers && q.headers["Content-Type"] == "application/json"
        && (Truthy(config.apiKey) ==>
              "Authorization" in q.headers && q.headers["Authorization"] == "Bearer " + config.apiKey.value)
    {
      var request := Request(verb, config.baseUrl, url, sessionHeaders, kwargs);
      var retries, retryDelay := config.retries, config.retryDelay;
      sent, delays := [], [];
      var attempt: nat := 0;
      while attempt < retries + 1
        invariant attempt == 0 || attempt <= retries + 1
        invariant |sent| == attempt
        invariant forall q :: q in sent ==> q == request
        invariant Run(retries, retryDelay, net, attempt, delays) == Run(retries, retryDelay, net, 0, [])
        decreases retries + 1 - attempt
      {
        sent := sent + [request];
        var delay := retryDelay * (attempt + 1);
        match net[attempt] {
          case Transport(msg) =>
            if attempt == retries {
              outcome := Raised(ApiError(JStr(msg), 0, JStr("NETWORK_ERROR"), JNull));
              return;
            }
            var sleep := Sleep(delay);
            if sleep.Finish? {
              outcome := sleep.outcome;
              return;
            }
            delays := delays + [delay];
          case Resp(status, headers, text, parsed) =>
            if status >= 500 && attempt < retries {
              var sleep := Sleep(delay);
              if sleep.Finish? {
                outcome := sleep.outcome;
                return;
              }
              delays := delays + [delay];
            } else if !RequestsOk(status) {
              outcome := ErrorFromBody(status, parsed);
              return;
            } else {
              var data := if parsed.Some? then JsonData(parsed.value) else TextData(text);
              outcome := Returned(ApiResponse(data, status, headers, true));
              return;
            }
        }
        attempt := attempt + 1;
      }
      outcome := ReturnedNone;
    }

    method Get(url: string, params: Option<Json>, net: seq<Attempt>)
      returns (outcome: Outcome, sent: seq<Request>, delays: seq<int>)
      requires |net| > config.retries
      ensures Trace(outcome, |sent|, delays) == Run(config.retries, config.retryDelay, net, 0, [])
      ensures forall q :: q in sent ==>
        q == Request("GET", config.baseUrl, url, sessionHeaders, map["params" := params])
    {
      outcome, sent, delays := MakeRequest("GET", url, map["params" := params], net);
    }

    method Post(url: string, data: Option<Json>, jsonData: Option<Json>, net: seq<Attempt>)
      returns (outcome: Outcome, sent: seq<Request>, delays: seq<int>)
      requires |net| > config.retries
      ensures Trace(outcome, |sent|, delays) == Run(config.retries, config.retryDelay, net, 0, [])
      ensures forall q :: q in sent ==>
        && q.verb == "POST" && q.baseUrl == config.baseUrl && q.url == url
        && q.headers == sessionHeaders
        && q.kwargs.Keys <= {"data", "json"}
        && ("data" in q.kwargs <==> data.Some?) && ("json" in q.kwargs <==> jsonData.Some?)
        && ("data" in q.kwargs ==> q.kwargs["data"] == data)
        && ("json" in q.kwargs ==> q.kwargs["json"] == jsonData)
    {
      var kwargs := BodyKwargs(data, jsonData);
      outcome, sent, delays := MakeRequest("POST", url, kwargs, net);
    }

    method Put(url: string, data: Option<Json>, jsonData: Option<Json>, net: seq<Attempt>)
      returns (outcome: Outcome, sent: seq<Request>, delays: seq<int>)
      requires |net| > config.retries
      ensures Trace(outcome, |sent|, delays) == Run(config.retries, config.retryDelay, net, 0, [])
      ensures forall q :: q in sent ==>
        && q.verb == "PUT" && q.baseUrl == config.baseUrl && q.url == url
        && q.headers == sessionHeaders
        && q.kwargs.Keys <= {"data", "json"}
        && ("data" in q.kwargs <==> data.Some?) && ("json" in q.kwargs <==> jsonData.Some?)
        && ("data" in q.kwargs ==> q.kwargs["data"] == data)
        && ("json" in q.kwargs ==> q.kwargs["json"] == jsonData)
    {
      var kwargs := BodyKwargs(data, jsonData);
      outcome, sent, delays := MakeRequest("PUT", url, kwargs, net);
    }

    method Patch(url: string, data: Option<Json>, jsonData: Option<Json>, net: seq<Attempt>)
      returns (outcome: Outcome, sent: seq<Request>, delays: seq<int>)
      requires |net| > config.retries
      ensures Trace(outcome, |sent|, delays) == Run(config.retries, config.retryDelay, net, 0, [])
      ensures forall q :: q in sent ==>
        && q.verb == "PATCH" && q.baseUrl == config.baseUrl && q.url == url
        && q.headers == sessionHeaders
        && q.kwargs.Keys <= {"data", "json"}
        && ("data" in q.kwargs <==> data.Some?) && ("json" in q.kwargs <==> jsonData.Some?)
        && ("data" in q.kwargs ==> q.kwargs["data"] == data)
        && ("json" in q.kwargs ==> q.kwargs["json"] == jsonData)
    {
      var kwargs := BodyKwargs(data, jsonData);
      outcome, sent, delays := MakeRequest("PATCH", url, kwargs, net);
    }

    method Delete(url: string, net: seq<Attempt>)
      returns (outcome: Outcome, sent: seq<Request>, delays: seq<int>)
      requires |net| > config.retries
      ensures Trace(outcome, |sent|, delays) == Run(config.retries, config.retryDelay, net, 0, [])
      ensures forall q :: q in sent ==>
        q == Request("DELETE", config.baseUrl, url, sessionHeaders, map[])
    {
      outcome, sent, delays := MakeRequest("DELETE", url, map[], net);
    }

    /** Replaces the key and the session's Authorization header, even for an empty key. */
    method SetApiKey(apiKey: string)
      modifies this
      ensures config == old(config).(apiKey := Some(apiKey))
      ensures sessionHeaders == old(sessionHeaders)["Authorization" := "Bearer " + apiKey]
      ensures sessionTimeout == old(sessionTimeout)
      ensures old(Valid()) ==> Valid()
    {
      config := config.(apiKey := Some(apiKey));
      sessionHeaders := sessionHeaders["Authorization" := "Bearer " + apiKey];
    }

    method SetBaseUrl(baseUrl: string)
      modifies this
      ensures config == old(config).(baseUrl := baseUrl)
      ensures sessionHeaders == old(sessionHeaders) && sessionTimeout == old(sessionTimeout)
      ensures old(Valid()) ==> Valid()
    {
      config := config.(baseUrl := baseUrl);
    }
  }

  /**
   * The authentication test: a client built with key "test-api-key" sends
   * one GET carrying "Bearer test-api-key" and gets a successful response.
   */
  method AuthenticatedGet(sessionDefaults: map<string, string>, headers: map<string, string>)
    returns (outcome: Outcome, sent: seq<Request>)
    ensures |sent| == 1
    ensures "Authorization" in sent[0].headers && sent[0].headers["Authorization"] == "Bearer test-api-key"
    ensures outcome.Returned? && outcome.response.success && outcome.response.status == 200
    ensures outcome.response.data == JsonData(JObj(map["message" := JStr("success")]))
  {
    var client := new ApiClient(DefaultConfig("https://api.example.com", Some("test-api-key")), sessionDefaults);
    assert Truthy(client.config.apiKey);
    var bearer := client.sessionHeaders["Authorization"];
    assert bearer == "Bearer test-api-key";
    var body := JObj(map["message" := JStr("success")]);
    var net := [Resp(200, headers, "{\"message\": \"success\"}", Some(body)), Transport(""), Transport(""), Transport("")];
    SuccessAtOnce(client.config.retries, client.config.retryDelay, net);
    var delays;
    outcome, sent, delays := client.Get("/test", None, net);
    assert sent[0] in sent;
  }

  /** After set_base_url, the next request goes to the new base. */
  method RequestAfterSetBaseUrl(client: ApiClient, baseUrl: string, url: string, net: seq<Attempt>)
    returns (sent: seq<Request>)
    requires client.config.retries >= 0 && |net| > client.config.retries
    modifies client
    ensures |sent| >= 1
    ensures forall q :: q in sent ==> q.baseUrl == baseUrl
  {
    client.SetBaseUrl(baseUrl);
    NeverNoneWithRetries(client.config.retries, client.config.retryDelay, net);
    RunBounds(client.config.retries, client.config.retryDelay, net, 0, []);
    var outcome, delays;
    outcome, sent, delays := client.Get(url, None, net);
  }
}
