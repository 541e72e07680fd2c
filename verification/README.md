# StrellerMinds SDK clients and course-achievement contract, in Dafny

This project models three small parts of the StrellerMinds backend.

- **The course-achievement contract** (Soroban, Rust). It is an append-only list of `Achievement` records kept in instance storage under the key `"achievements"`.
  - `issue` appends a record numbered one past the current count.
  - `verify` asks whether a record with a given id belongs to a given user.
  - `get_user_achievements` lists one user's records in issue order.
  - The model is the class `CourseAchievementsContract`. Its field `stored` is `None` until the first issue, and an absent entry is read as the empty list.
- **The Python SDK client** (`ApiClient`). It covers the session headers built at construction, the retry and error-normalisation loop of `_make_request`, the verb wrappers with their kwargs, and `set_api_key` / `set_base_url`.
- **The Go SDK client** (`ApiClient`). It covers the default normalisation of `NewApiClient`, the retry loop of `makeRequest` with its copy of the response headers, the verb wrappers, and `SetApiKey` / `SetBaseURL`.

The network is abstracted away. Each client call takes a sequence `net` holding the network's answer to each attempt. An answer is either a transport failure or a response, given as a status, its headers, the raw text and the parsed JSON (or `None` when the text is not JSON). Each call returns three things:
- how it ends;
- the requests it sent, one per attempt;
- the sleeps it asked for (`delays`), which stand for the calls to `time.sleep` / `time.Sleep`.

Each client's loop is a `while` loop in `MakeRequest`. It is proved equal to a specification function `Run`, which takes a three-way decision after each attempt (`Decide`: finish, retry after a delay, or, in Go, break). In Python, the retry goes through `time.sleep` (`Sleep`). It first converts the delay to int64 nanoseconds and raises `OverflowError` when that does not fit, that is beyond 9223372036 seconds either way (`RaisedOverflowError`). It then raises `ValueError` for a negative delay (`RaisedValueError`). Neither exception is a `requests.RequestException`, so both leave `_make_request`. Go's `time.Sleep` returns at once on a negative duration. The lemmas about `Run` give:
- the bound on attempts;
- the linear backoff;
- the fact that every attempt but the last was a retry;
- the scenarios from the SDK tests.

`ClientComparison` compares the two loops. Its limits:
- Both clients run with the same raw retry count, and it must be non-negative. With a negative count, Python returns `None` and Go returns its wrapped error.
- Both are set to the same pause: `d` seconds in Python, and `d` seconds' worth of nanoseconds (`d * Second`) in Go. Go's sleeps are then Python's, read in nanoseconds. The comparison is about the loops, so the constructors' handling of zero is outside it: Go's constructor rewrites a zero count to 3 and a zero delay to one second, and Python keeps both.
- Both sequences of answers must agree: each attempt is a transport failure in both, or the same status below 600 in both.

Under those conditions, when every sleep fits (0 <= d and d * retries <= 9223372036), the two clients make the same attempts with the same pauses. Otherwise, Python raises at the first sleep `time.sleep` refuses, while Go carries on.

Modules: `Common` (Option, Json), `CourseAchievements`, `PyClient`, `GoClient`, `ClientComparison`.

Behaviour of the code worth noting:
- Python's success test is requests' `Response.ok`, which is false exactly for statuses 400–599. A status of 600 or more is therefore retried like a 5xx, but it is returned as a success on the last attempt.
- Neither client checks that the retry count is non-negative. In Python, a negative `retries` makes no attempt and returns `None` (`ReturnedNone`). In Go, only a zero `Retries` is rewritten to 3, so a negative one makes no attempt and returns the wrapped error with a nil cause.
- Go returns a 3xx response with `Success == false` and no error.
- In Go, exhausted transport failures give a generic wrapped error, not an `ApiError` with `NETWORK_ERROR`.
- In Python, an error body that parses to JSON other than an object makes `.get` raise `AttributeError` (`RaisedAttributeError`). Python takes `message` and `code` whatever their JSON type. Go takes them only when they are strings.
- The Python constructor sets `session.timeout`, an attribute that `requests.Session` never reads, since requests takes a timeout per call. The Python client therefore sends its requests with no timeout. The model records the value in `sessionTimeout` and nothing uses it.

## Model

| member | source | states |
|---|---|---|
| CourseAchievements.ForUser | src/blockchain/soroban/contracts/course_achievements.rs:71-81 | the result holds exactly the records of `s` that belong to the user, and is no longer than `s` |
| CourseAchievements.ForUserKeepsIssueOrder | src/blockchain/soroban/contracts/course_achievements.rs:75-79 | when ids are sequential, a user's records come out in strictly increasing id order, i.e. in issue order |
| CourseAchievements.VerifyIsIndexLookup | src/blockchain/soroban/contracts/course_achievements.rs:54-62 | when ids are sequential, a matching record exists iff 1 <= id <= n and record id-1 belongs to the user |
| CourseAchievements.ForUserAppend | src/blockchain/soroban/contracts/course_achievements.rs:75-79 | appending a record extends its owner's list by that record and leaves every other user's list unchanged |
| CourseAchievements.ForUserPrefix | src/blockchain/soroban/contracts/course_achievements.rs:75-79 | one more stored record of the scan extends the result by that record exactly when it belongs to the user |
| CourseAchievements.CourseAchievementsContract.constructor | src/blockchain/soroban/contracts/course_achievements.rs:28 | a fresh instance has no storage entry, reads as the empty list, and satisfies the id invariant |
| CourseAchievements.CourseAchievementsContract.Achievements | src/blockchain/soroban/contracts/course_achievements.rs:28 | the stored list, an absent storage entry read as the empty list (`unwrap_or(Vec::new)`) |
| CourseAchievements.CourseAchievementsContract.Issue | src/blockchain/soroban/contracts/course_achievements.rs:27-45 | always `Ok`; appends exactly one record with id old length + 1 and the given course, user, URI and timestamp; returns that stored record; earlier records are unchanged; the id invariant is preserved |
| CourseAchievements.CourseAchievementsContract.Verify | src/blockchain/soroban/contracts/course_achievements.rs:54-63 | always `Ok`; true iff some stored record has both the id and the user; storage is unchanged |
| CourseAchievements.CourseAchievementsContract.GetUserAchievements | src/blockchain/soroban/contracts/course_achievements.rs:71-81 | always `Ok`; exactly the user's stored records in issue order (empty for an unknown user); storage is unchanged |
| CourseAchievements.IssueThenVerify | src/blockchain/soroban/contracts/test.rs:6-50 | the first issued id is 1 and carries the given fields; verify accepts the owner and rejects a wrong user and id 999 |
| CourseAchievements.IssueThenList | src/blockchain/soroban/contracts/test.rs:52-79 | after two issues for user 1 and one for user 2, the lists have 2, 1 and 0 records, each with the right owner |
| PyClient.ConstructionHeaders | src/sdk/client.py:46-50 | Content-Type is application/json; Authorization is present iff the key is truthy, and is then "Bearer " + key |
| PyClient.RequestsOk | src/sdk/client.py:66 | requests' `Response.ok`: false for every 4xx and 5xx status, true for every other status (including 1xx-3xx and 600 or more) |
| PyClient.DefaultConfig | src/sdk/client.py:28-34 | the given base URL and key, timeout 30, retries 3, retry_delay 1 and debug off |
| PyClient.ErrorFromBody | src/sdk/client.py:66-78 | the error carries the response status; message is the body's, else "Request failed with status N"; code is the body's, else UNKNOWN_ERROR; details is the whole body, or {} when it does not parse; a non-object body raises AttributeError |
| PyClient.Sleep | src/sdk/client.py:63 | `time.sleep`: sleeps exactly for a delay from 0 to 9223372036 s; raises OverflowError for a delay beyond that either way, checked first, and ValueError for any other negative delay |
| PyClient.SuccessResponse | src/sdk/client.py:80-90 | success is true, status and headers are the response's, and data is the parsed JSON, falling back to the raw text |
| PyClient.Decide | src/sdk/client.py:62-95 | the loop goes on to sleep iff (a response with status >= 500, or a transport failure) and attempts remain; the step is then `time.sleep(retry_delay*(attempt+1))`, a retry exactly when that delay is between 0 and the int64-nanosecond limit, and a retry only for retry_delay >= 0; ValueError only for a negative retry_delay; a transport failure on the last attempt raises ApiError(msg, 0, NETWORK_ERROR); any other response is returned if ok and raised otherwise |
| PyClient.Run | src/sdk/client.py:55-95 | the loop from attempt k: it makes at least one more attempt exactly when attempts remain (k <= retries) |
| PyClient.RunBounds | src/sdk/client.py:55-95 | at most retries + 1 attempts; one sleep between consecutive attempts, the j-th being retry_delay*(j+1), each accepted by `time.sleep` (0 to 9223372036 s); the call returns None only when no attempt is left; ValueError only with a negative retry_delay, which makes no sleep at all |
| PyClient.RunStopsAtFirstFinish | src/sdk/client.py:55-95 | every attempt but the last decided to retry, and the call ends with the last attempt's decision |
| PyClient.NeverNoneWithRetries | src/sdk/client.py:55 | with retries >= 0 the call always returns or raises, after at most retries + 1 attempts |
| PyClient.ClientErrorRaisedAtOnce | src/sdk/client.py:62-78 | a 4xx first answer is raised after exactly one attempt and no sleep |
| PyClient.SuccessAtOnce | src/sdk/client.py:80-90 | a 2xx first answer is returned after exactly one attempt and no sleep, as the success response built from it |
| PyClient.ValidationErrorExample | src/sdk/test_client.py:30-47 | a 400 VALIDATION_ERROR body gives an error with status 400, code VALIDATION_ERROR and message "Bad Request" after one attempt |
| PyClient.ServerErrorsExhaustRetries | src/sdk/client.py:62-78 | 5xx on every attempt: when every sleep fits (retry_delay >= 0 and retry_delay*retries <= 9223372036), retries + 1 attempts and the ApiError built from the last answer; with a negative retry_delay, whatever `time.sleep` raises at the first sleep; with a positive one whose last sleep does not fit, OverflowError |
| PyClient.ServerErrorThenSuccess | src/sdk/client.py:62-90 | a 5xx answer followed by a 200: with 0 <= retry_delay <= 9223372036, two attempts, one sleep of retry_delay, and a successful 200 response; otherwise, after one attempt, the ValueError or OverflowError `time.sleep` raises |
| PyClient.TransportFailuresExhaustRetries | src/sdk/client.py:92-95 | transport failures on every attempt: when every sleep fits, retries + 1 attempts and ApiError(last message, 0, NETWORK_ERROR); with a negative retry_delay, whatever `time.sleep` raises at the first sleep; with a positive one whose last sleep does not fit, OverflowError |
| PyClient.DefaultConfigServerErrors | src/sdk/client.py:31-33 | with the default retries 3 and retry_delay 1, a server answering 5xx every time gets four attempts, sleeps of 1, 2 and 3, and the fourth answer's ApiError |
| PyClient.BodyKwargs | src/sdk/client.py:100-105 | kwargs has `data` iff data is not None and `json` iff json_data is not None, with the given values, and no other key |
| PyClient.ApiClient.constructor | src/sdk/client.py:38-50 | the config is stored; the session timeout is the config timeout; the session headers are its defaults overridden by the construction headers; Authorization is present iff the key is truthy or the defaults had one |
| PyClient.ApiClient.MakeRequest | src/sdk/client.py:52-95 | outcome, attempt count and sleeps are those of `Run`; every attempt sends the method, the base URL, the path, the session headers and the kwargs; on a valid client every request is JSON and carries "Bearer " + key for a truthy key |
| PyClient.ApiClient.Get | src/sdk/client.py:97-98 | forwards to `_make_request` with method GET and kwargs {params} |
| PyClient.ApiClient.Post | src/sdk/client.py:100-106 | forwards with method POST; kwargs has only `data` and `json`, each present iff given, with the given value |
| PyClient.ApiClient.Put | src/sdk/client.py:108-114 | forwards with method PUT; kwargs has only `data` and `json`, each present iff given, with the given value |
| PyClient.ApiClient.Patch | src/sdk/client.py:116-122 | forwards with method PATCH; kwargs has only `data` and `json`, each present iff given, with the given value |
| PyClient.ApiClient.Delete | src/sdk/client.py:124-125 | forwards with method DELETE and no kwargs |
| PyClient.ApiClient.SetApiKey | src/sdk/client.py:127-129 | the config key becomes the new key and the session's Authorization becomes "Bearer " + key (even for ""); nothing else changes |
| PyClient.ApiClient.SetBaseUrl | src/sdk/client.py:131-132 | only the config's base URL changes |
| PyClient.AuthenticatedGet | src/sdk/test_client.py:15-28 | with key test-api-key, one GET is sent carrying "Bearer test-api-key", and a 200 JSON answer returns success with that data |
| PyClient.RequestAfterSetBaseUrl | src/sdk/client.py:131-132 | after set_base_url, every request of the next call goes to the new base |
| GoClient.Normalize | src/sdk/client.go:46-56 | zero Timeout, Retries and RetryDelay become 30s, 3 and 1s; non-zero values and the other fields are kept; none of the three is zero afterwards |
| GoClient.NormalizeIdempotent | src/sdk/client.go:46-56 | normalising twice equals normalising once |
| GoClient.RequestHeaders | src/sdk/client.go:87-90 | Content-Type is application/json; Authorization is present iff ApiKey != "", and is then "Bearer " + ApiKey |
| GoClient.CopyHeaders | src/sdk/client.go:112-117 | the copy has exactly the keys with at least one value, each mapped to its first value |
| GoClient.ErrorFromBody | src/sdk/client.go:119-138 | the error carries the status; message and code are the body's strings, else "Request failed" and UNKNOWN_ERROR; details is the decoded object (empty if none) |
| GoClient.DecodedData | src/sdk/client.go:148-151 | data is the decoded body, or nil when the body is empty or does not decode |
| GoClient.Decide | src/sdk/client.go:96-158 | retry iff attempts remain and the answer is a transport error or status >= 500, with delay RetryDelay*(attempt+1); break iff a transport error comes on the last attempt; status >= 400 otherwise returns the ApiError; status < 400 returns a response with no error and Success == (200 <= status < 300) |
| GoClient.Run | src/sdk/client.go:80-161 | the loop from attempt k: it makes at least one more attempt exactly when attempts remain (k <= Retries) |
| GoClient.RunBounds | src/sdk/client.go:80-161 | at most Retries + 1 attempts; one sleep between consecutive attempts, the j-th being RetryDelay*(j+1); with no attempt left, the wrapped error names the last transport error |
| GoClient.WrappedOnlyAfterTransportError | src/sdk/client.go:96-161 | the generic wrapped error comes out only after Retries + 1 attempts, the last a transport error, and it names Retries + 1 attempts and that error |
| GoClient.NegativeRetriesMakeNoAttempt | src/sdk/client.go:50-52 | a negative Retries survives normalisation, and then no attempt is made and the wrapped error has a nil cause |
| GoClient.RedirectIsNotSuccess | src/sdk/client.go:148-158 | a 3xx answer ends the call after one attempt with a response, no error, and Success == false |
| GoClient.ServerErrorsExhaustRetries | src/sdk/client.go:119-145 | 5xx on every attempt gives Retries + 1 attempts and returns the last answer's ApiError |
| GoClient.ApiClient.constructor | src/sdk/client.go:46-63 | the stored config is the normalised one and the http.Client timeout is its Timeout |
| GoClient.ApiClient.MakeRequest | src/sdk/client.go:65-162 | outcome, attempt count and sleeps are those of `Run`; every attempt sends the method, base URL, endpoint, body and the headers from ApiKey; on a valid client no sleep is of zero length |
| GoClient.ApiClient.Get | src/sdk/client.go:164-166 | every request is GET to BaseURL + endpoint with no body, Content-Type JSON and "Bearer " + ApiKey iff ApiKey is not empty |
| GoClient.ApiClient.Post | src/sdk/client.go:168-170 | every request is POST to BaseURL + endpoint with the body, Content-Type JSON and "Bearer " + ApiKey iff ApiKey is not empty |
| GoClient.ApiClient.Put | src/sdk/client.go:172-174 | every request is PUT to BaseURL + endpoint with the body, Content-Type JSON and "Bearer " + ApiKey iff ApiKey is not empty |
| GoClient.ApiClient.Patch | src/sdk/client.go:176-178 | every request is PATCH to BaseURL + endpoint with the body, Content-Type JSON and "Bearer " + ApiKey iff ApiKey is not empty |
| GoClient.ApiClient.Delete | src/sdk/client.go:180-182 | every request is DELETE to BaseURL + endpoint with no body, Content-Type JSON and "Bearer " + ApiKey iff ApiKey is not empty |
| GoClient.ApiClient.SetApiKey | src/sdk/client.go:184-186 | only the config's ApiKey changes |
| GoClient.ApiClient.SetBaseURL | src/sdk/client.go:188-190 | only the config's BaseURL changes |
| ClientComparison.SameAttemptsAndDelays | src/sdk/client.go:80-161 | on the same answers (statuses below 600), the same non-negative retries and the same pause (seconds in Python, nanoseconds in Go): Python never makes more attempts than Go, and makes fewer exactly when `time.sleep` refused a delay, which cannot happen when every sleep fits; otherwise both make the same attempts with the same pauses, one returns a response iff the other does, and Python raises NETWORK_ERROR iff Go returns its wrapped error |
| ClientComparison.RefusedSleepDiverges | src/sdk/client.py:62-63 | with a retry delay `time.sleep` refuses and a 503 first answer, Python raises after one attempt (ValueError iff the delay is negative and converts, OverflowError iff it does not convert), while Go asks for the same pause in nanoseconds and makes at least one more attempt |

## Left out

- URL joining (`urljoin`, `url.JoinPath`) and Go's "invalid URL" error path are library behaviour. Each sent request records the base URL and the path separately.
- JSON encoding and decoding are left out. The parsed body is given with each answer, numbers are integral, and Go's `json.Marshal` failure path is omitted.
- Go's `http.NewRequest` and `io.ReadAll` failure paths are omitted, as are `defer resp.Body.Close()` inside the loop and the request-body reader being consumed on the first attempt (so a real retry sends an empty body). These are resource and I/O behaviour.
- The sleeps themselves are left out. Only the requested delays are recorded.
- The debug trace lines are left out.
- Converting a plain dict into `ApiClientConfig` (pydantic validation) is left out. The Python constructor takes a typed `Config`.
- The headers a fresh `requests.Session` carries are a constructor parameter. How requests merges and flattens headers is library behaviour, so a response's headers are given already flattened.
- GoClient.ErrorFromBody: it does not tell a nil `errorData` map from an empty one; both are an empty map.
- GoClient.ApiClient.MakeRequest: sleeps are unbounded integers, so the int64 wrap-around of `RetryDelay * (attempt+1)` is not modelled. The promise that a valid client never asks for a zero-length sleep holds only for unbounded integers; in the source, RetryDelay = 2^62 wraps to 0 on the fourth attempt. The same applies to the nanosecond pauses on the Go side of the comparison.
- CourseAchievements.CourseAchievementsContract.Issue: requires fewer than 2^32 - 1 stored records, where the source's `len() as u32 + 1` would overflow.
- The contract's ledger clock is passed in as `timestamp`.
- Soroban's `extend_ttl`, the contract macros, the generated client, and the `Symbol` validity rules are left out. Storage keys and metadata URIs are opaque strings.
- The `NestJSApiSDK` facade, `UsersResource` and the demo programs are pure delegation or glue.
- Concurrent use of the setters is left out.
- PyClient.ApiClient.SetApiKey and PyClient.ApiClient.SetBaseUrl: the Python client keeps the caller's `ApiClientConfig` object by reference (only a dict is copied), so the source's setters also change that object for the caller and for any other client built from it. The model's `Config` is a value, so this aliasing is not captured.
