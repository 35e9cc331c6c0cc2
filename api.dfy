/** The HTTP client of src/services/api.ts: the response interceptor's bounded
    retry with geometric back-off, and the unwrapping of `{success, message,
    data}` envelopes. The network is a parameter: `net(k)` is the reply to the
    attempt made when the retry counter reads `k`. Waiting is not modelled;
    each retry's delay is returned as a value. */
module Api {
  import opened Wrappers
  import opened JsValues

  /** `RetryMeta`: every field optional. */
  datatype RetryMeta = RetryMeta(retry: Option<int>, retryDelayMs: Option<int>, retryOnStatuses: Option<seq<int>>)

  const DefaultRetryDelayMs := 500
  const DefaultRetryStatuses: seq<int> := [408, 429, 500, 502, 503, 504]

  /** `config.retryMeta || {}` followed by the three `??` defaults. */
  function MaxRetry(meta: Option<RetryMeta>): int {
    if meta.Some? then meta.value.retry.GetOr(0) else 0
  }

  function RetryDelayMs(meta: Option<RetryMeta>): int {
    if meta.Some? then meta.value.retryDelayMs.GetOr(DefaultRetryDelayMs) else DefaultRetryDelayMs
  }

  function RetryStatuses(meta: Option<RetryMeta>): seq<int> {
    if meta.Some? then meta.value.retryOnStatuses.GetOr(DefaultRetryStatuses) else DefaultRetryStatuses
  }

  function Pow2(n: nat): (r: nat)
    ensures r >= 1
  {
    if n == 0 then 1 else 2 * Pow2(n - 1)
  }

  /** `canRetry`: the counter is below the maximum, and either there is no
      HTTP status (transport failure or timeout; a status of 0 is falsy too)
      or the status is in the list. */
  predicate CanRetry(retryCount: int, maxRetry: int, status: Option<int>, statuses: seq<int>) {
    retryCount < maxRetry && (status.None? || status.value == 0 || status.value in statuses)
  }

  /** The wait before the retry that raises the counter to `n`. */
  function RetryDelay(meta: Option<RetryMeta>, n: nat): int
    requires n >= 1
  {
    RetryDelayMs(meta) * Pow2(n - 1)
  }

  /** A reply: a 2xx response body, or an error with its optional status and
      the body of the error response (undefined when there was none). */
  datatype Reply = Ok(body: Json) | HttpError(status: Option<int>, errorBody: Json)

  /** What the interceptor does with an error. */
  datatype Decision = RetryAfter(delayMs: int) | Reject

  /** The per-request configuration the interceptor sees: the retry metadata
      the caller attached and the `__retryCount` it maintains (0 while
      undefined). */
  class RequestConfig {
    const retryMeta: Option<RetryMeta>
    var retryCount: nat

    constructor (retryMeta: Option<RetryMeta>)
      ensures this.retryMeta == retryMeta && retryCount == 0
    {
      this.retryMeta := retryMeta;
      retryCount := 0;
    }
  }

  /** The response interceptor's error handler. An error without a config is
      rejected as it is; otherwise a retry raises the counter by one and waits
      `retryDelayMs * 2^(counter - 1)`. */
  method OnResponseError(status: Option<int>, config: RequestConfig?) returns (d: Decision)
    modifies config
    ensures config == null ==> d == Reject
    ensures config != null ==>
      if CanRetry(old(config.retryCount), MaxRetry(config.retryMeta), status, RetryStatuses(config.retryMeta))
      then config.retryCount == old(config.retryCount) + 1 && d == RetryAfter(RetryDelay(config.retryMeta, config.retryCount))
      else config.retryCount == old(config.retryCount) && d == Reject
  {
    d := Reject;
    if config != null {
      var meta := config.retryMeta;
      var maxRetry := MaxRetry(meta);
      if CanRetry(config.retryCount, maxRetry, status, RetryStatuses(meta)) {
        config.retryCount := config.retryCount + 1;
        d := RetryAfter(RetryDelayMs(meta) * Pow2(config.retryCount - 1));
      }
    }
  }

  /** The attempts a request makes from counter `count` on: the final reply
      and the delays waited before each retry. */
  datatype Trace = Trace(last: Reply, delays: seq<int>)

  function RetriesLeft(meta: Option<RetryMeta>, count: nat): nat {
    if MaxRetry(meta) > count then MaxRetry(meta) - count else 0
  }

  function Run(meta: Option<RetryMeta>, count: nat, net: nat -> Reply): Trace
    decreases RetriesLeft(meta, count)
  {
    var reply := net(count);
    if reply.Ok? then Trace(reply, [])
    else if CanRetry(count, MaxRetry(meta), reply.status, RetryStatuses(meta)) then
      var rest := Run(meta, count + 1, net);
      Trace(rest.last, [RetryDelay(meta, count + 1)] + rest.delays)
    else Trace(reply, [])
  }

  /** Sending a request: the first attempt, then `api(config)` again from the
      interceptor for as long as it decides to retry. */
  method Dispatch(config: RequestConfig, net: nat -> Reply) returns (reply: Reply, delays: seq<int>)
    modifies config
    ensures Trace(reply, delays) == Run(config.retryMeta, old(config.retryCount), net)
    ensures config.retryCount == old(config.retryCount) + |delays|
    decreases RetriesLeft(config.retryMeta, config.retryCount)
  {
    reply := net(config.retryCount);
    delays := [];
    if reply.HttpError? {
      var d := OnResponseError(reply.status, config);
      if d.RetryAfter? {
        var rest;
        reply, rest := Dispatch(config, net);
        delays := [d.delayMs] + rest;
      }
    }
  }

  /** The counter never passes the maximum, so a request is sent at most
      `maxRetry + 1` times, and the last reply is the one to the last attempt. */
  lemma {:induction false} RunBounded(meta: Option<RetryMeta>, count: nat, net: nat -> Reply)
    ensures |Run(meta, count, net).delays| <= RetriesLeft(meta, count)
    ensures Run(meta, count, net).last == net(count + |Run(meta, count, net).delays|)
    decreases RetriesLeft(meta, count)
  {
    var reply := net(count);
    if reply.HttpError? && CanRetry(count, MaxRetry(meta), reply.status, RetryStatuses(meta)) {
      RunBounded(meta, count + 1, net);
    }
  }

  /** The delay before the n-th retry is `retryDelayMs * 2^(n-1)`. */
  lemma {:induction false} RunDelaysGeometric(meta: Option<RetryMeta>, count: nat, net: nat -> Reply)
    ensures forall k :: 0 <= k < |Run(meta, count, net).delays| ==>
              Run(meta, count, net).delays[k] == RetryDelayMs(meta) * Pow2(count + k)
    decreases RetriesLeft(meta, count)
  {
    var reply := net(count);
    if reply.HttpError? && CanRetry(count, MaxRetry(meta), reply.status, RetryStatuses(meta)) {
      RunDelaysGeometric(meta, count + 1, net);
      var ds := Run(meta, count, net).delays;
      var rest := Run(meta, count + 1, net).delays;
      assert ds == [RetryDelay(meta, count + 1)] + rest;
      forall k | 0 <= k < |ds| ensures ds[k] == RetryDelayMs(meta) * Pow2(count + k) {
        if k > 0 {
          assert ds[k] == rest[k - 1];
          assert 0 <= k - 1 < |rest|;
          assert rest[k - 1] == RetryDelayMs(meta) * Pow2(count + 1 + (k - 1));
        } else {
          assert ds[0] == RetryDelay(meta, count + 1);
        }
      }
    }
  }

  /** An attempt whose error the interceptor would retry (counter permitting). */
  predicate Retryable(r: Reply, meta: Option<RetryMeta>) {
    r.HttpError? && (r.status.None? || r.status.value == 0 || r.status.value in RetryStatuses(meta))
  }

  /** With retryable failures on attempts `count .. f-1` and a reply on
      attempt `f` that is a success or is not retryable, the request retries
      `min(f - count, retries left)` times. */
  lemma {:induction false} RunAttempts(meta: Option<RetryMeta>, count: nat, f: nat, net: nat -> Reply)
    requires count <= f
    requires forall i :: count <= i < f ==> Retryable(net(i), meta)
    requires !Retryable(net(f), meta)
    ensures |Run(meta, count, net).delays| == if f - count < RetriesLeft(meta, count) then f - count else RetriesLeft(meta, count)
    decreases RetriesLeft(meta, count)
  {
    if count < f && count < MaxRetry(meta) {
      RunAttempts(meta, count + 1, f, net);
    }
  }

  /** Without `retryMeta.retry` a request is sent once and its error rejected. */
  lemma NoRetryByDefault(meta: Option<RetryMeta>, net: nat -> Reply)
    requires meta.None? || meta.value.retry.None?
    ensures Run(meta, 0, net) == Trace(net(0), [])
  {
  }

  /** Client errors such as 401 and 404 are not in the default list and are
      never retried; 503 is, when a retry is configured. */
  lemma DefaultStatusList(count: int, maxRetry: int)
    ensures !CanRetry(count, maxRetry, Some(401), DefaultRetryStatuses)
    ensures !CanRetry(count, maxRetry, Some(404), DefaultRetryStatuses)
    ensures count < maxRetry ==> CanRetry(count, maxRetry, Some(503), DefaultRetryStatuses)
    ensures count < maxRetry ==> CanRetry(count, maxRetry, None, DefaultRetryStatuses)
  {
  }

  // ----- envelope unwrapping -----

  /** The error `unwrapResponse` throws: its message and `response.data`. */
  datatype UnwrapError = RequestFailed(message: Json, responseData: Json)

  /** `payload && typeof payload === 'object' && 'success' in payload`. */
  predicate HasContractShape(payload: Json) {
    payload.JObject? && "success" in payload.fields
  }

  function UnwrapResponse(payload: Json): (r: Result<Json, UnwrapError>)
    ensures !HasContractShape(payload) ==> r == Success(payload)
    ensures HasContractShape(payload) && payload.fields["success"] == JBool(false) ==>
      var m := Field(payload.fields, "message");
      r == Failure(RequestFailed(if Truthy(m) then m else JStr("Request failed"), payload))
    ensures HasContractShape(payload) && payload.fields["success"] != JBool(false) ==>
      r == Success(if "data" in payload.fields then payload.fields["data"] else payload)
  {
    if HasContractShape(payload) then
      var fields := payload.fields;
      if fields["success"] == JBool(false) then
        var message := Field(fields, "message");
        Failure(RequestFailed(if Truthy(message) then message else JStr("Request failed"), payload))
      else if "data" in fields then Success(fields["data"])
      else Success(payload)
    else Success(payload)
  }

  /** A server envelope, as an endpoint using the contract sends it. */
  function Envelope(success: bool, message: Option<string>, data: Option<Json>): Json {
    JObject(map["success" := JBool(success)]
      + (if message.Some? then map["message" := JStr(message.value)] else map[])
      + (if data.Some? then map["data" := data.value] else map[]))
  }

  /** Unwrapping inverts wrapping: a successful envelope yields its data, a
      failed one the server's message (or 'Request failed' when it is absent
      or empty) together with the whole envelope. */
  lemma UnwrapEnvelope(message: Option<string>, data: Json)
    ensures UnwrapResponse(Envelope(true, message, Some(data))) == Success(data)
    ensures UnwrapResponse(Envelope(true, message, None)) == Success(Envelope(true, message, None))
    ensures var env := Envelope(false, message, Some(data));
            UnwrapResponse(env) == Failure(RequestFailed(
              if message.Some? && message.value != "" then JStr(message.value) else JStr("Request failed"), env))
  {
    var env := Envelope(false, message, Some(data));
    assert "success" in env.fields && env.fields["success"] == JBool(false);
    assert message.Some? ==> Field(env.fields, "message") == JStr(message.value);
    assert message.None? ==> Field(env.fields, "message") == JUndefined;
  }

  /** The outcome of `http.get`/`post`/`put`/`delete`. */
  datatype HttpFailure = Transport(status: Option<int>, errorBody: Json) | Rejected(error: UnwrapError)

  /** The request, with its retries, followed by `.then(unwrapResponse)`. */
  method Request(config: RequestConfig, net: nat -> Reply) returns (r: Result<Json, HttpFailure>, delays: seq<int>)
    modifies config
    ensures var t := Run(config.retryMeta, old(config.retryCount), net);
      && delays == t.delays
      && r == match t.last
              case Ok(body) => (match UnwrapResponse(body)
                                case Success(v) => Success(v)
                                case Failure(e) => Failure(Rejected(e)))
              case HttpError(status, errorBody) => Failure(Transport(status, errorBody))
  {
    var reply;
    reply, delays := Dispatch(config, net);
    match reply
    case Ok(body) =>
      var u := UnwrapResponse(body);
      r := if u.Success? then Success(u.value) else Failure(Rejected(u.error));
    case HttpError(status, errorBody) =>
      r := Failure(Transport(status, errorBody));
  }

  /** `err?.response?.data?.message`: the body of an HTTP error response, or
      the envelope an unwrap error carries, may hold a message. */
  function ServerMessage(f: HttpFailure): Json {
    match f
    case Transport(_, body) => Prop(body, "message")
    case Rejected(e) => Prop(e.responseData, "message")
  }

  /** `err?.response?.data?.message || fallback`, as the pages display it. */
  function FailureText(f: HttpFailure, fallback: string): (t: string)
    ensures Truthy(ServerMessage(f)) ==> t == ToStr(ServerMessage(f))
    ensures !Truthy(ServerMessage(f)) ==> t == fallback
  {
    var m := ServerMessage(f);
    if Truthy(m) then ToStr(m) else fallback
  }
}
