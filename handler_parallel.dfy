/**
 * The `/run` handler of package `api`: it rejects what is not a POST with a
 * JSON body, converts the millisecond fields, runs the parallel requests and
 * summarises the calls into counts, a flat result per call and an average
 * duration.
 *
 * Reading and decoding the body is an input here (`HttpRequest.payload`),
 * and so is what the network and the clock did during the run.
 */
module Api {
  import opened Optional
  import PH = ParallelHttp
  import opened Multisets
  import Text

  // ---------------------------------------------------------------------
  // 64-bit durations
  // ---------------------------------------------------------------------

  const MinInt64: int := -0x8000_0000_0000_0000
  const MaxInt64: int := 0x7FFF_FFFF_FFFF_FFFF

  /** Go's `int` and `time.Duration`: 64-bit two's complement. */
  type Int64 = x: int | -0x8000_0000_0000_0000 <= x <= 0x7FFF_FFFF_FFFF_FFFF

  /** The 64-bit two's complement value of `x`: congruent to `x`, and `x` itself when it fits. */
  function Wrap64(x: int): (r: Int64)
    ensures (r - x) % 0x1_0000_0000_0000_0000 == 0
    ensures MinInt64 <= x <= MaxInt64 ==> r == x
  {
    (x + 0x8000_0000_0000_0000) % 0x1_0000_0000_0000_0000 - 0x8000_0000_0000_0000
  }

  /** `time.Millisecond` in nanoseconds. */
  const Millisecond: int := 1_000_000

  /** `time.Duration(ms) * time.Millisecond`: exact while the product fits in 64 bits, wrapped beyond. */
  function Milliseconds(ms: Int64): (d: Int64)
    ensures -(MaxInt64 / Millisecond) <= ms <= MaxInt64 / Millisecond ==> d == ms * Millisecond
  {
    Wrap64(ms * Millisecond)
  }

  /**
   * A positive `request_timeout` in the first band past the 64-bit range
   * (its nanoseconds at least 2^63 and below 2^64) wraps to a negative
   * timeout, which the runner refuses.
   */
  lemma MillisecondsWrap(ms: Int64, input: PH.Input, transport: nat -> PH.Transport, start: int, end: int)
    requires 9_223_372_036_855 <= ms <= 18_446_744_073_709
    ensures Milliseconds(ms) < 0
    ensures PH.RunOf(Milliseconds(ms), input, transport, start, end).err == Some(PH.ErrInvalidTimeout)
  {
  }

  /**
   * Further out the sign of the wrapped value cycles: one millisecond past
   * the first band the result is small and positive again, and 2^58 ms in
   * either direction wraps to exactly zero.
   */
  lemma MillisecondsWrapCycles()
    ensures Milliseconds(18_446_744_073_710) == 448_384
    ensures Milliseconds(-18_446_744_073_710) == -448_384
    ensures Milliseconds(0x400_0000_0000_0000) == 0 && Milliseconds(-0x400_0000_0000_0000) == 0
  {
  }

  // ---------------------------------------------------------------------
  // Payloads and replies
  // ---------------------------------------------------------------------

  /** Type `RequestPayload`: the decoded JSON body. */
  datatype RequestPayload = RequestPayload(
    httpMethod: string,
    endpoint: string,
    body: Option<seq<bv8>>,
    headers: Option<map<string, string>>,
    parallel: Int64,
    requestTimeout: Int64,
    maxDuration: Int64)

  /** An incoming request: its method, and its body decoded as a payload, or `None` when decoding failed. */
  datatype HttpRequest = HttpRequest(httpMethod: string, payload: Option<RequestPayload>)

  /** Type `Error`: the JSON error code, its title, and the HTTP status it is sent with. */
  datatype ApiError = ApiError(code: string, title: string, statusCode: int)

  const StatusBadRequest: int := 400
  const StatusMethodNotAllowed: int := 405
  const StatusUnprocessableEntity: int := 422

  const ErrorMethodNotAllowed: ApiError := ApiError("method.not.allowed", "Method not allowed", StatusMethodNotAllowed)
  /** Sent with status 405, like the method error. */
  const ErrorBadRequest: ApiError := ApiError("bad.request", "Bad request", StatusMethodNotAllowed)

  /** The error sent when `Run` refuses the input or the timeout: its text as title, status 422. */
  function ValidationError(e: PH.Error): ApiError {
    ApiError("validation.error", e.text, StatusUnprocessableEntity)
  }

  /** Type `api.Latency`. */
  datatype Latency = Latency(p50: PH.DurationText, p90: PH.DurationText, p99: PH.DurationText)

  /** Type `Summary`. */
  datatype Summary = Summary(
    totalRequests: int,
    successCount: int,
    errorCount: int,
    avgDuration: PH.DurationText,
    latency: Latency)

  /** Type `api.Result`: one call, flattened. */
  datatype Result = Result(time: PH.Time, statusCode: int, duration: PH.DurationText, error: Option<string>)

  /** Type `ResponsePayload`. */
  datatype ResponsePayload = ResponsePayload(results: seq<Result>, summary: Summary)

  /** What the handler writes: an error, or a payload with status 200. */
  datatype HandlerReply = Rejected(err: ApiError) | Ok(payload: ResponsePayload)

  /** The runner input built from a payload; `max_duration` is in milliseconds. */
  function InputOf(p: RequestPayload): PH.Input {
    PH.Input(p.httpMethod, p.endpoint, p.body, p.headers, p.parallel, Milliseconds(p.maxDuration))
  }

  // ---------------------------------------------------------------------
  // The summary
  // ---------------------------------------------------------------------

  /** A call counts as a success when it has no error, has a Response, and its status is below 400. */
  predicate IsSuccess(c: PH.CallRecord) {
    c.error.None? && c.response.Some? && c.response.value.statusCode < StatusBadRequest
  }

  /** The number of successful calls. */
  function SuccessCount(calls: seq<PH.CallRecord>): nat
    decreases |calls|
  {
    if calls == [] then 0
    else SuccessCount(calls[..|calls| - 1]) + if IsSuccess(calls[|calls| - 1]) then 1 else 0
  }

  /** The sum of the durations of the calls that have a Response. */
  function TotalDuration(calls: seq<PH.CallRecord>): int
    decreases |calls|
  {
    if calls == [] then 0
    else
      var last := calls[|calls| - 1];
      TotalDuration(calls[..|calls| - 1]) + if last.response.Some? then last.response.value.duration else 0
  }

  /** The zero value of `api.Result`. */
  const ZeroResult: Result := Result(PH.ZeroTime, 0, PH.Blank, None)

  /** One call as the handler reports it: its message always, the Response's fields when there is one. */
  function Entry(c: PH.CallRecord): (r: Result)
    ensures r.error == c.errorMessage
    ensures c.response.None? ==> r == ZeroResult.(error := c.errorMessage)
    ensures c.response.Some? ==>
      r.time == c.response.value.time && r.statusCode == c.response.value.statusCode &&
      r.duration == c.response.value.durationH
  {
    match c.response
    case None => Result(PH.ZeroTime, 0, PH.Blank, c.errorMessage)
    case Some(resp) => Result(resp.time, resp.statusCode, resp.durationH, c.errorMessage)
  }

  /** Go's `/` on integers, which truncates toward zero. */
  function Quo(a: int, b: int): (q: int)
    requires b > 0
    ensures a >= 0 ==> q * b <= a < (q + 1) * b
    ensures a < 0 ==> (q - 1) * b < a <= q * b
  {
    if a >= 0 then a / b else -((-a) / b)
  }

  /** The average duration: the total over every call, failed ones included, or "0s" for no calls. */
  function Average(calls: seq<PH.CallRecord>): PH.DurationText {
    if |calls| > 0 then PH.Shown(Quo(TotalDuration(calls), |calls|)) else PH.ZeroSeconds
  }

  /** What the handler sends for a successful run. */
  function Summarize(result: PH.RunResult): (p: ResponsePayload)
    ensures |p.results| == |result.requests|
    ensures forall i :: 0 <= i < |result.requests| ==> p.results[i] == Entry(result.requests[i])
    ensures p.summary.totalRequests == |result.requests|
    ensures p.summary.successCount == |SuccessIndices(result.requests)|
    ensures 0 <= p.summary.successCount <= p.summary.totalRequests
    ensures p.summary.successCount + p.summary.errorCount == p.summary.totalRequests
    ensures p.summary.avgDuration == Average(result.requests)
    ensures p.summary.latency ==
      Latency(result.stats.latency.p50, result.stats.latency.p90, result.stats.latency.p99)
  {
    var calls := result.requests;
    var successes := SuccessCount(calls);
    SuccessCountBound(calls);
    SuccessCountCounts(calls);
    ResponsePayload(
      seq(|calls|, i requires 0 <= i < |calls| => Entry(calls[i])),
      Summary(|calls|, successes, |calls| - successes, Average(calls),
              Latency(result.stats.latency.p50, result.stats.latency.p90, result.stats.latency.p99)))
  }

  /** There are never more successes than calls. */
  lemma {:induction false} SuccessCountBound(calls: seq<PH.CallRecord>)
    ensures SuccessCount(calls) <= |calls|
    decreases |calls|
  {
    if calls != [] {
      SuccessCountBound(calls[..|calls| - 1]);
    }
  }

  /** The indices of the successful calls. */
  ghost function SuccessIndices(calls: seq<PH.CallRecord>): set<int> {
    set i | 0 <= i < |calls| && IsSuccess(calls[i])
  }

  /** The success count is the number of indices whose call is a success. */
  lemma {:induction false} SuccessCountCounts(calls: seq<PH.CallRecord>)
    ensures SuccessCount(calls) == |SuccessIndices(calls)|
    decreases |calls|
  {
    if calls != [] {
      var n := |calls| - 1;
      var init := calls[..n];
      SuccessCountCounts(init);
      if IsSuccess(calls[n]) {
        assert SuccessIndices(calls) == SuccessIndices(init) + {n};
        assert n !in SuccessIndices(init);
      } else {
        assert SuccessIndices(calls) == SuccessIndices(init);
      }
    }
  }

  /** When every call failed, nothing counts as a success and every call counts as an error. */
  lemma AllFailedSummary(result: PH.RunResult)
    requires forall i :: 0 <= i < |result.requests| ==> result.requests[i].error.Some?
    ensures Summarize(result).summary.successCount == 0
    ensures Summarize(result).summary.errorCount == |result.requests|
  {
    SuccessCountCounts(result.requests);
    assert SuccessIndices(result.requests) == {};
  }

  /** Success counts add over concatenation. */
  lemma {:induction false} SuccessCountAppend(a: seq<PH.CallRecord>, b: seq<PH.CallRecord>)
    ensures SuccessCount(a + b) == SuccessCount(a) + SuccessCount(b)
    decreases |b|
  {
    if b == [] {
      assert a + b == a;
    } else {
      assert (a + b)[..|a + b| - 1] == a + b[..|b| - 1];
      SuccessCountAppend(a, b[..|b| - 1]);
    }
  }

  /** Total durations add over concatenation. */
  lemma {:induction false} TotalDurationAppend(a: seq<PH.CallRecord>, b: seq<PH.CallRecord>)
    ensures TotalDuration(a + b) == TotalDuration(a) + TotalDuration(b)
    decreases |b|
  {
    if b == [] {
      assert a + b == a;
    } else {
      assert (a + b)[..|a + b| - 1] == a + b[..|b| - 1];
      TotalDurationAppend(a, b[..|b| - 1]);
    }
  }

  /** Rearranging the calls changes neither the success count nor the total duration. */
  lemma {:induction false} CountsPermutation(a: seq<PH.CallRecord>, b: seq<PH.CallRecord>)
    requires multiset(a) == multiset(b)
    ensures SuccessCount(a) == SuccessCount(b) && TotalDuration(a) == TotalDuration(b)
    decreases |a|
  {
    if a == [] {
      assert |b| == |multiset(b)| == 0;
    } else {
      var j := SplitLast(a, b);
      CountsPermutation(a[..|a| - 1], b[..j] + b[j + 1..]);
      SuccessCountAppend(b[..j], [b[j]] + b[j + 1..]);
      SuccessCountAppend([b[j]], b[j + 1..]);
      SuccessCountAppend(b[..j], b[j + 1..]);
      TotalDurationAppend(b[..j], [b[j]] + b[j + 1..]);
      TotalDurationAppend([b[j]], b[j + 1..]);
      TotalDurationAppend(b[..j], b[j + 1..]);
      assert [b[j]] == [] + [b[j]];
      assert b[..j] + ([b[j]] + b[j + 1..]) == b;
      assert a == a[..|a| - 1] + [a[|a| - 1]];
      SuccessCountAppend(a[..|a| - 1], [a[|a| - 1]]);
      TotalDurationAppend(a[..|a| - 1], [a[|a| - 1]]);
    }
  }

  /**
   * The summary does not depend on the order in which the calls were
   * drained: the same calls in any order give the same counts, average and
   * latency.
   */
  lemma SummaryOrderIndependent(r1: PH.RunResult, r2: PH.RunResult)
    requires multiset(r1.requests) == multiset(r2.requests) && r1.stats == r2.stats
    ensures Summarize(r1).summary == Summarize(r2).summary
  {
    CountsPermutation(r1.requests, r2.requests);
    assert |r1.requests| == |multiset(r1.requests)| == |r2.requests|;
  }

  /** The average divides by every call: one 100 ms reply beside one failed build averages 50 ms. */
  lemma AverageCountsFailures(e: PH.Error, start: int)
    ensures Average([PH.Outcome(PH.Sent(start, 100 * Millisecond, false, PH.Replied(200))), PH.Outcome(PH.BuildFailed(e))])
      == PH.Shown(50 * Millisecond)
  {
    var ok := PH.Outcome(PH.Sent(start, 100 * Millisecond, false, PH.Replied(200)));
    var failed := PH.Outcome(PH.BuildFailed(e));
    assert [ok, failed][..1] == [ok];
    assert [ok][..0] == [];
    assert TotalDuration([ok]) == 100 * Millisecond;
    assert TotalDuration([ok, failed]) == 100 * Millisecond;
  }

  // ---------------------------------------------------------------------
  // The handler
  // ---------------------------------------------------------------------

  /**
   * The reply of `HandlerParallel`: the method check, then the body check,
   * then the run with both millisecond fields converted, then the summary.
   */
  function HandlerOf(r: HttpRequest, transport: nat -> PH.Transport, start: int, end: int): (reply: HandlerReply)
    ensures r.httpMethod != "POST" ==> reply == Rejected(ErrorMethodNotAllowed)
    ensures r.httpMethod == "POST" && r.payload.None? ==> reply == Rejected(ErrorBadRequest)
    ensures r.httpMethod == "POST" && r.payload.Some? && reply.Rejected? ==>
      var run := PH.RunOf(Milliseconds(r.payload.value.requestTimeout), InputOf(r.payload.value), transport, start, end);
      run.err.Some? && reply == Rejected(ValidationError(run.err.value))
    ensures reply.Ok? <==>
      r.httpMethod == "POST" && r.payload.Some? &&
      Milliseconds(r.payload.value.requestTimeout) >= 0 && PH.Validate(InputOf(r.payload.value)).None?
    ensures reply.Ok? ==>
      var run := PH.RunOf(Milliseconds(r.payload.value.requestTimeout), InputOf(r.payload.value), transport, start, end);
      reply.payload == Summarize(run.result) && reply.payload.summary.totalRequests == r.payload.value.parallel
  {
    if r.httpMethod != "POST" then Rejected(ErrorMethodNotAllowed)
    else if r.payload.None? then Rejected(ErrorBadRequest)
    else
      var run := PH.RunOf(Milliseconds(r.payload.value.requestTimeout), InputOf(r.payload.value), transport, start, end);
      if run.err.Some? then Rejected(ValidationError(run.err.value)) else Ok(Summarize(run.result))
  }

  /**
   * `HandlerParallel`, with `transport`, `start` and `end` standing for what
   * the network and the clock do during the run.
   */
  method HandlerParallel(r: HttpRequest, transport: nat -> PH.Transport, start: int, end: int) returns (reply: HandlerReply)
    ensures reply == HandlerOf(r, transport, start, end)
  {
    if r.httpMethod != "POST" {
      return Rejected(ErrorMethodNotAllowed);
    }
    if r.payload.None? {
      return Rejected(ErrorBadRequest);
    }
    var payload := r.payload.value;
    var result, err := PH.Run(Milliseconds(payload.requestTimeout), InputOf(payload), transport, start, end);
    if err.Some? {
      return Rejected(ValidationError(err.value));
    }

    var response := Respond(result);
    reply := Ok(response);
  }

  /**
   * The summary loop of `HandlerParallel`: counts successes and errors, sums
   * the durations, writes one flat result per call into a slice of the same
   * length, then averages.
   */
  method Respond(result: PH.RunResult) returns (p: ResponsePayload)
    ensures p == Summarize(result)
  {
    var calls := result.requests;
    var totalRequests := |calls|;
    var totalDuration := 0;
    var summary := Summary(totalRequests, 0, 0, PH.ZeroSeconds,
      Latency(result.stats.latency.p50, result.stats.latency.p90, result.stats.latency.p99));
    var responseResults := new Result[totalRequests](_ => ZeroResult);
    for i := 0 to totalRequests
      invariant summary.successCount == SuccessCount(calls[..i])
      invariant summary.errorCount == i - SuccessCount(calls[..i])
      invariant totalDuration == TotalDuration(calls[..i])
      invariant summary.totalRequests == totalRequests && summary.avgDuration == PH.ZeroSeconds
      invariant summary.latency == Latency(result.stats.latency.p50, result.stats.latency.p90, result.stats.latency.p99)
      invariant forall j :: 0 <= j < i ==> responseResults[j] == Entry(calls[j])
    {
      var c := calls[i];
      assert calls[..i + 1][..i] == calls[..i];
      if c.error.None? && c.response.Some? && c.response.value.statusCode < StatusBadRequest {
        summary := summary.(successCount := summary.successCount + 1);
      } else {
        summary := summary.(errorCount := summary.errorCount + 1);
      }

      var res := Result(PH.ZeroTime, 0, PH.Blank, c.errorMessage);
      if c.response.Some? {
        totalDuration := totalDuration + c.response.value.duration;
        res := res.(time := c.response.value.time, statusCode := c.response.value.statusCode,
                    duration := c.response.value.durationH);
      }
      responseResults[i] := res;
    }
    assert calls[..totalRequests] == calls;

    if totalRequests > 0 {
      summary := summary.(avgDuration := PH.Shown(Quo(totalDuration, totalRequests)));
    }
    var expected := Summarize(result);
    assert responseResults[..] == expected.results;
    assert summary == expected.summary;
    p := ResponsePayload(responseResults[..], summary);
  }

  /**
   * The handler's own method check is exact, unlike the runner's: a payload
   * asking for "post" runs when it arrives by POST, yet the same payload sent
   * with request method "post" is refused with 405.
   */
  lemma HandlerMethodIsCaseSensitive(p: RequestPayload, transport: nat -> PH.Transport, start: int, end: int)
    requires p.httpMethod == "post" && p.endpoint != "" && p.parallel > 0
    requires 0 <= p.requestTimeout <= MaxInt64 / Millisecond && 0 <= p.maxDuration <= MaxInt64 / Millisecond
    ensures HandlerOf(HttpRequest("POST", Some(p)), transport, start, end).Ok?
    ensures HandlerOf(HttpRequest("post", Some(p)), transport, start, end) == Rejected(ErrorMethodNotAllowed)
  {
    assert Text.ToUpper("post") == "POST";
  }

  /** A negative `request_timeout` of a POST is answered with 422 and the runner's timeout message. */
  lemma NegativeTimeoutRejected(p: RequestPayload, transport: nat -> PH.Transport, start: int, end: int)
    requires -(MaxInt64 / Millisecond) <= p.requestTimeout < 0
    ensures HandlerOf(HttpRequest("POST", Some(p)), transport, start, end) ==
      Rejected(ApiError("validation.error", "invalid value for timeout", StatusUnprocessableEntity))
  {
  }

  /**
   * A negative `request_timeout` in the first band below that range (its
   * nanoseconds below -2^63 and above -2^64) wraps to a positive timeout:
   * the run goes ahead as if a positive timeout had been asked for.
   */
  lemma LargeNegativeTimeoutRuns(p: RequestPayload, transport: nat -> PH.Transport, start: int, end: int)
    requires -18_446_744_073_709 <= p.requestTimeout <= -9_223_372_036_855
    requires p.endpoint != "" && PH.ValidMethod(p.httpMethod) && p.parallel > 0
    requires 0 <= p.maxDuration <= MaxInt64 / Millisecond
    ensures Milliseconds(p.requestTimeout) > 0
    ensures HandlerOf(HttpRequest("POST", Some(p)), transport, start, end).Ok?
  {
  }
}
