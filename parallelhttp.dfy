/**
 * The parallel-request runner of package `parallelhttp`: input validation,
 * error classification, the outcome of one call, latency percentiles and the
 * run that collects `Parallel` calls.
 *
 * What the network, the clock and the context did is an input here (a
 * `Transport` per call, clock readings as integers); durations are integer
 * nanoseconds.
 */
module ParallelHttp {
  import opened Optional
  import opened Text
  import opened Sorting
  import opened Multisets

  // ---------------------------------------------------------------------
  // Values
  // ---------------------------------------------------------------------

  /**
   * A Go `error`, flattened to what the runner inspects: its text, whether
   * `errors.As` finds a `net.Error` in it (and then that error's `Timeout()`),
   * and whether `errors.Is(err, context.Canceled)` holds.
   */
  datatype Error = Error(text: string, netError: bool, timeout: bool, canceled: bool)

  /** `errors.New(text)`. */
  function Plain(text: string): Error {
    Error(text, false, false, false)
  }

  /**
   * A string produced by `time.Duration.String()`, kept as the duration it
   * renders. `Blank` is the empty string, the zero value of a string field.
   */
  datatype DurationText = Blank | Shown(nanos: int)

  /** The text "0s": `Duration.String()` of the zero duration. */
  const ZeroSeconds: DurationText := Shown(0)

  /** A `time.Time`: the zero value, or a clock reading in nanoseconds. */
  datatype Time = ZeroTime | At(nanos: int)

  /** Type `Latency`: the three percentile strings. */
  datatype Latency = Latency(p50: DurationText, p90: DurationText, p99: DurationText)

  /** Type `Response`, as held once `process` has returned. */
  datatype ResponseRecord = ResponseRecord(statusCode: int, time: Time, duration: int, durationH: DurationText)

  /** Type `Call`, as held once `process` has returned; `response == None` is a nil `*Response`. */
  datatype CallRecord = CallRecord(response: Option<ResponseRecord>, error: Option<Error>, errorMessage: Option<string>)

  /** Type `Input`. */
  datatype Input = Input(
    httpMethod: string,
    endpoint: string,
    body: Option<seq<bv8>>,
    headers: Option<map<string, string>>,
    parallel: int,
    duration: int)

  /** Type `Stats`. */
  datatype Stats = Stats(startTime: Time, endTime: Time, duration: DurationText, latency: Latency)

  /** Type `Result`: the calls in the order they were drained, and the statistics. */
  datatype RunResult = RunResult(requests: seq<CallRecord>, stats: Stats)

  // ---------------------------------------------------------------------
  // Call and Response while process builds them
  // ---------------------------------------------------------------------

  /** A `*Response` that `process` fills in. */
  class Response {
    var statusCode: int
    var time: Time
    var duration: int
    var durationH: DurationText

    /** `&Response{Time: t}`: every other field holds its zero value. */
    constructor (t: Time)
      ensures statusCode == 0 && time == t && duration == 0 && durationH == Blank
    {
      statusCode, time, duration, durationH := 0, t, 0, Blank;
    }

    function Record(): ResponseRecord
      reads this
    {
      ResponseRecord(statusCode, time, duration, durationH)
    }

    /** `Response.SetDuration`: the duration and its rendering change together. */
    method SetDuration(d: int)
      modifies this
      ensures duration == d && durationH == Shown(d)
      ensures statusCode == old(statusCode) && time == old(time)
    {
      duration := d;
      durationH := Shown(d);
    }
  }

  /** A `Call` that `process` fills in. */
  class Call {
    var response: Response?
    var error: Option<Error>
    var errorMessage: Option<string>

    /** `Call{Response: response}`. */
    constructor (response: Response?)
      ensures this.response == response && error == None && errorMessage == None
    {
      this.response, error, errorMessage := response, None, None;
    }

    function Record(): CallRecord
      reads this, response
    {
      CallRecord(if response == null then None else Some(response.Record()), error, errorMessage)
    }

    /** `Call.SetError`: a nil error leaves the message as it was; any other sets the message to its text. */
    method SetError(err: Option<Error>)
      modifies this
      ensures error == err
      ensures errorMessage == if err.None? then old(errorMessage) else Some(err.value.text)
      ensures response == old(response)
    {
      error := err;
      if err.None? {
        return;
      }
      errorMessage := Some(err.value.text);
    }
  }

  // ---------------------------------------------------------------------
  // Input validation
  // ---------------------------------------------------------------------

  const Methods: seq<string> := ["GET", "POST", "PUT", "PATCH", "DELETE"]

  const ErrEndpointRequired: Error := Plain("endpoint is required")
  const ErrInvalidMethod: Error := Plain("invalid value for method")
  const ErrInvalidParallel: Error := Plain("invalid value for parallel")
  const ErrInvalidDuration: Error := Plain("invalid value for duration")

  /** The method, upper-cased, is one of the five accepted methods. */
  predicate ValidMethod(m: string) {
    ToUpper(m) in Methods
  }

  /**
   * `Input.Validate`: the first failing rule decides the error, in the order
   * endpoint, method, parallel, duration; `None` when every rule holds.
   */
  function Validate(i: Input): (r: Option<Error>)
    ensures r.None? <==> i.endpoint != "" && ValidMethod(i.httpMethod) && i.parallel > 0 && i.duration >= 0
    ensures r == Some(ErrEndpointRequired) <==> i.endpoint == ""
    ensures r == Some(ErrInvalidMethod) <==> i.endpoint != "" && !ValidMethod(i.httpMethod)
    ensures r == Some(ErrInvalidParallel) <==> i.endpoint != "" && ValidMethod(i.httpMethod) && i.parallel <= 0
    ensures r == Some(ErrInvalidDuration) <==>
      i.endpoint != "" && ValidMethod(i.httpMethod) && i.parallel > 0 && i.duration < 0
  {
    if i.endpoint == "" then Some(ErrEndpointRequired)
    else if !ValidMethod(i.httpMethod) then Some(ErrInvalidMethod)
    else if i.parallel <= 0 then Some(ErrInvalidParallel)
    else if i.duration < 0 then Some(ErrInvalidDuration)
    else None
  }

  /** Upper-casing the method first does not change the verdict: the check already upper-cases. */
  lemma MethodCaseInsensitive(m: string)
    ensures ValidMethod(m) <==> ValidMethod(ToUpper(m))
  {
    ToUpperIdempotent(m);
  }

  /**
   * The method check ignores case: a method is accepted exactly when it
   * spells one of the five names with each letter in either case (the
   * dotless i and the long s standing for 'I' and 'S').
   */
  lemma ValidMethodIffCaseVariant(m: string)
    ensures ValidMethod(m) <==> exists name :: name in Methods && CaseVariant(m, name)
  {
    assert forall name :: name in Methods ==> AsciiUpper(name);
    if ValidMethod(m) {
      VariantOfUpper(m);
      assert ToUpper(m) in Methods && CaseVariant(m, ToUpper(m));
    }
    if name :| name in Methods && CaseVariant(m, name) {
      UpperOfVariant(m, name);
    }
  }

  /** Lower- and mixed-case spellings pass; so does "poſt", whose long s upper-cases to 'S'; "HEAD" does not. */
  lemma MethodExamples()
    ensures ValidMethod("get") && ValidMethod("Patch") && ValidMethod("po\U{17F}t")
    ensures !ValidMethod("HEAD") && !ValidMethod("")
  {
    assert ToUpper("get") == "GET";
    assert ToUpper("Patch") == "PATCH";
    assert ToUpper("po\U{17F}t") == "POST";
    assert ToUpper("HEAD") == "HEAD";
  }

  // ---------------------------------------------------------------------
  // Error classification
  // ---------------------------------------------------------------------

  const ErrHostNotFound: Error := Plain("host not found")
  const ErrConnectionRefused: Error := Plain("connection refused. The server may be down")
  const ErrTimedOut: Error := Plain("request timed out")

  /**
   * `parseError`: only a network error is rewritten, by the first matching
   * test among "no such host" in its text, "connection refused" in its
   * text, and its timeout flag; anything else comes back unchanged.
   */
  function ParseError(err: Error): (r: Error)
    ensures !err.netError ==> r == err
    ensures err.netError && Contains(err.text, "no such host") ==> r == ErrHostNotFound
    ensures err.netError && !Contains(err.text, "no such host") && Contains(err.text, "connection refused") ==>
      r == ErrConnectionRefused
    ensures err.netError && !Contains(err.text, "no such host") && !Contains(err.text, "connection refused") ==>
      r == if err.timeout then ErrTimedOut else err
  {
    if err.netError then
      if Contains(err.text, "no such host") then ErrHostNotFound
      else if Contains(err.text, "connection refused") then ErrConnectionRefused
      else if err.timeout then ErrTimedOut
      else err
    else err
  }

  /** Every classified error is the original or one of the three stable, non-network messages. */
  lemma ParseErrorRange(err: Error)
    ensures ParseError(err) == err || ParseError(err) in {ErrHostNotFound, ErrConnectionRefused, ErrTimedOut}
    ensures ParseError(err) != err ==> !ParseError(err).netError
  {
  }

  /** Classifying an already classified error changes nothing. */
  lemma ParseErrorIdempotent(err: Error)
    ensures ParseError(ParseError(err)) == ParseError(err)
  {
  }

  /** A network error saying "connection refused" that also reports a timeout is classified by its text, not its flag. */
  lemma ParseErrorTextBeforeTimeout()
    ensures ParseError(Error("connection refused", true, true, false)) == ErrConnectionRefused
  {
    MissingCharNotContained("connection refused", "no such host", 'h');
  }

  // ---------------------------------------------------------------------
  // One call
  // ---------------------------------------------------------------------

  /** `errCanceled`. */
  const ErrCanceled: Error := Plain("canceled")

  /** What `client.Do` gave back: a response with its status code, or an error. */
  datatype DoResult = Replied(statusCode: int) | Failed(err: Error)

  /**
   * What happened to one attempt: building the request failed, or the
   * request was sent at clock reading `start`, took `elapsed` nanoseconds
   * (a monotonic reading, never negative), and afterwards the call's context
   * had or had not passed its deadline.
   */
  datatype Transport =
    | BuildFailed(err: Error)
    | Sent(start: int, elapsed: nat, deadlineExceeded: bool, reply: DoResult)

  /** The context's deadline passed, or the transport error wraps `context.Canceled`. */
  predicate Cancelled(t: Transport)
    requires t.Sent?
  {
    t.deadlineExceeded || (t.reply.Failed? && t.reply.err.canceled)
  }

  /**
   * The Call that `process` returns: a construction failure has no Response;
   * otherwise cancellation wins over a transport error, which wins over a
   * reply; only a reply records status code and duration.
   */
  function Outcome(t: Transport): (c: CallRecord)
    ensures t.BuildFailed? ==> c == CallRecord(None, Some(t.err), Some(t.err.text))
    ensures t.Sent? ==> c.response.Some? && c.response.value.time == At(t.start)
    ensures t.Sent? && (Cancelled(t) || t.reply.Failed?) ==>
      c.response == Some(ResponseRecord(0, At(t.start), 0, Blank))
    ensures t.Sent? && Cancelled(t) ==> c.error == Some(ErrCanceled)
    ensures t.Sent? && !Cancelled(t) && t.reply.Failed? ==> c.error == Some(ParseError(t.reply.err))
    ensures t.Sent? && !Cancelled(t) && t.reply.Replied? ==>
      c.error.None? && c.response.value.statusCode == t.reply.statusCode &&
      c.response.value.duration == t.elapsed && c.response.value.durationH == Shown(t.elapsed)
    ensures c.errorMessage == if c.error.Some? then Some(c.error.value.text) else None
  {
    match t
    case BuildFailed(e) => CallRecord(None, Some(e), Some(e.text))
    case Sent(start, elapsed, _, reply) =>
      var started := ResponseRecord(0, At(start), 0, Blank);
      if Cancelled(t) then CallRecord(Some(started), Some(ErrCanceled), Some(ErrCanceled.text))
      else if reply.Failed? then
        var e := ParseError(reply.err);
        CallRecord(Some(started), Some(e), Some(e.text))
      else CallRecord(Some(ResponseRecord(reply.statusCode, At(start), elapsed, Shown(elapsed))), None, None)
  }

  /**
   * `process`, after the request is built or not: a Call with a Response
   * stamped with the start time, then either an error set on the Call or the
   * duration and status code set on the Response.
   */
  method Process(t: Transport) returns (c: CallRecord)
    ensures c == Outcome(t)
  {
    if t.BuildFailed? {
      return CallRecord(None, Some(t.err), Some(t.err.text));
    }
    var response := new Response(At(t.start));
    var call := new Call(response);
    if t.deadlineExceeded || (t.reply.Failed? && t.reply.err.canceled) {
      call.SetError(Some(ErrCanceled));
      return call.Record();
    } else if t.reply.Failed? {
      var parsedErr := ParseError(t.reply.err);
      call.SetError(Some(parsedErr));
      return call.Record();
    }
    response.SetDuration(t.elapsed);
    response.statusCode := t.reply.statusCode;
    return call.Record();
  }

  // ---------------------------------------------------------------------
  // Latency
  // ---------------------------------------------------------------------

  /** A call whose duration enters the percentiles: no error, a Response, and a non-zero duration. */
  predicate Eligible(c: CallRecord) {
    c.error.None? && c.response.Some? && c.response.value.duration != 0
  }

  /** Exactly the calls that got a reply, were not cancelled and took some time are eligible. */
  lemma EligibleOutcome(t: Transport)
    ensures Eligible(Outcome(t)) <==> t.Sent? && !Cancelled(t) && t.reply.Replied? && t.elapsed != 0
  {
  }

  /** The durations of the eligible calls, in call order. */
  function Samples(calls: seq<CallRecord>): seq<int>
    decreases |calls|
  {
    if calls == [] then []
    else
      var last := calls[|calls| - 1];
      Samples(calls[..|calls| - 1]) + if Eligible(last) then [last.response.value.duration] else []
  }

  /**
   * The nearest-rank index for percentile k/100 of n ascending samples:
   * `max(ceil(k*n/100) - 1, 0)`, clamped to `n - 1`.
   */
  function Rank(k: int, n: int): (r: int)
    requires 0 <= k <= 100 && n >= 1
    ensures 0 <= r < n
  {
    var idx := if (k * n + 99) / 100 - 1 > 0 then (k * n + 99) / 100 - 1 else 0;
    if idx >= n then n - 1 else idx
  }

  /** `latency`: the nearest-rank P50, P90 and P99 of the eligible durations, or "0s" for all three when there are none. */
  function Percentiles(calls: seq<CallRecord>): Latency {
    var data := Sort(Samples(calls));
    var n := |data|;
    if n == 0 then Latency(ZeroSeconds, ZeroSeconds, ZeroSeconds)
    else Latency(Shown(data[Rank(50, n)]), Shown(data[Rank(90, n)]), Shown(data[Rank(99, n)]))
  }

  /** `latency`: collect the eligible durations, sort them, pick the three ranks. */
  method ComputeLatency(calls: seq<CallRecord>) returns (l: Latency)
    ensures l == Percentiles(calls)
  {
    var data: seq<int> := [];
    for i := 0 to |calls|
      invariant data == Samples(calls[..i])
    {
      var c := calls[i];
      assert calls[..i + 1][..i] == calls[..i];
      if c.error.Some? || c.response.None? || c.response.value.duration == 0 {
        continue;
      }
      data := data + [c.response.value.duration];
    }
    assert calls[..|calls|] == calls;
    data := Sort(data);
    var n := |data|;
    if n == 0 {
      return Latency(ZeroSeconds, ZeroSeconds, ZeroSeconds);
    }
    l := Latency(Shown(data[Rank(50, n)]), Shown(data[Rank(90, n)]), Shown(data[Rank(99, n)]));
  }

  /** Products of non-negative numbers grow with the first factor. */
  lemma MulMonotone(a: int, b: int, n: int)
    requires 0 <= a <= b && n >= 0
    ensures a * n <= b * n
  {
    var d := b - a;
    assert b * n == a * n + d * n;
  }

  /**
   * For 1 <= k <= 100 the rank is the nearest-rank index: the smallest index
   * r with 100 * (r + 1) >= k * n; the clamp never fires.
   */
  lemma RankIsNearestRank(k: int, n: int)
    requires 1 <= k <= 100 && n >= 1
    ensures 100 * (Rank(k, n) + 1) >= k * n
    ensures Rank(k, n) == 0 || 100 * Rank(k, n) < k * n
  {
    MulMonotone(1, k, n);
    MulMonotone(k, 100, n);
    var q := (k * n + 99) / 100;
    assert 100 * q <= k * n + 99 < 100 * q + 100;
    assert q >= 1 && q <= n;
  }

  /** A higher percentile never picks an earlier index. */
  lemma RankMonotone(k1: int, k2: int, n: int)
    requires 0 <= k1 <= k2 <= 100 && n >= 1
    ensures Rank(k1, n) <= Rank(k2, n)
  {
    MulMonotone(k1, k2, n);
    assert (k1 * n + 99) / 100 <= (k2 * n + 99) / 100;
  }

  /** With no eligible sample all three percentiles are "0s". */
  lemma NoSamplesZeroLatency(calls: seq<CallRecord>)
    requires forall i :: 0 <= i < |calls| ==> !Eligible(calls[i])
    ensures Percentiles(calls) == Latency(ZeroSeconds, ZeroSeconds, ZeroSeconds)
  {
    NoSamples(calls);
  }

  /** With no eligible call there are no samples. */
  lemma {:induction false} NoSamples(calls: seq<CallRecord>)
    requires forall i :: 0 <= i < |calls| ==> !Eligible(calls[i])
    ensures Samples(calls) == []
    decreases |calls|
  {
    if calls != [] {
      NoSamples(calls[..|calls| - 1]);
    }
  }

  /** Every sample is the duration of some eligible call. */
  lemma {:induction false} SampleFromCall(calls: seq<CallRecord>, x: int)
    requires x in multiset(Samples(calls))
    ensures exists i :: 0 <= i < |calls| && Eligible(calls[i]) && calls[i].response.value.duration == x
    decreases |calls|
  {
    var init := calls[..|calls| - 1];
    var last := calls[|calls| - 1];
    if x in multiset(Samples(init)) {
      SampleFromCall(init, x);
      var i :| 0 <= i < |init| && Eligible(init[i]) && init[i].response.value.duration == x;
      assert calls[i] == init[i];
    } else {
      assert Eligible(last) && last.response.value.duration == x;
    }
  }

  /** In ascending data the three ranks pick non-decreasing values. */
  lemma RanksOrdered(data: seq<int>)
    requires Sorted(data) && |data| > 0
    ensures data[Rank(50, |data|)] <= data[Rank(90, |data|)] <= data[Rank(99, |data|)]
  {
    RankMonotone(50, 90, |data|);
    RankMonotone(90, 99, |data|);
  }

  /** P50 <= P90 <= P99 for every list of calls ("0s" three times when there is no sample). */
  lemma PercentilesOrdered(calls: seq<CallRecord>)
    ensures var l := Percentiles(calls);
      l.p50.Shown? && l.p90.Shown? && l.p99.Shown? && l.p50.nanos <= l.p90.nanos <= l.p99.nanos
  {
    var data := Sort(Samples(calls));
    if |data| > 0 {
      RanksOrdered(data);
    }
  }

  /** Each percentile is "0s" or the (non-zero) duration of an eligible call. */
  lemma PercentilesObserved(calls: seq<CallRecord>)
    ensures var l := Percentiles(calls);
      forall p :: p in [l.p50, l.p90, l.p99] ==>
        (p == ZeroSeconds ||
         (p.Shown? && p.nanos != 0 &&
          exists i :: 0 <= i < |calls| && Eligible(calls[i]) && calls[i].response.value.duration == p.nanos))
  {
    var l := Percentiles(calls);
    var data := Sort(Samples(calls));
    forall p | p in [l.p50, l.p90, l.p99] && p != ZeroSeconds
      ensures p.Shown? && p.nanos != 0 &&
        exists i :: 0 <= i < |calls| && Eligible(calls[i]) && calls[i].response.value.duration == p.nanos
    {
      assert |data| > 0;
      assert p.nanos in multiset(data);
      SampleFromCall(calls, p.nanos);
    }
  }

  /** One eligible call makes the sample list non-empty. */
  lemma {:induction false} SomeSample(calls: seq<CallRecord>, i: int)
    requires 0 <= i < |calls| && Eligible(calls[i])
    ensures |Samples(calls)| > 0
    decreases |calls|
  {
    if i < |calls| - 1 {
      SomeSample(calls[..|calls| - 1], i);
    }
  }

  /** Appending a call appends its duration to the samples when it is eligible. */
  lemma SamplesSnoc(calls: seq<CallRecord>, c: CallRecord)
    ensures Samples(calls + [c]) == Samples(calls) + if Eligible(c) then [c.response.value.duration] else []
  {
    assert (calls + [c])[..|calls|] == calls;
  }

  /** Sampling a concatenation samples each part. */
  lemma {:induction false} SamplesAppend(a: seq<CallRecord>, b: seq<CallRecord>)
    ensures Samples(a + b) == Samples(a) + Samples(b)
    decreases |b|
  {
    if b == [] {
      assert a + b == a;
    } else {
      var b' := b[..|b| - 1];
      assert (a + b)[..|a + b| - 1] == a + b';
      SamplesAppend(a, b');
    }
  }

  /** Rearranging the calls rearranges the samples. */
  lemma {:induction false} SamplesPermutation(a: seq<CallRecord>, b: seq<CallRecord>)
    requires multiset(a) == multiset(b)
    ensures multiset(Samples(a)) == multiset(Samples(b))
    decreases |a|
  {
    if a == [] {
      assert |b| == |multiset(b)| == 0;
    } else {
      var j := SplitLast(a, b);
      var rest := b[..j] + b[j + 1..];
      SamplesPermutation(a[..|a| - 1], rest);
      SamplesAppend(b[..j], [b[j]] + b[j + 1..]);
      SamplesAppend([b[j]], b[j + 1..]);
      SamplesAppend(b[..j], b[j + 1..]);
      assert Samples([b[j]]) == Samples([] + [b[j]]);
      assert b[..j] + ([b[j]] + b[j + 1..]) == b;
    }
  }

  /**
   * The percentiles depend on the calls only as a multiset: the order in
   * which the calls were drained does not matter.
   */
  lemma PercentilesOrderIndependent(a: seq<CallRecord>, b: seq<CallRecord>)
    requires multiset(a) == multiset(b)
    ensures Percentiles(a) == Percentiles(b)
  {
    SamplesPermutation(a, b);
    SortedUnique(Sort(Samples(a)), Sort(Samples(b)));
  }

  /** A call answered with 200 that took `d` nanoseconds. */
  function Ok200(d: int): CallRecord {
    CallRecord(Some(ResponseRecord(200, At(0), d, Shown(d))), None, None)
  }

  /**
   * Calls with replies of 40, 10, 50, 30 and 20 units of `u` nanoseconds,
   * mixed with a call that timed out, a call whose request could not be built
   * and a zero-duration reply.
   */
  function ExampleCalls(u: int): seq<CallRecord> {
    [Ok200(40 * u), Outcome(Sent(0, 5, false, Failed(ErrTimedOut))), Ok200(10 * u), Ok200(50 * u),
     CallRecord(None, Some(ErrInvalidMethod), Some(ErrInvalidMethod.text)), Ok200(30 * u),
     Ok200(0), Ok200(20 * u)]
  }

  /** The example's samples: the durations of its five eligible calls, in call order. */
  lemma ExampleSamples(u: int)
    requires u > 0
    ensures Samples(ExampleCalls(u)) == [40 * u, 10 * u, 50 * u, 30 * u, 20 * u]
  {
    var c0, c1, c2, c3, c4, c5, c6, c7 :=
      ExampleCalls(u)[0], ExampleCalls(u)[1], ExampleCalls(u)[2], ExampleCalls(u)[3],
      ExampleCalls(u)[4], ExampleCalls(u)[5], ExampleCalls(u)[6], ExampleCalls(u)[7];
    assert ExampleCalls(u) == [c0, c1, c2, c3, c4, c5, c6, c7];
    SamplesSnoc([], c0);
    assert [] + [c0] == [c0];
    SamplesSnoc([c0], c1);
    assert [c0] + [c1] == [c0, c1];
    SamplesSnoc([c0, c1], c2);
    assert [c0, c1] + [c2] == [c0, c1, c2];
    SamplesSnoc([c0, c1, c2], c3);
    assert [c0, c1, c2] + [c3] == [c0, c1, c2, c3];
    SamplesSnoc([c0, c1, c2, c3], c4);
    assert [c0, c1, c2, c3] + [c4] == [c0, c1, c2, c3, c4];
    SamplesSnoc([c0, c1, c2, c3, c4], c5);
    assert [c0, c1, c2, c3, c4] + [c5] == [c0, c1, c2, c3, c4, c5];
    SamplesSnoc([c0, c1, c2, c3, c4, c5], c6);
    assert [c0, c1, c2, c3, c4, c5] + [c6] == [c0, c1, c2, c3, c4, c5, c6];
    SamplesSnoc([c0, c1, c2, c3, c4, c5, c6], c7);
    assert [c0, c1, c2, c3, c4, c5, c6] + [c7] == [c0, c1, c2, c3, c4, c5, c6, c7];
  }

  /** The percentiles can be read off any ascending rearrangement of the samples. */
  lemma PercentilesFromSorted(calls: seq<CallRecord>, sorted: seq<int>)
    requires Sorted(sorted) && multiset(Samples(calls)) == multiset(sorted) && |sorted| > 0
    ensures Percentiles(calls) ==
      Latency(Shown(sorted[Rank(50, |sorted|)]), Shown(sorted[Rank(90, |sorted|)]), Shown(sorted[Rank(99, |sorted|)]))
  {
    SortedUnique(Sort(Samples(calls)), sorted);
  }

  /** Five distinct values in the example's order are a rearrangement of the ascending five. */
  lemma ExamplePermutation(a: int, b: int, c: int, d: int, e: int)
    requires a < b < c < d < e
    ensures multiset([d, a, e, c, b]) == multiset([a, b, c, d, e])
  {
  }

  /** The example's samples, rearranged in ascending order. */
  lemma ExampleSorted(u: int)
    requires u > 0
    ensures Sorted([10 * u, 20 * u, 30 * u, 40 * u, 50 * u])
    ensures multiset(Samples(ExampleCalls(u))) == multiset([10 * u, 20 * u, 30 * u, 40 * u, 50 * u])
  {
    var a, b, c, d, e := 10 * u, 20 * u, 30 * u, 40 * u, 50 * u;
    ExampleSamples(u);
    ExamplePermutation(a, b, c, d, e);
    SortedFive(a, b, c, d, e);
  }

  /** Five values in ascending order form a sorted sequence. */
  lemma SortedFive(a: int, b: int, c: int, d: int, e: int)
    requires a <= b <= c <= d <= e
    ensures Sorted([a, b, c, d, e])
  {
  }

  /** The example calls give P50 = 30, P90 = 50 and P99 = 50 units; with u = 1 ms, 30 ms, 50 ms and 50 ms. */
  lemma PercentilesExample(u: int)
    requires u > 0
    ensures Percentiles(ExampleCalls(u)) == Latency(Shown(30 * u), Shown(50 * u), Shown(50 * u))
  {
    var sorted := [10 * u, 20 * u, 30 * u, 40 * u, 50 * u];
    ExampleSorted(u);
    PercentilesFromSorted(ExampleCalls(u), sorted);
    RanksOfFive();
  }

  /** With five samples the three ranks are 2, 4 and 4. */
  lemma RanksOfFive()
    ensures Rank(50, 5) == 2 && Rank(90, 5) == 4 && Rank(99, 5) == 4
  {
  }

  // ---------------------------------------------------------------------
  // Run
  // ---------------------------------------------------------------------

  const ErrInvalidTimeout: Error := Plain("invalid value for timeout")

  /** What `Run` returns: the result and the error. */
  datatype RunReturn = RunReturn(result: RunResult, err: Option<Error>)

  /** The result `Run` returns with an error: no calls, only the start time set. */
  function Unstarted(start: int): RunResult {
    RunResult([], Stats(At(start), ZeroTime, Blank, Latency(Blank, Blank, Blank)))
  }

  /**
   * `Run` with client timeout `timeout`, where `transport(i)` is what happened
   * to the i-th call drained from the completion channel, and `start` and
   * `end` are the clock readings before the checks and after the join.
   */
  function RunOf(timeout: int, input: Input, transport: nat -> Transport, start: int, end: int): (r: RunReturn)
    ensures timeout < 0 ==> r.err == Some(ErrInvalidTimeout)
    ensures timeout >= 0 ==> r.err == Validate(input)
    ensures r.err.Some? ==> r.result == Unstarted(start)
    ensures r.err.None? ==>
      |r.result.requests| == input.parallel &&
      (forall i :: 0 <= i < input.parallel ==> r.result.requests[i] == Outcome(transport(i))) &&
      r.result.stats == Stats(At(start), At(end), Shown(end - start), Percentiles(r.result.requests))
  {
    if timeout < 0 then RunReturn(Unstarted(start), Some(ErrInvalidTimeout))
    else
      match Validate(input)
      case Some(e) => RunReturn(Unstarted(start), Some(e))
      case None =>
        var calls := seq(input.parallel, i requires 0 <= i < input.parallel => Outcome(transport(i)));
        RunReturn(RunResult(calls, Stats(At(start), At(end), Shown(end - start), Percentiles(calls))), None)
  }

  /**
   * `ParallelHTTP.Run`: the checks, then one call per launch appended to the
   * result, then the end time and the latency.
   */
  method Run(timeout: int, input: Input, transport: nat -> Transport, start: int, end: int)
    returns (result: RunResult, err: Option<Error>)
    ensures RunReturn(result, err) == RunOf(timeout, input, transport, start, end)
  {
    result := Unstarted(start);
    if timeout < 0 {
      return result, Some(ErrInvalidTimeout);
    }
    err := Validate(input);
    if err.Some? {
      return result, err;
    }
    var requests: seq<CallRecord> := [];
    var i := 0;
    while i < input.parallel
      invariant 0 <= i <= input.parallel
      invariant |requests| == i
      invariant forall j :: 0 <= j < i ==> requests[j] == Outcome(transport(j))
    {
      var c := Process(transport(i));
      requests := requests + [c];
      i := i + 1;
    }
    var latency := ComputeLatency(requests);
    result := RunResult(requests, Stats(At(start), At(end), Shown(end - start), latency));
  }

  /**
   * When no call is sent, is answered, or escapes cancellation, every call of
   * an accepted run carries a classified error or the construction error,
   * and all three percentiles are "0s".
   */
  lemma AllFailedRun(timeout: int, input: Input, transport: nat -> Transport, start: int, end: int)
    requires timeout >= 0 && Validate(input).None?
    requires forall i :: 0 <= i < input.parallel ==>
      transport(i).BuildFailed? || Cancelled(transport(i)) || transport(i).reply.Failed?
    ensures var r := RunOf(timeout, input, transport, start, end).result;
      |r.requests| == input.parallel &&
      (forall i :: 0 <= i < |r.requests| ==> r.requests[i].error.Some?) &&
      r.stats.latency == Latency(ZeroSeconds, ZeroSeconds, ZeroSeconds)
  {
    var r := RunOf(timeout, input, transport, start, end).result;
    NoSamplesZeroLatency(r.requests);
  }
}
