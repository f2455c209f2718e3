# parallelhttp — a Dafny model of the runner and the `/run` handler

`parallelhttp` fires the same HTTP request `Parallel` times at once and reports on the calls. It returns one record per call: the status code, the start time, the duration, or an error. It also returns statistics for the whole run: start, end, total duration, and the P50, P90 and P99 latencies. The `/run` endpoint of the HTTP API wraps this runner. It takes a JSON description of the request and answers with one flat result per call. It adds a summary: total, success and error counts, the average duration, and the latencies.

This project models two files.

`internal/parallelhttp/parallelhttp.go`, module `ParallelHttp`:
- `Input.Validate`.
- The mutable `Call` and `Response` with `SetError` and `SetDuration`. These are classes whose methods update fields.
- `parseError`.
- The outcome of one call (`process`).
- The percentile computation (`latency`).
- `Run`.

`internal/api/handler_parallel.go`, module `Api`:
- `HandlerParallel`: method and body checks, millisecond conversion, the run, and the summary loop.

Four supporting modules: `Optional` gives `Option`, which stands for Go's nil pointers, nil errors and nil maps and slices; `Text` models `strings.Contains` and `strings.ToUpper`; `Sorting` models `slices.Sort` on durations; and `Multisets` holds a permutation lemma.

Some things become inputs instead of being computed:
- The network, the context and the clock. What happened to the i-th call is a `Transport` value:
  - the request could not be built;
  - or it was sent at a clock reading, took so many nanoseconds, and afterwards its context had or had not passed its deadline, with a reply status or a transport error.
- Clock readings are integers in nanoseconds.
- A `time.Duration.String()` text is kept as the duration it renders (`DurationText.Shown(d)`). The empty string is `Blank`.

The goroutines of `Run` become a sequential loop. Call `i` of the model is the i-th call drained from the completion channel. The lemmas below show that the statistics and the summary do not depend on that order.

The model follows the code in four places where a reader of the API might expect something else:
- An undecodable body is answered with code `bad.request` but status 405, as `ErrorBadRequest` is declared in `internal/api/api.go`.
- A rejected run still carries its start time.
- The millisecond conversion wraps modulo 2^64, so outside ±9223372036854 ms the sign of the client timeout depends on the value. From -18446744073709 to -9223372036855 ms it wraps to a positive timeout and the request runs instead of being refused. From 9223372036855 to 18446744073709 ms it wraps to a negative timeout and is refused. Further out the sign cycles, and ±2^58 ms wraps to 0, which means no timeout.
- A call that was sent but then failed or was cancelled keeps a non-nil `Response`: it has its start time, status 0 and duration 0. So it adds 0 to the handler's total duration, but it does count in the average's divisor.

## Model

| member | source | states |
|---|---|---|
| ParallelHttp.Response.constructor | internal/parallelhttp/parallelhttp.go:176-180 | A new Response holds only its start time; status, duration and its text are zero values |
| ParallelHttp.Response.SetDuration | internal/parallelhttp/parallelhttp.go:64-67 | Sets the duration and its rendered text to the same value; status code and time are unchanged |
| ParallelHttp.Call.constructor | internal/parallelhttp/parallelhttp.go:176-180 | A new Call holds the given Response, no error and no message |
| ParallelHttp.Call.SetError | internal/parallelhttp/parallelhttp.go:55-62 | The error is always replaced; a nil error leaves the message as it was, any other error sets the message to its text; the Response is untouched |
| ParallelHttp.Validate | internal/parallelhttp/parallelhttp.go:78-91 | Five if-and-only-if rules: accepted exactly when endpoint non-empty, method valid, parallel > 0 and duration >= 0; otherwise the first failing rule (endpoint, method, parallel, duration) picks the error |
| ParallelHttp.ValidMethodIffCaseVariant | internal/parallelhttp/parallelhttp.go:82 | A method is accepted exactly when it spells GET, POST, PUT, PATCH or DELETE with each letter in either case (U+0131 counting as 'i' and U+017F as 's') |
| ParallelHttp.MethodCaseInsensitive | internal/parallelhttp/parallelhttp.go:82 | Upper-casing a method first does not change whether it is accepted |
| ParallelHttp.MethodExamples | internal/parallelhttp/parallelhttp.go:82 | "get", "Patch" and "poſt" (long s) are accepted; "HEAD" and "" are refused |
| ParallelHttp.ParseError | internal/parallelhttp/parallelhttp.go:206-221 | Non-network errors pass unchanged; a network error maps by the first match among "no such host", "connection refused" and the timeout flag, else passes unchanged |
| ParallelHttp.ParseErrorRange | internal/parallelhttp/parallelhttp.go:206-221 | The result is the input or one of the three fixed messages, and a rewritten error is never a network error |
| ParallelHttp.ParseErrorIdempotent | internal/parallelhttp/parallelhttp.go:206-221 | Classifying twice equals classifying once |
| ParallelHttp.ParseErrorTextBeforeTimeout | internal/parallelhttp/parallelhttp.go:209-217 | A network error saying "connection refused" that also timed out is classified by its text |
| ParallelHttp.Outcome | internal/parallelhttp/parallelhttp.go:150-204 | A build failure gives no Response, the error and its text; a sent call has a Response stamped with its start; cancellation beats a transport error, which beats a reply; only a reply sets status and duration; the message is always the error's text or absent |
| ParallelHttp.Process | internal/parallelhttp/parallelhttp.go:162-203 | Building the Call and Response objects and updating them through SetError, SetDuration and the status field yields exactly Outcome |
| ParallelHttp.EligibleOutcome | internal/parallelhttp/parallelhttp.go:226 | A call feeds the percentiles exactly when it was sent, not cancelled, answered, and took non-zero time |
| ParallelHttp.Rank | internal/parallelhttp/parallelhttp.go:244-250 | The percentile index is always a valid index into the n samples |
| ParallelHttp.RankIsNearestRank | internal/parallelhttp/parallelhttp.go:245-248 | For 1..100 percent the index is the smallest r with 100(r+1) >= k·n, i.e. ceil(k·n/100) - 1; the clamp never fires |
| ParallelHttp.RankMonotone | internal/parallelhttp/parallelhttp.go:243-256 | A higher percentile never selects a lower index |
| ParallelHttp.ComputeLatency | internal/parallelhttp/parallelhttp.go:223-257 | The loop that filters eligible durations, then the sort and the three picks, gives the nearest-rank percentiles of the eligible durations |
| ParallelHttp.NoSamplesZeroLatency | internal/parallelhttp/parallelhttp.go:234-241 | With no eligible call all three percentiles are "0s" |
| ParallelHttp.SampleFromCall | internal/parallelhttp/parallelhttp.go:224-230 | Every collected duration is the duration of some eligible call |
| ParallelHttp.SomeSample | internal/parallelhttp/parallelhttp.go:224-230 | One eligible call makes the sample list non-empty |
| ParallelHttp.RanksOrdered | internal/parallelhttp/parallelhttp.go:252-256 | In ascending samples the P50, P90 and P99 picks are non-decreasing |
| ParallelHttp.PercentilesOrdered | internal/parallelhttp/parallelhttp.go:232-256 | For every list of calls, P50 <= P90 <= P99, all rendered durations ("0s" three times when nothing is eligible) |
| ParallelHttp.PercentilesObserved | internal/parallelhttp/parallelhttp.go:223-257 | Every percentile is "0s" or a non-zero duration of some eligible call |
| ParallelHttp.SamplesSnoc | internal/parallelhttp/parallelhttp.go:225-230 | Appending a call appends its duration exactly when it is eligible |
| ParallelHttp.SamplesAppend | internal/parallelhttp/parallelhttp.go:225-230 | The samples of a concatenation are the concatenated samples |
| ParallelHttp.SamplesPermutation | internal/parallelhttp/parallelhttp.go:223-232 | Rearranging the calls rearranges the samples |
| ParallelHttp.PercentilesOrderIndependent | internal/parallelhttp/parallelhttp.go:140-145 | The latency depends only on the multiset of calls, not on the channel's drain order |
| ParallelHttp.ExampleSamples | internal/parallelhttp/parallelhttp.go:224-230 | In an eight-call example the timed-out, unbuilt and zero-duration calls are dropped and the other durations kept in order |
| ParallelHttp.PercentilesFromSorted | internal/parallelhttp/parallelhttp.go:232-256 | The percentiles can be read off any ascending rearrangement of the samples |
| ParallelHttp.ExampleSorted | internal/parallelhttp/parallelhttp.go:232 | The example's samples sort to 10, 20, 30, 40, 50 units |
| ParallelHttp.RanksOfFive | internal/parallelhttp/parallelhttp.go:245-248 | For five samples the indices are 2, 4 and 4 |
| ParallelHttp.PercentilesExample | internal/parallelhttp/parallelhttp.go:243-256 | The example yields P50 = 30, P90 = 50, P99 = 50 units (30 ms, 50 ms, 50 ms for a 1 ms unit) |
| ParallelHttp.RunOf | internal/parallelhttp/parallelhttp.go:102-148 | A negative client timeout is reported first, whatever the input, then Validate's error; a rejected run has no calls and only its start time; an accepted run has exactly `parallel` calls, each the outcome of its transport, the start and end times, their difference, and the percentiles of those calls |
| ParallelHttp.Run | internal/parallelhttp/parallelhttp.go:102-148 | The launching loop, Process per call and ComputeLatency produce exactly RunOf |
| ParallelHttp.AllFailedRun | internal/parallelhttp/parallelhttp.go:118-145 | When no call gets an uncancelled reply, every call carries an error and all percentiles are "0s" |
| Sorting.Insert | internal/parallelhttp/parallelhttp.go:232 | Inserting into a sorted sequence keeps it sorted and adds exactly the element |
| Sorting.Sort | internal/parallelhttp/parallelhttp.go:232 | The result is sorted and a permutation of the input |
| Sorting.SortedUnique | internal/parallelhttp/parallelhttp.go:232 | Two sorted permutations of each other are equal, so any correct sort yields the same data |
| Text.ContainsIffOccurs | internal/parallelhttp/parallelhttp.go:209-212 | The scanning Contains holds exactly when the substring occurs at some index |
| Text.MissingCharNotContained | internal/parallelhttp/parallelhttp.go:209-212 | A text lacking a character of the pattern does not contain it |
| Text.UpperRune | internal/parallelhttp/parallelhttp.go:82 | An upper-case ASCII letter comes only from itself, its lower-case letter, U+0131 or U+017F |
| Text.ToUpper | internal/parallelhttp/parallelhttp.go:82 | Upper-casing keeps the length |
| Text.ToUpperIdempotent | internal/parallelhttp/parallelhttp.go:82 | Upper-casing twice equals upper-casing once |
| Api.Wrap64 | internal/api/handler_parallel.go:75 | The 64-bit result is congruent to the exact value modulo 2^64, and equal to it when it fits |
| Api.Milliseconds | internal/api/handler_parallel.go:67-75 | Milliseconds to a Duration is exact for -(MaxInt64/1e6)..MaxInt64/1e6 |
| Api.MillisecondsWrap | internal/api/handler_parallel.go:67-69 | A request_timeout from 9223372036855 to 18446744073709 ms wraps to a negative Duration, and the run with that timeout fails with "invalid value for timeout" |
| Api.MillisecondsWrapCycles | internal/api/handler_parallel.go:67 | Past that band the wrapped sign cycles: ±18446744073710 ms gives ±448384 ns, and ±2^58 ms gives 0 |
| Api.Entry | internal/api/handler_parallel.go:107-117 | A flat result always carries the call's message; with no Response every other field is zero, otherwise time, status and duration text come from it |
| Api.Quo | internal/api/handler_parallel.go:124 | Division truncates toward zero, as Go's integer division does |
| Api.Summarize | internal/api/handler_parallel.go:87-125 | One entry per call, in order; total = number of calls; successes = the number of calls with no error, a Response and status < 400; 0 <= successes <= total; successes + errors = total; the average and the run's latencies |
| Api.SuccessCountCounts | internal/api/handler_parallel.go:101-105 | The success count is the number of calls with no error, a Response and status < 400 |
| Api.AllFailedSummary | internal/api/handler_parallel.go:99-105 | When every call carries an error there are no successes and every call is an error |
| Api.SuccessCountAppend | internal/api/handler_parallel.go:99-105 | Success counts add over concatenation |
| Api.TotalDurationAppend | internal/api/handler_parallel.go:111-113 | Total durations add over concatenation |
| Api.CountsPermutation | internal/api/handler_parallel.go:99-120 | Reordering the calls changes neither the success count nor the total duration |
| Api.SummaryOrderIndependent | internal/api/handler_parallel.go:87-125 | The summary depends only on the multiset of calls and the run's statistics |
| Api.AverageCountsFailures | internal/api/handler_parallel.go:122-125 | One 100 ms reply and one unbuilt request average to 50 ms: every call is in the divisor |
| Api.HandlerOf | internal/api/handler_parallel.go:52-131 | A non-POST gets 405 method.not.allowed; a POST whose body does not decode gets bad.request; a refused run gets validation.error with the run's message; the reply is OK exactly when the method is POST, the body decodes, the converted timeout is not negative and the input validates, and then it is the run's summary, whose total equals the requested parallel |
| Api.HandlerParallel | internal/api/handler_parallel.go:52-131 | The method and body checks, the run and the summary loop reply exactly as HandlerOf |
| Api.Respond | internal/api/handler_parallel.go:87-131 | The counting loop over a preallocated result slice, followed by the average, produces exactly Summarize |
| Api.HandlerMethodIsCaseSensitive | internal/api/handler_parallel.go:55-59 | A valid payload whose target method is "post" runs when sent by POST, but the same payload sent with request method "post" is refused with 405 |
| Api.NegativeTimeoutRejected | internal/api/handler_parallel.go:67-85 | A POST with a request_timeout from -9223372036854 to -1 ms gets validation.error, "invalid value for timeout", status 422 |
| Api.LargeNegativeTimeoutRuns | internal/api/handler_parallel.go:67-76 | A request_timeout from -18446744073709 to -9223372036855 ms wraps to a positive timeout, and an otherwise valid POST runs and is answered OK |

## Left out

- Concurrency: the goroutines, the two WaitGroups and the buffered channel of `Run` become a sequential loop. The drain order is taken as the index of the call. `PercentilesOrderIndependent` and `SummaryOrderIndependent` cover any other order.
- The HTTP exchange itself is an input (`Transport`):
  - building the request with `http.NewRequestWithContext`;
  - setting headers and the body reader;
  - `client.Do`;
  - closing the body;
  - `context.WithTimeout` and `ctx.Err()`.
- The body and headers of `Input` are carried but never inspected.
- `New(timeout)` and the `http.Client` become the client timeout, passed to `Run` as a parameter.
- `time.Now` and `time.Since` become integer clock readings passed in.
- ParallelHttp.RunOf: `Time.Sub` saturates at the 64-bit range and `Stats.Duration` is not; the end time is any reading given.
- `time.Duration.String()` formatting (for example "1.5s"): texts are kept as the durations they render.
- `errors.As`, `errors.Is` and the `net.Error` interface: an error is flattened into its text, a network-error flag, that error's timeout flag, and a cancelled flag.
- ParallelHttp.Rank: the float expression `math.Ceil(p*float64(n))` is replaced by the integer `(k*n + 99) / 100`. This assumes the float products of 0.5, 0.9 and 0.99 with n round to the exact value, which the model does not check.
- Text.ToUpper, Text.UpperRune: they map only the characters whose upper-case form is an ASCII letter. Other characters (for example 'é') are kept as they are. This cannot change whether a method is one of the five accepted names, but on such text the model's `ToUpper` differs from Go's.
- ParallelHttp.Response.SetDuration: the `*Response` pointer is shared with the returned `Call`. The model copies it into a value once `process` returns, since nothing writes to it afterwards.
- Api.Respond: the sum of durations and the success and error counters are unbounded integers. The 64-bit wrap-around of a sum of huge durations is not modelled. Only the millisecond conversions wrap (`Milliseconds`).
- JSON decoding of the request body is an input: the decoded payload, or `None` when decoding fails. JSON encoding of the reply, `RespondOK`/`RespondError` and the routing in `internal/api/api.go` are not part of this model.
- The command-line tool, the service entry point, the demo and health handlers, and the static page are not part of this model.
