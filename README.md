# cse-region-client: breaker and fallback router

This project models the resiliency layer that `cse-region-client` places in
front of a PD (placement driver) client. It has two parts.

- `breaker.go` (module `Breaker`, file `breaker.dfy`) is the asynchronous
  breaker. It holds an availability flag (`Open`/`Closed`) that changes only
  by compare-and-swap. It refuses admitted requests while the flag is open.
  It starts one background probe loop per closed-to-open transition. That
  loop closes the flag again on the first healthy probe. A run-once `Close`
  stops the loop through the done channel. The class `AsyncBreaker` carries
  the flag, the `sync.Once` state and the done channel (its buffered values
  and whether it is closed). Two ghost counters record how many probe loops
  are alive and how often the shutdown body ran. `Valid()` keeps these
  invariants: at most one live loop, and only while the flag is open; before
  shutdown, an open flag always has a live loop; the channel is filled and
  closed only by the shutdown body, at most once.
- `fallback.go` (module `Fallback`, file `fallback.dfy`) is the router
  `ClientWithFallback`. The generic function `Dispatch` states its rule once:
  run the primary call through the breaker; on a nil error return the
  primary's result; on any error re-issue the same call with the same
  arguments to the secondary and return that outcome unchanged. Each of the
  six operations is written the way the source writes it, and its contract
  says it is that instance of `Dispatch`. The module also models the default
  trip policy `ifMostFailures`, the default options, the defaulting of a nil
  options argument in `NewClientWithFallback`, and `Close`.

`outcomes.dfy` (module `Outcomes`) holds Go's `(value, error)` convention as
`Outcome<T>` and the errors that can occur.

Abstractions:
- gobreaker is a third-party library. Its verdict before a request (run it,
  or refuse it with its own error) is the `Gate` parameter of `Execute` and
  of the six router operations. When admitted, its `Execute` passes the inner
  result through unchanged. Its trip from closed to open reaches the breaker
  through `OnStateChange`, which the caller invokes.
- Each atomic compare-and-swap is one sequential step (`CompareAndSwap`).
  Spawning the probe goroutine increments the ghost `liveProbeLoops`.
- The probe loop's `select` is fed a sequence of `Wakeup`s. A `Tick` carries
  the probe's verdict, and `DoneRecv` is a receive on the done channel. A
  receive on done is possible only once the channel is closed. A run may end
  with the loop still waiting (`StillProbing`). So `Close` and operation
  calls can be interleaved between two runs of `ProbeLoop`.
- The backends' operations are functions of their arguments (`Operations`).
  A backend handle `PdClient` records only whether it was closed.
- Go's `any` result plus type assertion (`resp.(*pd.Region)`) becomes a type
  parameter of `Execute`.

`ifMostFailures` compares `float64(TotalFailures) / float64(Requests)` with
`0.4`. The model uses the integer test `5 * failures >= 2 * requests`, and
`IfMostFailures` proves this equal to the exact real comparison. For `uint32`
counts the float result agrees with the exact one. When the ratio is exactly
2/5, the rounded quotient is the same double as the literal `0.4`. Otherwise
the ratio differs from 2/5 by at least `1/(5 * 2^32)`. That gap is far larger
than the rounding error of one division. This argument is not mechanised.

The probe's timeout is a fixed one second (`fallback.go:95`); the `Timeout`
option goes to gobreaker, not to the probe.

## Model

| member | source | states |
|---|---|---|
| `Breaker.FirstExit` | breaker.go:96-106 | the loop ends at the first wake-up that is not a failing probe: every earlier wake-up is a failing tick, and the one at the index (if any) is a healthy tick or the done signal |
| `Breaker.FirstExitAfterFailures` | breaker.go:98-106 | after n failing probes, a healthy probe (or the done signal) ends the loop at exactly wake-up n: the flag is not closed before the first healthy probe, and is closed on it |
| `Breaker.AsyncBreaker.constructor` | breaker.go:55-77 | a new breaker has the flag closed, Close not yet run, an empty open done channel and no probe loop, and keeps the given settings |
| `Breaker.AsyncBreaker.CompareAndSwap` | breaker.go:87 | the swap happens iff the flag held the expected value; otherwise the flag is unchanged |
| `Breaker.AsyncBreaker.SendDone` | breaker.go:81 | the send adds one value to the done channel's buffer; its precondition is the channel's no-block/no-panic condition |
| `Breaker.AsyncBreaker.CloseDone` | breaker.go:82 | closing the done channel; its precondition is that it was not closed already |
| `Breaker.AsyncBreaker.Close` | breaker.go:79-84 | after any number of calls the body has run exactly once, the done channel is closed holding at most one value, and the flag and probe loops are untouched; a repeated call changes nothing and never double-closes |
| `Breaker.AsyncBreaker.OpenWith` | breaker.go:86-92 | returns true iff the flag was closed; the flag is open afterwards either way; one probe loop is started iff it returns true, so a second call while open starts none; the at-most-one-loop invariant is kept |
| `Breaker.AsyncBreaker.OnStateChange` | breaker.go:70-74 | only gobreaker's closed-to-open transition opens the flag (starting a loop iff the flag was closed); every other transition changes nothing |
| `Breaker.AsyncBreaker.ProbeLoop` | breaker.go:94-109 | failing probes leave the flag open and the loop running; the first healthy probe closes the flag and ends the loop; a done signal ends it without changing the flag; which of these happens, and after how many wake-ups, is given by `FirstExit`; the closing swap always succeeds |
| `Breaker.AsyncBreaker.Execute` | breaker.go:111-118 | gobreaker's refusal is returned as is; an admitted call returns `ErrUnavailable` while the flag is open, and exactly `f()` while it is closed |
| `Breaker.ExecuteIgnoresWhileOpen` | breaker.go:113-115 | while the flag is open the result does not depend on `f` (it is never invoked) and is an error |
| `Fallback.IfMostFailures` | fallback.go:56-59 | false whenever fewer than 5 requests; true iff at least 5 requests and the exact failure ratio is at least 0.4 |
| `Fallback.RatioAtLeastTwoFifths` | fallback.go:57-58 | for a positive request count, failures/requests >= 0.4 iff 5 * failures >= 2 * requests |
| `Fallback.IfMostFailuresExamples` | fallback.go:56-59 | 5 requests with 2 failures trip the policy, 5 with 1 do not, 4 requests never do |
| `Fallback.DefaultCBOptions` | fallback.go:47-54 | the defaults are interval 5 s, timeout 1 s, probe interval 1 s and the trip policy `IfMostFailures` |
| `Fallback.Dispatch` | fallback.go:105-113 | the result is either the primary's successful result or the secondary's outcome verbatim for the same arguments; when gobreaker refuses or the flag is open it is the secondary's; when admitted and closed it is the primary's result if that succeeded, else the secondary's |
| `Fallback.SecondaryUntouchedOnSuccess` | fallback.go:106-111 | when the breaker-wrapped primary call succeeds, the result is the primary's and does not depend on the secondary at all |
| `Fallback.PrimaryUntouchedWhileOpen` | fallback.go:106-112 | while the flag is open, the result is the secondary's and does not depend on the primary at all |
| `Fallback.ClientWithFallback.NewClientWithFallback` | fallback.go:73-103 | a failure to build the secondary is returned and no router is made; otherwise the router holds the given primary and the new secondary, a fresh closed breaker named "pd-fallback-client" with MaxRequests 0, and the caller's options, or exactly the defaults when none are given |
| `Fallback.ClientWithFallback.GetRegion` | fallback.go:105-113 | is the dispatch rule applied to the primary's and the secondary's region lookup with the same context, key and options |
| `Fallback.ClientWithFallback.GetPrevRegion` | fallback.go:115-123 | is the dispatch rule applied to the previous-region lookup with the same arguments |
| `Fallback.ClientWithFallback.GetRegionByID` | fallback.go:125-133 | is the dispatch rule applied to the region-by-id lookup with the same arguments |
| `Fallback.ClientWithFallback.ScanRegions` | fallback.go:135-143 | is the dispatch rule applied to the region scan with the same keys, limit and options |
| `Fallback.ClientWithFallback.GetStore` | fallback.go:145-153 | is the dispatch rule applied to the store lookup with the same arguments |
| `Fallback.ClientWithFallback.GetAllStores` | fallback.go:155-163 | is the dispatch rule applied to the store listing with the same arguments |
| `Fallback.ClientWithFallback.Close` | fallback.go:165-168 | closes the secondary client and shuts the breaker down (run-once), never closes the primary (given the two assumptions under "## Left out"), and leaves the flag and the live probe loops as they were |

## Left out

- gobreaker's internals (rolling counts window, its own closed/open/half-open machine, `MaxRequests`, `Timeout`, `Interval`, `IsSuccessful`, panic recovery) are a third-party library. The model keeps only its admit/refuse verdict (`Gate`) and its closed-to-open notification (`OnStateChange`). For the same reason, the model does not say that an `ErrUnavailable` answer is counted as a failure in gobreaker's window.
- Real concurrency, goroutines, `time.Ticker` and `select` fairness are not modelled. Each atomic operation is one step, and the probe loop's wake-ups are an input sequence.
- `IfMostFailures` does not model float64 arithmetic. It uses the exact integer test, which agrees with the float comparison for `uint32` counts (argued above, not mechanised).
- `probePD` and the probe closure (fallback.go:61-71, 93-96) are a network call with a timeout and logging. Each probe's verdict is the `healthy` field of a `Tick`.
- `NewClient` and the secondary client are not part of this model. Whether building the secondary succeeds is a parameter of `NewClientWithFallback`, and so is the new client itself. TLS configuration is passed to `NewClient` only and is not modelled.
- The other `pd.Client` methods that `ClientWithFallback` inherits by embedding go straight to the primary client. They are not modelled.
- metrics.go only registers a Prometheus histogram. It is not part of this model.
- tests/client_test.go runs against a live PD cluster. It is not part of this model.
- NewClientWithFallback and ClientWithFallback.Close rest on two assumptions the shown code does not establish: that `NewClient` returns a handle distinct from the primary client it is given (the `requires` of `NewClientWithFallback`, kept as `primary != cse` in `ClientWithFallback.Valid()`), and that closing the secondary client never closes the primary (`PdClient.Close` changes only its own handle). `NewClient` is not part of this model, so "Close never closes the primary" holds only under these two assumptions.
- `Outcome` holds either a value or an error, never both. A backend that returns a non-nil result together with a non-nil error is not modelled; the source hands such a pair from the secondary back unchanged.
