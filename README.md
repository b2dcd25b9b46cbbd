# httpthrottle fixed-window quota, in Dafny

This project models the `Quota` of the Go package `httpthrottle`: a
non-blocking limiter that lets at most `Limit` events happen within
`Interval`, counted from the first call to `Wait`. Once the window is
exhausted every call fails with `ErrQuotaExceeded` until a call arrives
strictly after the window's end, which opens a new window.

`quota.dfy` holds one module, `HttpThrottle`:

- `QuotaState`, `Step` and `Run`: the quota as a value, one call to `Wait`
  as a pure step function, and a sequence of calls as a fold of `Step`.
  The lemmas about call sequences are stated over these.
- `Quota`: a class with the fields `Interval`, `Limit`, `c` and `from`.
  Its constructor models `NewQuota`. Its method `Wait(now)` updates `from`
  and `c` in place, and its contract ties the new state and the result to
  `Step`.
- `Burst` and `QuotaTrace`: the call sequence of the package's quota test,
  replayed on the class. The limit is 2 per 10 time units. The bursts are at
  times 0, 11 and 32, and each burst gives two successes and then two
  failures.

The clock reading `now` is an integer parameter. Successive readings need
not increase, because the Go `Wait` reads `time.Now().UTC()`, which drops
Go's monotonic clock reading. The zero `time.Time` that marks an unset window
start is `None` in an `Option<int>`. `ErrQuotaExceeded` and `nil` become the
two cases of `Outcome`.

## Model

| member | source | states |
|---|---|---|
| HttpThrottle.NewState | quota.go:23-28 | a new quota built from `(d, n)` has interval `d` and limit `n`, has counted nothing and has no window start yet, so it satisfies the state invariant |
| HttpThrottle.Quota.constructor | quota.go:23-28 | `NewQuota(d, n)` has `Interval = d`, `Limit = n`, counter 0 and window start unset |
| HttpThrottle.Step | quota.go:33-49 | a call never changes `Interval` or `Limit` and always leaves a window start set; it fails if and only if the counter after the increment exceeds `Limit`; it keeps the invariant "unset start and count 0, or set start and count at least 1" |
| HttpThrottle.Run | quota.go:33-49 | a sequence of calls yields one outcome per call, keeps the configuration and keeps the state invariant |
| HttpThrottle.Quota.Wait | quota.go:33-49 | the new `from`, `c` and result are those of `Step`. If `now` is strictly after the window end (the start taken as `now` when unset), then `from = now` and `c = 1`; otherwise `c` is the old count plus one. The result is `QuotaExceeded` if and only if `c > Limit`. `Interval` and `Limit` do not change |
| HttpThrottle.FirstCallOpensWindow | quota.go:37-39 | the first call on an unused quota sets the window start to `now`, counts 1, and succeeds if and only if `Limit >= 1` |
| HttpThrottle.RolloverStartsNewWindow | quota.go:40-43 | a call strictly after `from + Interval` sets `from = now` and `c = 1` and leaves the rest unchanged |
| HttpThrottle.CallInWindowCounts | quota.go:40-47 | a call at or before `from + Interval`, exactly on the boundary included, keeps `from` and adds one to the counter. It fails if and only if the new count exceeds `Limit`, and the increment is kept when it fails |
| HttpThrottle.CallsInWindow | quota.go:44-47 | calls that all fall within the current window keep it and are each counted. The i-th of them succeeds if and only if `c + i + 1 <= Limit` |
| HttpThrottle.FreshWindow | quota.go:36-48 | once a window opens at `t0`, either on first use or by a rollover, the k-th call of that window (the opening one included) succeeds if and only if `k < Limit` |
| HttpThrottle.ExceededStaysExceeded | quota.go:44-47 | within one window, once a call fails every later call fails too |
| HttpThrottle.NonPositiveLimitAlwaysFails | quota.go:44-47 | with `Limit <= 0`, every call of any sequence fails |
| HttpThrottle.Burst | quota_test.go:14-27 | four calls at one time that opens a window with limit 2 return Ok, Ok, QuotaExceeded, QuotaExceeded, and leave the window starting at that time with count 4 |
| HttpThrottle.QuotaTrace | quota_test.go:11-33 | a quota of 2 per 10 time units, called in bursts of four at times 0, 11 and 32, returns Ok, Ok, QuotaExceeded, QuotaExceeded for each burst; each of the three times opens a new window (first use, then strictly after 0 + 10, then strictly after 11 + 10), which discharges each burst's precondition |

## Left out

- The `sync.Mutex` in `Wait` (quota.go:34-35): each call is treated as atomic, which is all the lock provides.
- `time.Now().UTC()` and Go's `time.Time` and `time.Duration` arithmetic (quota.go:36, 40): the clock reading is an integer parameter and `Interval` is an integer. The saturation of `time.Time.Add` at the ends of its range is not modelled.
- The zero `time.Time` sentinel (quota.go:37): the model treats "unset" as a separate `None`. In Go, a clock reading equal to the zero time itself would leave the start looking unset. A real wall clock never reads that value.
- The `context.Context` argument of `Wait`: the Go `Wait` never uses it, so it is dropped.
- The overflow of Go's `int` counter `c` after endless calls in an exhausted window: the counter is a mathematical integer.
- `MultiLimiter.Wait`, `MultiLimiters` (transport.go:43-70): concurrent fan-out and fan-in through `errgroup` with context cancellation. Which error wins depends on completion order. This concurrency is not part of this model.
- `Transport.RoundTrip`, `Default`, `Custom` (transport.go:22-41): these wrap `net/http` round trippers. Their only logic is "wait, then delegate", and the delegate is a foreign call.
- The token-bucket limiter from `golang.org/x/time/rate` used in the tests is an external library and is not part of this model.
- The HTTP servers, sleeps and elapsed-time checks of the tests. `QuotaTrace` replays only the quota test's call pattern, with the sleeps turned into explicit clock readings.
