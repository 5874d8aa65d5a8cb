# drone-pod-scaler: the pending-jobs counter and the scaling decision

The program polls a Drone CI server's Prometheus metrics endpoint, reads the
`drone_pending_jobs` gauge and keeps a process-wide counter,
`cummulativePendingJobs`. After each poll it logs the counter and one of three
recommendations: scale up, scale down, or nothing to do. This project models
that logic in Dafny and proves properties of it:

- `config.dfy` (module `Config`): the `Drone` endpoint record and the metrics URL. The URL is built by plain
  concatenation. It is proved equal to a model of the `%s://%s:%s%s` format the
  program passes to `fmt.Sprintf`. The module also holds the bearer-token
  Authorization rule, the environment lookup with a default, and the start-up
  configuration.
- `scaling.dfy` (module `Scaling`): the three-way threshold on the counter and the line
  logged for each decision.
- `accumulator.dfy` (module `Accumulator`): how one poll changes the counter (`Update`, `Poll`),
  and how a sequence of polls does (`Replay`). It also has lemmas about
  non-negativity, composition, bounds, parity and decay under an empty queue.
- `scaler.dfy` (module `Scaler`): the class `Poller`, which holds the counter as a mutable field.
  Its `GetMetrics` method performs one poll. Its `Run` method is the main loop
  over a finite run of cycles. The module also has lemmas about the reports the
  loop logs.
- `wrappers.dfy` (module `Wrappers`): the `Option` datatype.

The outcome of one poll is a `Sample`, which is an `Option<real>`. `None`
means the HTTP request failed. `Some(v)` means the gauge was read with value `v`.

The counter follows the code as written:
- a successful nonzero reading adds a fixed 1, not the reading's value, so the counter counts polls, not jobs;
- a zero reading when the counter is 0 takes the `else` branch, so the counter
  becomes 1 rather than staying at 0. Under a permanently empty queue the
  counter therefore alternates between 0 and 1 (`ZerosDecayThenAlternate`),
  and the decision alternates between scale down and nothing to do
  (`BurstThenEmptyQueue`);
- `main` ignores the error that `GetMetrics` returns. A failed cycle leaves the
  counter unchanged, but its counter value and decision are still logged.
  `Run` and `Trace` therefore produce one report for every cycle.

## Model

| member | source | states |
|---|---|---|
| `Config.Fqdn` | main.go:27-29 | the URL is `Sprintf("%s://%s:%s%s", protocol, host, port, metricsEndpoint)` under a model of `%s` formatting, and its length is the sum of the parts plus the four separator characters |
| `Config.FqdnIsFormatted` | main.go:27-29 | the format string has four `%s` verbs, and formatting it gives `protocol + "://" + host + ":" + port + endpoint` |
| `Config.FqdnEndsInMetrics` | main.go:27-29 | with the configured endpoint, the URL ends in `/metrics` |
| `Config.AuthorizationHeader` | main.go:34-36 | an Authorization header is present iff the token is non-empty; when present it is `"Bearer " + token`; no other header is set |
| `Config.NewRequest` | main.go:33-36 | the request is a GET to the formatted URL; it carries `Bearer <token>` exactly when the token is non-empty, and no other header |
| `Config.GetEnvVar` | main.go:86-92 | a variable that is set yields its value; an unset variable yields the default |
| `Config.SetButEmptyIsKept` | main.go:86-92 | a variable set to the empty string yields the empty string, whatever the default is |
| `Config.LoadSettings` | main.go:55-69 | each setting is the environment value when set, otherwise `""` for the token, `localhost`, `80`, `http`, and `1` for the timeout; the endpoint is always `/metrics` |
| `Config.DefaultSettings` | main.go:55-69 | with an empty environment the program polls `http://localhost:80/metrics` without an Authorization header |
| `Scaling.Classify` | main.go:74-80 | scale up iff the counter exceeds 10; scale down iff it is 0; nothing to do iff it is nonzero and at most 10 |
| `Scaling.NoOpBand` | main.go:74-80 | for a non-negative counter, nothing to do is exactly the band 1..10 |
| `Scaling.MessageInjective` | main.go:75-79 | different decisions are logged with different lines |
| `Accumulator.Update` | main.go:46-50 | a successful poll moves the counter by exactly one up or down, and a non-negative counter stays non-negative |
| `Accumulator.ZeroReadingDecrements` | main.go:46-47 | a zero reading with a positive counter lowers it by exactly 1 |
| `Accumulator.NonZeroReadingIncrements` | main.go:48-49 | a nonzero reading raises the counter by exactly 1, whatever the reading's magnitude |
| `Accumulator.ZeroReadingAtZero` | main.go:46-49 | a zero reading with the counter at 0 moves it to 1 |
| `Accumulator.Poll` | main.go:38-50 | a failed fetch leaves the counter unchanged; a successful one moves it by one; non-negativity is kept |
| `Accumulator.ReplayAppend` | main.go:71-82 | polling `a` then `b` gives the same counter as polling `a + b` |
| `Accumulator.ReplayNonNegative` | main.go:46-50 | starting from a non-negative counter, no sequence of poll outcomes makes it negative |
| `Accumulator.FailuresChangeNothing` | main.go:38-41 | a run of failed polls leaves the counter where it was |
| `Accumulator.ReplayBounds` | main.go:46-50 | the counter falls by at most the number of zero readings and rises by at most the number of successful polls; its parity flips with every successful poll |
| `Accumulator.ZerosDecayThenAlternate` | main.go:46-50 | after `n` zero readings from `p`, the counter is `p - n` while `n <= p`, and then `(n - p) % 2` |
| `Scaler.Trace` | main.go:71-82 | the loop logs one report per cycle |
| `Scaler.ReportFor` | main.go:73-80 | a cycle's report holds the counter; it logs "We should probably scale now..." iff the counter exceeds 10, "Might want to scale down..." iff it is 0, and "Nothing to do..." iff it is nonzero and at most 10 |
| `Scaler.TraceAt` | main.go:71-80 | cycle `i` logs the counter after the first `i + 1` polls, together with that counter's classification and its log line |
| `Scaler.TraceNonNegative` | main.go:71-80 | starting from a non-negative counter, every logged counter is non-negative |
| `Scaler.ScaleUpNeedsElevenSuccesses` | main.go:46-50 | from process start, scaling up takes at least eleven successful polls |
| `Scaler.EmptyQueueScalesDown` | main.go:46-47 | from a counter `p`, the first scale-down under an empty queue comes after exactly `p` zero readings |
| `Scaler.BurstThenEmptyQueue` | main.go:46-80 | from 0, the readings 5, 0, 0, 0 log the counters 1, 0, 1, 0 with nothing to do, scale down, nothing to do, scale down, and those decisions' lines |
| `Scaler.Poller.constructor` | main.go:20 | the counter starts at 0 |
| `Scaler.Poller.GetMetrics` | main.go:32-51 | builds the request, reports failure exactly when the fetch failed, leaves the counter unchanged on failure, otherwise applies the update rule; the counter stays non-negative |
| `Scaler.Poller.Run` | main.go:71-82 | after the cycles, the counter is the replay of their outcomes and the log is their trace; the counter stays non-negative |

## Left out

- HTTP request and response handling (main.go:37-42) is network I/O. Its outcome is the `Sample` parameter of `GetMetrics`, with `None` standing for a transport error.
- Prometheus text parsing with `expfmt.TextParser` (main.go:43-45) is a foreign library. The program also ignores the parse error. The model takes the gauge value as already extracted.
- A body without `drone_pending_jobs` makes the indexing at main.go:45 panic. The model has no panic: a `Some(v)` sample stands only for a body that contains the metric.
- Float64 semantics of the gauge (main.go:45) are not modelled. The reading is a `real`, and only the zero test at main.go:46 affects the counter.
- The infinite loop and `time.Sleep` (main.go:71, main.go:81) are not modelled. `Run` covers any finite run of cycles, without timing.
- `strconv.Atoi` of the timeout (main.go:61) is a foreign call. The timeout is kept as the string read from the environment.
- `log.Printf` and `log.Println` (main.go:73-79) are output. The model returns what each cycle logs as a `Report` instead: the counter, the decision, and the decision's line (`Message`).
- `Accumulator.Update`: the counter is an unbounded integer. Go's `int` is 64 bits wide on 64-bit targets and wraps after about 2^63 increments there; on 32-bit targets it is 32 bits wide and wraps after 2^31 - 1 increments. If the timeout is 0 or does not parse, `Atoi` gives 0 and nothing paces the loop, so the 32-bit bound is reachable. The model does not capture that wrap-around.
- `Config.NewRequest`: the model assumes the URL parses. `http.NewRequest` (main.go:33) fails on a URL that does not parse, for example with a non-numeric port or a host containing a space. The program ignores that error and keeps a nil request. It then panics at main.go:35 when the token is non-empty, and in `client.Do` at main.go:38 otherwise. URL parsing is library code and is not modelled.
- `Scaler.Poller.GetMetrics`: for the same reason, it always builds a request and then applies the poll outcome. It does not model the panic on a URL that does not parse, so `Run` also describes cycles that such a configuration never reaches.
- `Config.Fqdn`: `Format` models only the `%s` verb with exactly as many arguments as verbs. That is all the URL format uses. It does not model `fmt`'s other verbs or its handling of missing or extra arguments.
- `k8s()` (main.go:94-156) is an unused Kubernetes client stub. It is external API plumbing that the polling logic never calls.
