# Telemetry bootstrap, supervisor loop and message handlers

A Dafny model of the logic in a small Go service scaffold. The scaffold is an HTTP service with one `messages` table and optional OpenTelemetry export. The model covers three parts:

- **Telemetry bootstrap** (`telemetry.dfy`, module `Telemetry`), from `setupOTelSDK`.
  - A `Registry` class holds the `shutdownFuncs` list of cleanup steps, and a log of the steps that have run.
  - `Registry.Shutdown` is the `shutdown` closure. It runs every pending step once, in order, and folds their errors with `errors.Join`. Then it empties the list.
  - `Setup` models `setupOTelSDK`. It registers the steps of the optional trace and metrics pipelines. It unwinds them through `handleErr` when an opaque call fails.
  - Errors are trees (`Failure` leaves, `Joined` nodes), like the values `errors.Join` builds. `Leaves` lists the messages of an error's leaf errors, in order; `errors.Is` can still reach each of those leaves through the joins.
  - `SetupPlan` is the reference definition of what a setup registers and where it stops. `Accumulate` is the reference definition of the error that shutdown returns.
- **Supervisor loop** (`supervisor.dfy`, module `Supervisor`), from the `for`/`select` loop of `main`.
  - An `EventLoop` class holds the bounded event queue (capacity 5), the memory baseline `oldAlloc`, the log lines, and the status. The status is running, exited with a code, or blocked forever on a full queue.
  - Each `Step` is one `select` case, chosen by the environment. `Next` and `Run` are its reference definition.
  - The conversion `int64(m.Alloc)` and the int64 subtraction are written out with 64-bit wrap-around.
- **Message handlers** (`service.dfy`, module `Service`), from `handleData` and `retrieveMessages`.
  - A `Microservice` class holds the rows of the abstract `messages` table and the next auto-increment id.
  - The outcomes of decoding, INSERT and SELECT are inputs to the handlers.

`wrappers.dfy` holds the `Option` type. It stands for Go's nil results.

The opaque inputs are:
- the error results of `os.Create`, `newResource`, `newTraceProvider` and `newMeterProvider` (a `Foreign` record);
- what each cleanup step returns when it runs (a function `outcome`);
- the `select` case that fires, with the `Alloc` reading on a 60-second tick;
- the request body's decode result;
- the INSERT and SELECT errors.

## Model

| member | source | states |
|---|---|---|
| `Telemetry.Join` | src/cmd/otel.go:34 | The joined error is nil exactly when every argument is nil. Its leaf errors are all the arguments' leaf errors, in order. |
| `Telemetry.AccumulateNilIff` | src/cmd/otel.go:31-38 | The shutdown error is nil if and only if no step returned an error. |
| `Telemetry.AccumulateKeepsEveryError` | src/cmd/otel.go:28-35 | A failing step does not stop later ones and no error is lost. The shutdown error's leaves are every step's leaves, in step order. |
| `Telemetry.Registry.constructor` | src/cmd/otel.go:26 | The step list starts empty and nothing has run. |
| `Telemetry.Registry.Register` | src/cmd/otel.go:60-62 | Appends one step to the end of the pending list. Nothing runs. |
| `Telemetry.Registry.Shutdown` | src/cmd/otel.go:28-38 | Every pending step runs exactly once, in registration order. The list is then empty. The result is the `errors.Join` fold of the step results. Every registered step is either pending or has run once. |
| `Telemetry.ShutdownTwice` | src/cmd/otel.go:36-37 | A second shutdown runs nothing and returns nil. |
| `Telemetry.HandleErr` | src/cmd/otel.go:40-43 | Runs the whole pending list through shutdown. Returns the original error joined with the cleanup error. |
| `Telemetry.RunPipeline` | src/cmd/otel.go:52-73 | One pipeline branch. An empty destination registers nothing. Otherwise the sink's close step is registered, then the provider's shutdown step. A failure unwinds every pending step, and the branch returns the failure alone. |
| `Telemetry.Setup` | src/cmd/otel.go:25-100 | On full success the shutdown is non-nil, the error is nil, and the steps of `SetupPlan` are pending. If `newResource` fails, nothing is registered. The bare return then gives the non-nil shutdown and the error joined with an empty cleanup. If a pipeline fails, the steps registered so far have all run and the shutdown is nil. The returned error is then the original failure alone: the join that `handleErr` stored in the named result is overwritten. |
| `Telemetry.FullSetupRegistersFourSteps` | src/cmd/otel.go:52-97 | With both sinks set and every call succeeding, there are exactly four steps: trace close, tracer shutdown, metrics close, meter shutdown. |
| `Telemetry.UnsetDestinationRegistersNothing` | src/cmd/otel.go:52-97 | An empty trace or metrics destination registers no step of that pipeline. |
| `Telemetry.CloseRegisteredBeforeShutdown` | src/cmd/otel.go:60-92 | Each provider shutdown step comes right after its sink's close step. So shutdown closes the sink before the provider flushes. |
| `Telemetry.MetricsFailureUnwindsTracePair` | src/cmd/otel.go:75-81 | If the metrics sink fails after a complete trace pipeline, the trace pair is what gets registered and then unwound. |
| `Supervisor.ToInt64` | src/cmd/main.go:93 | `int64(m.Alloc)`: the result is the unique int64 congruent to the reading modulo 2^64. So a reading below 2^63 converts unchanged, and a larger one becomes the reading minus 2^64. |
| `Supervisor.Wrap64` | src/cmd/main.go:113 | The int64 subtraction: the result is an int64 congruent to the exact difference modulo 2^64. It equals the exact difference when that fits in an int64. |
| `Supervisor.EventLoop.constructor` | src/cmd/main.go:91-94 | The baseline is the first reading, that reading's stats are logged, and the queue is empty. |
| `Supervisor.EventLoop.Step` | src/cmd/main.go:96-120 | One iteration gives exactly the state `Next` defines. The deferred telemetry shutdown is never run, even on the quit path. |
| `Supervisor.InterruptQueuesQuitZero` | src/cmd/main.go:104-109 | SIGINT never exits directly. It queues `{eventQuit, 0}` and logs, or blocks forever when the 5-slot queue is full. |
| `Supervisor.ReceiveDispatch` | src/cmd/main.go:98-103 | A received message is removed from the queue. A Quit exits with exactly its `idata`. Any other kind is ignored. |
| `Supervisor.IdleCases` | src/cmd/main.go:105-118 | A signal other than SIGINT and the 15-minute case change no state. |
| `Supervisor.TickRule` | src/cmd/main.go:110-116 | For readings below 2^63, a tick replaces the baseline and logs stats iff the allocation moved by more than 1 MiB. Otherwise nothing changes. |
| `Supervisor.TickKeepsBaselineClose` | src/cmd/main.go:112-116 | After any tick, the baseline is within 1 MiB of the reading, in int64 arithmetic. |
| `Supervisor.StoppedIsFinal` | src/cmd/main.go:100-102 | Nothing happens after `os.Exit` or after a blocked send. |
| `Supervisor.ExitCodeIsZero` | src/cmd/main.go:98-108 | Only SIGINT fills the queue. So every queued message is Quit(0), and any exit has code 0. |
| `Supervisor.InitialRunsExitWithZero` | src/cmd/main.go:91-108 | Every run from the start state that exits, exits with code 0. |
| `Supervisor.InterruptThenReceiveExits` | src/cmd/main.go:98-108 | From any running state whose queue holds only interrupt quits and has a free slot, SIGINT followed by a receive exits with code 0. |
| `Service.Microservice.constructor` | src/internal/db/db.go:21 | The created table is empty and the first id is 1. |
| `Service.Microservice.HandleData` | src/service/microservice.go:76-122 | Every response has status 200; the handler never sets 400. A body that fails to decode gives its error with the table unchanged. A failed insert gives its error with the table unchanged. Otherwise exactly one row is appended, with a fresh id larger than all earlier ids. The insert happens before the emptiness check, so an empty message is stored and then rejected with "provide a message". A non-empty message gets `success: true` with `data` null. |
| `Service.Microservice.RetrieveMessages` | src/service/microservice.go:52-74 | A failed select gives status 400 with its error. Otherwise the response is `success: true` with every stored row, in insertion order (see Left out). The table is never changed. |
| `Service.Microservice.PostThenGet` | src/service/microservice.go:92-121 | A successful non-empty POST followed by a successful GET lists the earlier rows, then the new message under an id larger than all of theirs. |
| `Service.EmptyTableListsNothing` | src/service/microservice.go:58-73 | A GET on a new table succeeds with an empty list of rows. |

## Behaviour of the code worth noting

The model follows the code as written, including these points:

- **Failure inside a pipeline.** The doc comment of `handleErr` (src/cmd/otel.go:40) says it makes sure that all errors are returned. But each pipeline branch declares its own `err` with `:=` (src/cmd/otel.go:55, 78). So `return nil, err` returns the original failure alone, and the join that `handleErr` stored in the named result is discarded, with any cleanup errors in it. `Telemetry.Setup` states this; its ghost result `handled` shows the discarded value.
- **`newResource` failure.** The bare return (src/cmd/otel.go:49) returns the non-nil `shutdown` closure, not nil.
- **POST /data.** The insert runs before the empty-message check, so an empty message is stored and then rejected. `handleData` never sets a status, so its error responses are 200. A successful POST answers `data: null`, not the new row's id.
- **Configuration fields.** `src/internal/config/config.go` as shown has no trace or metrics destination fields; they are commented out. The model takes them as `otel.go` uses them.

## Left out

- The configuration loader is not part of this model. The env-variable parsing is library code. The model takes the two telemetry destinations as a given `Config`.
- Opening the database and creating the table (`src/internal/db/db.go`) are foreign I/O that panic on failure. The model starts from an empty table.
- `newResource`, `newTraceProvider` and `newMeterProvider` are SDK constructors. Only their error results are modelled. The batch timeout, export interval and the global `otel.Set*Provider` calls are left out.
- The startup part of `main` is not modelled: config load, log file opening, `setupOTelSDK` error panics, the `defer` registrations and the server goroutine. `EventLoop` holds only the telemetry registry, to state that the quit path never runs its shutdown. The deferred log-file close is bypassed by `os.Exit` in the same way, but it is not modelled separately.
- Goroutines, `signal.Notify`, timers and real `select` scheduling are modelled only as the input chosen at each step. A new 60-second timer is created on every iteration, so in the real program the 15-minute case can never fire. The model still admits it, as an input that changes nothing.
- `Supervisor.EventLoop.Step`: models `os.Exit` with the full `idata`. The operating system's truncation of exit codes is not modelled.
- `runtime.ReadMemStats` and the formatting in `printMemStats` are left out. The reading is an input, and a stats log line records only `Alloc`. `utils.Abs` is not part of this model; it is taken as the mathematical absolute value.
- Not modelled: HTTP serving and routing, JSON encoding and decoding, tracing spans, response headers, and the request-log middleware. So the model does not say whether an empty SELECT result is encoded as `[]` or `null`, or how `db.Message` fields are named in JSON.
- The SQL engine is reduced to a row list and a counter. Concurrent requests are not modelled: each handler call is one atomic step. The 64-bit limit of the id is not modelled.
- `Service.Microservice.RetrieveMessages`: returns the rows in insertion order, which is SQLite's rowid scan order for this query. The query (src/service/microservice.go:59) has no ORDER BY, and SQL guarantees no row order. So the ordering conclusions of `RetrieveMessages` and `PostThenGet` hold only under that assumption. Without it, the listing is some permutation of the stored rows.
- The "Skipping trace logging" and "Skipping metrics logging" info lines (src/cmd/otel.go:72, 96) are not modelled. The telemetry model has no log.
