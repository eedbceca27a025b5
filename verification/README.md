# Hot database update of the trivy RPC server, in Dafny

The trivy server answers vulnerability-scan RPCs against a local database
file while a background worker replaces that file once an hour. This project
models that update cycle and the request wrappers around it
(`pkg/rpc/server/listen.go`), and the level routing of the process logger
(`pkg/log/logger.go`). It proves what each step changes and what it leaves
alone.

The process state is explicit: the metrics gauge, the open/closed database
handle, the live database file, the stored metadata record, the worker's
temporary directory, the counters of the two wait groups (`dbUpdateWg`, the
update-pending count, and `requestWg`, the in-flight count), and a log of the
actions taken, in order.

- `WorkerSpec` (worker_spec.dfy) describes every operation as a function on
  that state.
- `Listen.Server` (listen.dfy) is the same state as a class. Its methods
  follow the Go code statement by statement. Each method is proved to produce
  exactly the state and error of its `WorkerSpec` function. Go's `defer` is
  modelled by splitting a function where it registers the deferred call: the
  rest of the body becomes its own method, and the deferred call runs after
  that method returns, on every path.
- `WorkerProps` (worker_props.dfy) proves what the cycle guarantees: one lemma
  per branch, the order of the hot-update steps, the permanence of a discarded
  gauge across the worker's loop, and the balance of the in-flight counter
  over a burst of requests.
- `Logger` (logger.dfy) models the two level predicates, the tee of two cores
  that `NewLogger` builds, and `InitLogger`.

Every call into code outside the model is an input (the `Env` record of one
cycle, a `Step` outcome, or a parameter):

- the database client's `NeedsUpdate`, `Download` and `UpdateMetadata`;
- `db.Close` and `db.Init`;
- `utils.CopyFile`, `ioutil.TempDir` and the metadata file read;
- the two clock readings of `update` (lines 114 and 129);
- opening the null device.

A blocking wait is a precondition, and only on the paths that reach it.
`requestWg.Wait()` requires no request in flight. `dbUpdateWg.Wait()`
requires no update pending.

Three behaviours of the code worth knowing:

- Requests are held only while an update is in progress (listen.go:42-43).
  A swap that fails after `db.Close` (at the copy, the metadata write or
  `db.Init`, listen.go:157-168) still runs the deferred `dbUpdateWg.Done()`
  and leaves the handle closed. The next request runs its handler against
  the closed database (`WorkerProps.FailedSwapServesOnClosedDb`).
- Each stage of `hotUpdate` returns its own wrapped error (listen.go:138-168),
  but `update` replaces every one of them with the bare text "failed DB hot
  update" (listen.go:127), and every `NeedsUpdate` error with "failed to
  check if db needs an update" (listen.go:120). The stage and the cause are
  dropped (`WorkerProps.UpdateErrorsAreCoarse`).
- The comment at listen.go:57 says the gauge is discarded because of a
  problem "probably with GaugeMetric". The code discards it on any seeding
  error, including an unreadable metadata file while the gauge itself is
  fine. After that, every later cycle fails before it asks for an update, so
  the database is never updated again for the life of the process
  (`WorkerProps.FailedSeedDisablesUpdates`).

## Model

| member | source | states |
|---|---|---|
| `WorkerSpec.UpdateLastDBUpdatePrometheus` | pkg/rpc/server/listen.go:189-199 | fails with "Prometheus gauge found to be nil" exactly when the gauge is absent, and then changes nothing; otherwise sets exactly one label to the given time (the attempt label when `onlyDBAttempt`, else the success label), leaves the other label's presence and value as they were, and changes nothing else |
| `Listen.Server.UpdateLastDBUpdatePrometheus` | pkg/rpc/server/listen.go:189-199 | the method's new state and error are those of the function above |
| `WorkerSpec.InitializeMetricGauge` | pkg/rpc/server/listen.go:173-187 | fails exactly when the metadata read fails (wrapped "Error initialising the metrics for prometheus endpoint") or the gauge is absent (the gauge error, rewrapped), and then changes nothing; on success both labels hold the stored metadata's update time |
| `Listen.Server.InitializeMetricGauge` | pkg/rpc/server/listen.go:173-187 | the method's new state and error are those of the function above |
| `WorkerSpec.Seed` | pkg/rpc/server/listen.go:55-59 | the worker's start-up returns the seeding error; on failure the state is the old one with the gauge discarded; on success it is the state `initializeMetricGauge` left, with both labels set to the stored update time and nothing else but the log changed |
| `Listen.Server.Seed` | pkg/rpc/server/listen.go:55-59 | the method's new state and error are those of the function above |
| `WorkerSpec.Update` | pkg/rpc/server/listen.go:112-133 | a cycle leaves both gate counters at their prior values and never adds or removes the gauge |
| `Listen.Server.Update` | pkg/rpc/server/listen.go:112-133 | the method's new state and error are those of the function above; it needs no request in flight only when it reaches the drain |
| `WorkerSpec.HotUpdate` | pkg/rpc/server/listen.go:135-171 | restores the update-pending counter on every path, leaves the in-flight counter and gauge alone, and on a temp-dir failure only records the attempt; on every path after creating the temp dir its removal is the last action, and the directory is gone exactly when the removal succeeded |
| `Listen.Server.HotUpdate` | pkg/rpc/server/listen.go:135-171 | the method's new state and error are those of the function above; the temp-dir removal runs after the rest of the body, as the deferred call does |
| `WorkerSpec.DownloadAndSwap` | pkg/rpc/server/listen.go:142-148 | restores the update-pending counter whatever the swap does; a failed download returns the wrapped download error and changes nothing but the log |
| `Listen.Server.DownloadAndSwap` | pkg/rpc/server/listen.go:142-148 | the method's new state and error are those of the function above; the counter is decremented after the swap, as the deferred `Done` does |
| `WorkerSpec.Quiesced` | pkg/rpc/server/listen.go:150-170 | touches only the handle, the live file, the metadata and the log; succeeds exactly when close, copy, metadata write and reopen all succeed, and then the live file is the staged one, the metadata is its record and the handle is open; once the close succeeded, the handle is open exactly on success; a failed close changes neither the handle nor the file |
| `Listen.Server.SwapQuiesced` | pkg/rpc/server/listen.go:150-170 | the method's new state and error are those of the function above; it runs only with no request in flight |
| `WorkerSpec.UpdateLoop` | pkg/rpc/server/listen.go:60-66 | the worker's loop yields at most one error per cycle; with no request in flight a failed cycle does not end the loop, so every cycle runs and yields one error entry; the first entry is the error of `update` on the starting state |
| `WorkerSpec.WithWaitGroup` | pkg/rpc/server/listen.go:40-52 | the wrapped handler runs counted as in flight (one more than before) against the current handle state, returns the handler's reply, and leaves the in-flight counter and everything else as it was |
| `Listen.Server.WithWaitGroup` | pkg/rpc/server/listen.go:40-52 | the method's new state and reply are those of the function above; it runs only with no update pending |
| `WorkerSpec.WithToken` | pkg/rpc/server/listen.go:94-102 | rejects with "invalid token" exactly when the configured token is non-empty and differs from the header value; a rejected request changes nothing, so it never reaches the gate or the handler; an accepted request runs the handler, counted in flight against the current handle, and returns its reply; only the log ever changes |
| `Listen.Server.WithToken` | pkg/rpc/server/listen.go:94-102 | the method's new state and reply are those of the function above |
| `WorkerProps.NilGaugeFailsFirst` | pkg/rpc/server/listen.go:112-116 | with no gauge, a cycle changes nothing and calls nothing, and fails with "Prometheus gauge found to be nil: Prometheus gauge found to be nil" |
| `WorkerProps.NoUpdateNeededRecordsOnlyAttempt` | pkg/rpc/server/listen.go:114-123 | when no update is needed, a cycle succeeds after setting only the attempt label and asking NeedsUpdate; no download, no gate, no database change |
| `WorkerProps.CheckFailureStopsCycle` | pkg/rpc/server/listen.go:117-120 | when NeedsUpdate fails, the cycle returns "failed to check if db needs an update" with only the attempt label changed |
| `WorkerProps.DownloadFailureLeavesDbAlone` | pkg/rpc/server/listen.go:126-144 | a failed download returns "failed DB hot update"; the gate is never raised, the database is never closed, the live file, metadata and success label are unchanged, and the temp dir is created, then removed or, when the removal fails, left behind |
| `WorkerProps.FailureAfterCloseLeavesDbClosed` | pkg/rpc/server/listen.go:153-170 | a failure at the copy, the metadata write or the reopen leaves the handle closed, the gate released, the temp dir gone exactly when its removal succeeded, and the success label unset; after a failed copy the live file and metadata are unchanged |
| `WorkerProps.SuccessfulCycleInstallsDownload` | pkg/rpc/server/listen.go:126-170 | a cycle whose calls all succeed installs the downloaded file, refreshes the metadata from it, reopens the handle, restores the gate, leaves the temp dir gone exactly when its removal succeeded and sets both labels to the two clock readings |
| `WorkerProps.UpdateErrorsAreCoarse` | pkg/rpc/server/listen.go:114-131 | every error of `update` is the rewrapped gauge error, the check failure or the hot-update failure; no stage or cause survives |
| `WorkerProps.QuiescedRunsStepsInOrder` | pkg/rpc/server/listen.go:150-170 | under the raised gate the steps run as drain, close, copy, metadata write, reopen, up to and including the first failure |
| `WorkerProps.HotUpdateRunsStepsInOrder` | pkg/rpc/server/listen.go:135-171 | `hotUpdate` runs a prefix of temp dir, download, raise gate, drain, close, copy, metadata write, reopen that ends at the first failure, then the deferred gate release and temp-dir removal, newest first |
| `WorkerProps.HotUpdateStopsAtFirstFailure` | pkg/rpc/server/listen.go:136-168 | `hotUpdate` succeeds exactly when every step succeeds; otherwise its error names the first step that failed |
| `WorkerProps.NilGaugeIsPermanent` | pkg/rpc/server/listen.go:60-66 | with no gauge, every cycle of the loop fails with the gauge error and the process state never changes |
| `WorkerProps.LoopEntryIsCycle` | pkg/rpc/server/listen.go:61-65 | with no request in flight, entry k of the loop's errors is the error of `update` run on the state the first k cycles left, whatever those cycles returned, and no request is in flight after them |
| `WorkerProps.FailedSeedDisablesUpdates` | pkg/rpc/server/listen.go:54-66 | if seeding fails for any reason, including an unreadable metadata file while the gauge exists, the gauge is discarded and every later cycle fails with the gauge error without changing anything |
| `WorkerProps.ServeAllBalancesGate` | pkg/rpc/server/listen.go:40-52 | a burst of requests served while no update is pending leaves both counters, the handle and the database as they were, and only appends to the log, once per request with an acceptable token |
| `WorkerProps.ServeAllAdmitsByToken` | pkg/rpc/server/listen.go:94-102 | in such a burst a request is rejected exactly when its token is unacceptable, and every handler that runs sees itself counted as in flight |
| `WorkerProps.FailedSwapServesOnClosedDb` | pkg/rpc/server/listen.go:147-168 | after a swap that failed once the handle was closed, the gate is down and the next request with an acceptable token, under any configured token and header name, runs its handler against the closed handle and gets its reply |
| `WorkerProps.AttemptIsRecordedFirst` | pkg/rpc/server/listen.go:114 | with a gauge, every cycle, on every branch, first sets the attempt label to its first clock reading: that is the first new log entry and the attempt sample holds that time at the end |
| `WorkerProps.MetadataFailureLeavesStaleRecord` | pkg/rpc/server/listen.go:157-164 | a swap that fails at the metadata write leaves the new database file beside the old metadata record with the handle closed; seeding the gauge from that state sets both labels to the old update time |
| `WorkerProps.FailedRemovalLeavesTempDir` | pkg/rpc/server/listen.go:140 | the error of the deferred removal is discarded: `hotUpdate` returns the same error whether or not the removal succeeds; a failed removal leaves the temp dir behind, holding the download when there was one |
| `WorkerSpec.Message` | pkg/rpc/server/listen.go:115-191 | every error text is non-empty; the text of a stage error ends with its cause; a rewrapped text is twice the inner text plus the separator (the exact texts of `update` are stated by `WorkerProps.NilGaugeFailsFirst`, `WorkerProps.CheckFailureStopsCycle` and `WorkerProps.DownloadFailureLeavesDbAlone`) |
| `WorkerSpec.RewrappedShowsInnerTwice` | pkg/rpc/server/listen.go:115 | a bare "%w" rewrap prints the inner message both first and last |
| `WorkerSpec.LabelFor` | pkg/rpc/server/listen.go:193-197 | the attempt label is chosen exactly when `onlyDBAttempt` is set (what is written under it is stated by `WorkerSpec.UpdateLastDBUpdatePrometheus`) |
| `WorkerSpec.Authorized` | pkg/rpc/server/listen.go:96 | a token is acceptable exactly when no token is configured or it equals the presented one (its use is stated by `WorkerSpec.WithToken`) |
| `Logger.ErrorPriority` | pkg/log/logger.go:28-30 | accepts exactly zap's error, dpanic, panic and fatal levels and anything above (the routing is stated by `Logger.NewLogger`) |
| `Logger.LogPriority` | pkg/log/logger.go:31-37 | the low-priority core never accepts a level the error core accepts; in debug mode it accepts every other level; outside debug mode it rejects DebugLevel and everything below |
| `Logger.DebugModeRoutesEveryLevelOnce` | pkg/log/logger.go:28-34 | in debug mode every level is accepted by exactly one of the two cores |
| `Logger.QuietModeDropsDebug` | pkg/log/logger.go:31-36 | outside debug mode the low-priority core accepts exactly the levels strictly between DebugLevel and ErrorLevel, so debug messages reach neither core; it accepts a subset of what debug mode accepts |
| `Logger.TeeOfTwo` | pkg/log/logger.go:67-70 | a tee of two cores writes a message to the sink of each core that accepts its level |
| `Logger.NewLogger` | pkg/log/logger.go:26-79 | fails exactly when `disable` is set and the null device cannot be opened, returning that error unwrapped; otherwise levels from ErrorLevel up go to standard error only, whatever `disable` is; what the low-priority core accepts goes only to standard output, or to the null device when `disable` is set; other levels are dropped; development mode is on exactly in debug mode; internal errors go to standard error |
| `Logger.LogPackage.InitLogger` | pkg/log/logger.go:16-24 | records the debug flag first, whatever happens next; on failure returns "error in new logger: " and the cause, and leaves the logger nil; on success installs a logger routed as above |
| `Logger.NeverBothStreams` | pkg/log/logger.go:56-70 | a logger built as configured never writes one message to both standard error and standard output, and with `disable` never writes to standard output |

## Left out

- The real blocking of the two wait groups is not modelled. The race between `dbUpdateWg.Wait()` and `requestWg.Add(1)` (listen.go:43-46) is not modelled either. A wait is a precondition on the path that reaches it, and each gate step is atomic. The model claims no mutual exclusion between readers and the swap, because the code does not achieve it.
- WorkerSpec.UpdateLoop: the loop is a finite sequence of cycles, without the one-hour sleep. A cycle that would block in the drain ends the run, since no request finishes during a run.
- Listen.Server.WithWaitGroup: requires that no update is pending, instead of waiting for the pending update to finish.
- Route registration, `http.ListenAndServe` and the `/metrics` scrape handler (listen.go:69-91) are not modelled; they are HTTP plumbing. Every route is registered as `withToken(withWaitGroup(h))`, and `WithToken` models that composition.
- `initializeDBWorker` (listen.go:55) is dependency injection and is not modelled.
- The `log.Logger` calls in the worker are not modelled. The errors they would print are returned.
- The gauge is modelled as a map from label to whole Unix seconds. Prometheus internals and the `float64` conversion are not modelled.
- A failed `Download` is assumed to write nothing into the temp dir; partial files it may leave there are not modelled.
- A temp dir left behind by a failed removal is forgotten by the model when the next cycle creates its own; how many directories pile up is not modelled.
- `ioutil.TempDir`, `os.RemoveAll`, `utils.CopyFile`, `db.Close`, `db.Init`, `db.Path` and the metadata read are outcomes given to the model. Their internals are not modelled.
- pkg/db (the database client) is not part of this model. A successful `UpdateMetadata` is modelled as storing the metadata record embedded in the live file.
- A failed `CopyFile` leaves the live file unchanged in the model. A partial copy is not modelled.
- A failed `db.Close` leaves the handle as it was.
- `r.Header.Get` is modelled as an exact lookup that gives "" for an absent header. Header-name canonicalisation is not modelled.
- Handler panics are not modelled. The handler's reply stands for whatever it produced, and the deferred `requestWg.Done()` runs after it in every case.
- zap's encoders, `zapcore.Lock` and `zap.New` are not modelled; they are library plumbing. A logger is modelled as its cores (sink and level predicate) and its options.
- Opening the null device is an outcome given to the model.
- `log.Fatal` ends the process and is not modelled.
- internal/server/config is not modelled beyond one fact: the gauge may be absent.
