/** The database hot-update cycle of the RPC server, as functions on an
    explicit process state.

    The state holds everything the cycle and the request wrappers touch: the
    metrics gauge (absent when it was never built or was discarded), the
    global database handle and the live database file, the stored metadata
    record, the worker's staging directory, the two wait-group counters, and
    a log of the external calls made, in order. Every call into code outside
    the model (the database client, the file system, the clock) is an input:
    its outcome is an `Env` field. Blocking waits are preconditions on the
    paths that reach them. */
module WorkerSpec {
  import opened Wrappers

  // ---------------------------------------------------------------------
  // Data model
  // ---------------------------------------------------------------------

  /** The two values of the gauge vector's "action" label. */
  datatype Label = LastDBUpdateAttempt | LastDBUpdate

  /** The gauge vector's samples, in whole Unix seconds, by label. A label
      that was never set has no sample. */
  type Samples = map<Label, int>

  datatype DbType = TypeLight | TypeFull

  /** The metadata record kept next to the database file. */
  datatype Metadata = Metadata(version: nat, dbType: DbType, nextUpdate: int, updatedAt: int)

  /** A database file: its contents, with the metadata it embeds. */
  datatype DbImage = DbImage(meta: Metadata, data: seq<bv8>)

  /** The worker's private temporary directory: absent, freshly created, or
      holding a downloaded database file. */
  datatype Staging = NoTempDir | EmptyTempDir | Staged(image: DbImage)

  /** The observable actions of the process, in the order they happen. */
  datatype Action =
    | Recorded(key: Label, at: int)       // a gauge sample was set
    | CheckUpdate                         // NeedsUpdate was called
    | MakeTempDir                         // a temp dir was requested
    | Download                            // Download was called
    | Suspend                             // dbUpdateWg.Add(1)
    | Drain                               // requestWg.Wait() returned
    | CloseDb                             // db.Close was called
    | CopyDb                              // CopyFile staged -> live was called
    | WriteMetadata                       // UpdateMetadata was called
    | ReopenDb                            // db.Init was called
    | Resume                              // deferred dbUpdateWg.Done()
    | RemoveTempDir                       // deferred os.RemoveAll(tmpDir)
    | Handle(dbOpen: bool, inFlight: nat) // a request handler ran, seeing this handle state and count

  /** The process state. `updatePending` and `inFlight` are the counters of
      `dbUpdateWg` and `requestWg`. */
  datatype Proc = Proc(
    gauge: Option<Samples>,
    dbOpen: bool,
    live: DbImage,
    metadata: Metadata,
    staging: Staging,
    updatePending: nat,
    inFlight: nat,
    log: seq<Action>)

  /** What the outside world answers during one update cycle: the two clock
      readings, the database client's answers, the downloaded file, and the
      outcome of each file-system and database call, including the deferred
      `os.RemoveAll`, whose error the code discards. */
  datatype Env = Env(
    attemptTime: int,
    needsUpdate: Result<bool, string>,
    tempDir: Step,
    download: Step,
    downloaded: DbImage,
    close: Step,
    copy: Step,
    updateMetadata: Step,
    open: Step,
    removeTemp: Step,
    successTime: int)

  /** The errors the cycle returns. `Rewrapped` is `xerrors.Errorf("%w", inner)`. */
  datatype Error =
    | GaugeNil
    | Rewrapped(inner: Error)
    | CheckFailed
    | HotUpdateFailed
    | TempDirFailed(cause: string)
    | DownloadFailed(cause: string)
    | CloseFailed(cause: string)
    | CopyFailed(cause: string)
    | MetadataFailed(cause: string)
    | OpenFailed(cause: string)
    | MetricsInitFailed(cause: string)

  /** The text of the error `updateLastDBUpdatePrometheus` returns for an
      absent gauge. */
  const GaugeNilText := "Prometheus gauge found to be nil"

  /** The text `Error()` gives. A format of a bare "%w" is not a ": %w"
      suffix, so the inner message is printed once as the message and once
      more as the wrapped error. Every text is non-empty, and the text of an
      error with a cause ends with that cause. */
  function Message(e: Error): (m: string)
    ensures |m| > 0
    ensures e.Rewrapped? ==> |m| == 2 * |Message(e.inner)| + 2
    ensures (e.TempDirFailed? || e.DownloadFailed? || e.CloseFailed? || e.CopyFailed? || e.MetadataFailed? || e.OpenFailed? || e.MetricsInitFailed?) ==>
              |m| > |e.cause| && m[|m| - |e.cause|..] == e.cause
  {
    match e
    case GaugeNil => GaugeNilText
    case Rewrapped(inner) => Message(inner) + ": " + Message(inner)
    case CheckFailed => "failed to check if db needs an update"
    case HotUpdateFailed => "failed DB hot update"
    case TempDirFailed(c) => "failed to create a temp dir: " + c
    case DownloadFailed(c) => "failed to download vulnerability DB: " + c
    case CloseFailed(c) => "failed to close DB: " + c
    case CopyFailed(c) => "failed to copy the database file: " + c
    case MetadataFailed(c) => "unable to update database metadata: " + c
    case OpenFailed(c) => "failed to open DB: " + c
    case MetricsInitFailed(c) => "Error initialising the metrics for prometheus endpoint: " + c
  }

  /** A rewrapped error prints its inner message both first and last. */
  lemma RewrappedShowsInnerTwice(inner: Error)
    ensures var m := Message(Rewrapped(inner));
      && m[..|Message(inner)|] == Message(inner)
      && m[|m| - |Message(inner)|..] == Message(inner)
  {
  }

  /** A state and the error an operation returned. */
  datatype Outcome = Outcome(state: Proc, err: Option<Error>)

  // ---------------------------------------------------------------------
  // Metrics
  // ---------------------------------------------------------------------

  /** The label `updateLastDBUpdatePrometheus` writes. */
  function LabelFor(onlyDBAttempt: bool): (l: Label)
    ensures l == LastDBUpdateAttempt <==> onlyDBAttempt
  {
    if onlyDBAttempt then LastDBUpdateAttempt else LastDBUpdate
  }

  /** `after` is `before` with exactly label `l` set to `t`. */
  ghost predicate SetsOnly(before: Samples, after: Samples, l: Label, t: int)
  {
    && l in after && after[l] == t
    && forall o :: o != l ==> (o in after <==> o in before) && (o in before ==> after[o] == before[o])
  }

  /** Sets one gauge sample, or fails on an absent gauge. */
  function UpdateLastDBUpdatePrometheus(s: Proc, time: int, onlyDBAttempt: bool): (r: Outcome)
    ensures r.err.Some? <==> s.gauge.None?
    ensures r.err.Some? ==> r.err.value == GaugeNil && r.state == s
    ensures r.err.None? ==> r.state.gauge.Some? && SetsOnly(s.gauge.value, r.state.gauge.value, LabelFor(onlyDBAttempt), time)
    ensures r.err.None? ==> r.state.log == s.log + [Recorded(LabelFor(onlyDBAttempt), time)]
    ensures r.state.(gauge := s.gauge, log := s.log) == s
  {
    match s.gauge
    case None => Outcome(s, Some(GaugeNil))
    case Some(samples) =>
      var l := LabelFor(onlyDBAttempt);
      Outcome(s.(gauge := Some(samples[l := time]), log := s.log + [Recorded(l, time)]), None)
  }

  /** Seeds both gauge samples with the stored metadata's update time.
      `read` is the outcome of reading the metadata file. */
  function InitializeMetricGauge(s: Proc, read: Step): (r: Outcome)
    ensures r.err.Some? <==> read.Fail? || s.gauge.None?
    ensures r.err.Some? ==> r.state == s
    ensures read.Fail? ==> r.err == Some(MetricsInitFailed(read.cause))
    ensures read.Pass? && s.gauge.None? ==> r.err == Some(Rewrapped(GaugeNil))
    ensures r.err.None? ==>
              && r.state.gauge.Some?
              && r.state.gauge.value.Keys == s.gauge.value.Keys + {LastDBUpdateAttempt, LastDBUpdate}
              && r.state.gauge.value[LastDBUpdateAttempt] == s.metadata.updatedAt
              && r.state.gauge.value[LastDBUpdate] == s.metadata.updatedAt
    ensures r.state.(gauge := s.gauge, log := s.log) == s
  {
    match read
    case Fail(cause) => Outcome(s, Some(MetricsInitFailed(cause)))
    case Pass =>
      var attempt := UpdateLastDBUpdatePrometheus(s, s.metadata.updatedAt, true);
      match attempt.err
      case Some(e) => Outcome(attempt.state, Some(Rewrapped(e)))
      case None =>
        var success := UpdateLastDBUpdatePrometheus(attempt.state, s.metadata.updatedAt, false);
        match success.err
        case Some(e) => Outcome(success.state, Some(Rewrapped(e)))
        case None => success
  }

  /** The start of the background worker: seed the gauge; on any error,
      discard the gauge for the rest of the process. */
  function Seed(s: Proc, read: Step): (r: Outcome)
    ensures r.err.Some? ==> r.state.gauge.None?
    ensures r.err.None? ==> r.state.gauge.Some?
    ensures r.err == InitializeMetricGauge(s, read).err
    ensures r.err.Some? ==> r.state == s.(gauge := None)
    ensures r.err.None? ==> r == InitializeMetricGauge(s, read)
    ensures r.err.None? ==>
              && r.state.gauge.value[LastDBUpdateAttempt] == s.metadata.updatedAt
              && r.state.gauge.value[LastDBUpdate] == s.metadata.updatedAt
              && r.state.(gauge := s.gauge, log := s.log) == s
  {
    var init := InitializeMetricGauge(s, read);
    if init.err.Some? then Outcome(init.state.(gauge := None), init.err) else init
  }

  // ---------------------------------------------------------------------
  // The update cycle
  // ---------------------------------------------------------------------

  /** A cycle from `s` with answers `env` reaches `requestWg.Wait()`. */
  predicate ReachesDrain(s: Proc, env: Env)
  {
    s.gauge.Some? && env.needsUpdate == Ok(true) && env.tempDir.Pass? && env.download.Pass?
  }

  /** Drain, close, copy, write metadata and reopen, with the gate raised and
      the downloaded file staged. `requestWg.Wait()` returns only once no
      request is in flight. */
  function Quiesced(s: Proc, env: Env): (r: Outcome)
    requires s.inFlight == 0 && s.staging.Staged?
    ensures r.state.(dbOpen := s.dbOpen, live := s.live, metadata := s.metadata, log := s.log) == s
    ensures r.err.None? <==> env.close.Pass? && env.copy.Pass? && env.updateMetadata.Pass? && env.open.Pass?
    ensures r.err.None? ==> r.state.dbOpen && r.state.live == s.staging.image && r.state.metadata == s.staging.image.meta
    ensures env.close.Pass? ==> (r.state.dbOpen <==> r.err.None?)
    ensures env.close.Fail? ==> r.state.dbOpen == s.dbOpen && r.state.live == s.live && r.state.metadata == s.metadata
  {
    var drained := s.(log := s.log + [Drain, CloseDb]);
    if env.close.Fail? then Outcome(drained, Some(CloseFailed(env.close.cause)))
    else
      var closed := drained.(dbOpen := false, log := drained.log + [CopyDb]);
      if env.copy.Fail? then Outcome(closed, Some(CopyFailed(env.copy.cause)))
      else
        var copied := closed.(live := closed.staging.image, log := closed.log + [WriteMetadata]);
        if env.updateMetadata.Fail? then Outcome(copied, Some(MetadataFailed(env.updateMetadata.cause)))
        else
          var recorded := copied.(metadata := copied.live.meta, log := copied.log + [ReopenDb]);
          if env.open.Fail? then Outcome(recorded, Some(OpenFailed(env.open.cause)))
          else Outcome(recorded.(dbOpen := true), None)
  }

  /** Download into the fresh temp dir; then raise the gate, run the swap,
      and lower the gate again whatever the swap did (the deferred
      `dbUpdateWg.Done()`). */
  function DownloadAndSwap(s: Proc, env: Env): (r: Outcome)
    requires s.staging == EmptyTempDir
    requires env.download.Pass? ==> s.inFlight == 0
    ensures r.state.updatePending == s.updatePending
    ensures r.state.inFlight == s.inFlight && r.state.gauge == s.gauge
    ensures env.download.Fail? ==> r.state == s.(log := s.log + [Download])
    ensures env.download.Fail? ==> r.err == Some(DownloadFailed(env.download.cause))
  {
    var called := s.(log := s.log + [Download]);
    if env.download.Fail? then Outcome(called, Some(DownloadFailed(env.download.cause)))
    else
      var raised := called.(staging := Staged(env.downloaded),
                            updatePending := called.updatePending + 1,
                            log := called.log + [Suspend]);
      var swapped := Quiesced(raised, env);
      Outcome(swapped.state.(updatePending := swapped.state.updatePending - 1,
                             log := swapped.state.log + [Resume]),
              swapped.err)
  }

  /** `hotUpdate`: create the temp dir, then download and swap, and try to
      remove the temp dir whatever happened (the deferred `os.RemoveAll`).
      A failed removal leaves the directory, with whatever it holds, behind,
      and is not reported. */
  function HotUpdate(s: Proc, env: Env): (r: Outcome)
    requires env.tempDir.Pass? && env.download.Pass? ==> s.inFlight == 0
    ensures r.state.updatePending == s.updatePending
    ensures r.state.inFlight == s.inFlight && r.state.gauge == s.gauge
    ensures env.tempDir.Fail? ==> r.state == s.(log := s.log + [MakeTempDir])
    ensures env.tempDir.Pass? ==> |r.state.log| > |s.log| && r.state.log[|r.state.log| - 1] == RemoveTempDir
    ensures env.tempDir.Pass? ==> (r.state.staging == NoTempDir <==> env.removeTemp.Pass?)
  {
    var called := s.(log := s.log + [MakeTempDir]);
    if env.tempDir.Fail? then Outcome(called, Some(TempDirFailed(env.tempDir.cause)))
    else
      var inner := DownloadAndSwap(called.(staging := EmptyTempDir), env);
      var removed := if env.removeTemp.Pass? then NoTempDir else inner.state.staging;
      Outcome(inner.state.(staging := removed, log := inner.state.log + [RemoveTempDir]), inner.err)
  }

  /** `dbWorker.update`: record the attempt, ask whether an update is needed,
      hot-swap, record the success. */
  function Update(s: Proc, env: Env): (r: Outcome)
    requires ReachesDrain(s, env) ==> s.inFlight == 0
    ensures r.state.updatePending == s.updatePending && r.state.inFlight == s.inFlight
    ensures r.state.gauge.None? <==> s.gauge.None?
  {
    var attempt := UpdateLastDBUpdatePrometheus(s, env.attemptTime, true);
    match attempt.err
    case Some(e) => Outcome(attempt.state, Some(Rewrapped(e)))
    case None =>
      var asked := attempt.state.(log := attempt.state.log + [CheckUpdate]);
      match env.needsUpdate
      case Err(_) => Outcome(asked, Some(CheckFailed))
      case Ok(needsUpdate) =>
        if !needsUpdate then Outcome(asked, None)
        else
          var hot := HotUpdate(asked, env);
          match hot.err
          case Some(_) => Outcome(hot.state, Some(HotUpdateFailed))
          case None =>
            var success := UpdateLastDBUpdatePrometheus(hot.state, env.successTime, false);
            match success.err
            case Some(e) => Outcome(success.state, Some(Rewrapped(e)))
            case None => success
  }

  /** What a run of the worker's loop produced: the final state and each
      cycle's error, in order. */
  datatype Trace = Trace(state: Proc, errors: seq<Option<Error>>)

  /** The worker's loop over the cycles whose answers are `envs`. A cycle
      that reaches the drain while requests are in flight blocks there; no
      request leaves during a run, so the run stops at that cycle. */
  function UpdateLoop(s: Proc, envs: seq<Env>): (r: Trace)
    ensures |r.errors| <= |envs|
    ensures s.inFlight == 0 ==> |r.errors| == |envs| && r.state.inFlight == 0
    ensures envs != [] && !(ReachesDrain(s, envs[0]) && s.inFlight != 0) ==> |r.errors| > 0 && r.errors[0] == Update(s, envs[0]).err
    decreases |envs|
  {
    if envs == [] || (ReachesDrain(s, envs[0]) && s.inFlight != 0) then Trace(s, [])
    else
      var cycle := Update(s, envs[0]);
      var rest := UpdateLoop(cycle.state, envs[1..]);
      Trace(rest.state, [cycle.err] + rest.errors)
  }

  // ---------------------------------------------------------------------
  // Request wrappers
  // ---------------------------------------------------------------------

  /** `r.Header.Get(name)`: the header's value, or "" when absent. */
  function HeaderValue(headers: map<string, string>, name: string): string
  {
    if name in headers then headers[name] else ""
  }

  /** The check in `withToken`: a configured token must match the presented one. */
  predicate Authorized(token: string, presented: string): (ok: bool)
    ensures ok <==> token in {"", presented}
    ensures token == "" ==> ok
  {
    !(token != "" && token != presented)
  }

  /** What a wrapped handler answers: the token error, or the handler's own
      reply (including an error reply). */
  datatype Response = Unauthenticated(msg: string) | Reply(body: string)

  datatype Served = Served(state: Proc, response: Response)

  /** The `withWaitGroup` closure: wait for no pending update, count the
      request in, run the handler, count it out (deferred). */
  function WithWaitGroup(s: Proc, reply: string): (r: Served)
    requires s.updatePending == 0
    ensures r.state.inFlight == s.inFlight
    ensures r.state.log == s.log + [Handle(s.dbOpen, s.inFlight + 1)]
    ensures r.state.(log := s.log) == s
    ensures r.response == Reply(reply)
  {
    var admitted := s.(inFlight := s.inFlight + 1);
    var handled := admitted.(log := admitted.log + [Handle(admitted.dbOpen, admitted.inFlight)]);
    Served(handled.(inFlight := handled.inFlight - 1), Reply(reply))
  }

  /** `withToken` around `withWaitGroup`, as every route is registered. */
  function WithToken(s: Proc, token: string, tokenHeader: string, headers: map<string, string>, reply: string): (r: Served)
    requires Authorized(token, HeaderValue(headers, tokenHeader)) ==> s.updatePending == 0
    ensures r.response.Unauthenticated? <==> token != "" && token != HeaderValue(headers, tokenHeader)
    ensures r.response.Unauthenticated? ==> r.state == s && r.response.msg == "invalid token"
    ensures Authorized(token, HeaderValue(headers, tokenHeader)) ==>
              r.response == Reply(reply) && r.state.log == s.log + [Handle(s.dbOpen, s.inFlight + 1)]
    ensures r.state.(log := s.log) == s
  {
    if !Authorized(token, HeaderValue(headers, tokenHeader)) then Served(s, Unauthenticated("invalid token"))
    else WithWaitGroup(s, reply)
  }

  /** One inbound request: its headers and what its handler would reply. */
  datatype Request = Request(headers: map<string, string>, reply: string)

  datatype Burst = Burst(state: Proc, responses: seq<Response>)

  /** Requests served one after another while no update is pending. */
  function ServeAll(s: Proc, token: string, tokenHeader: string, reqs: seq<Request>): (r: Burst)
    requires s.updatePending == 0
    decreases |reqs|
  {
    if reqs == [] then Burst(s, [])
    else
      var first := WithToken(s, token, tokenHeader, reqs[0].headers, reqs[0].reply);
      var rest := ServeAll(first.state, token, tokenHeader, reqs[1..]);
      Burst(rest.state, [first.response] + rest.responses)
  }

  /** How many of `reqs` carry an acceptable token. */
  function CountAuthorized(token: string, tokenHeader: string, reqs: seq<Request>): nat
    decreases |reqs|
  {
    if reqs == [] then 0
    else (if Authorized(token, HeaderValue(reqs[0].headers, tokenHeader)) then 1 else 0)
         + CountAuthorized(token, tokenHeader, reqs[1..])
  }
}
