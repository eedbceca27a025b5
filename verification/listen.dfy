/** The server process's mutable state and the operations of
    pkg/rpc/server/listen.go that change it, step by step. Each method is
    proved to leave the state, and return the error, that the function of the
    same name in `WorkerSpec` describes; what those functions guarantee is
    proved in `WorkerProps`. Go's `defer` is modelled by splitting a function
    where it registers a deferred call: the rest of the body becomes a method
    of its own, and the deferred call runs after it returns, on every path. */
module Listen {
  import opened Wrappers
  import opened WorkerSpec

  class Server {
    /** The gauge vector; `None` is a nil `*prometheus.GaugeVec`. */
    var gauge: Option<Samples>
    /** Whether the global database handle is open. */
    var dbOpen: bool
    /** The database file in the cache directory. */
    var live: DbImage
    /** The metadata record in the cache directory. */
    var metadata: Metadata
    /** The worker's temporary directory. */
    var staging: Staging
    /** The counter of `dbUpdateWg`. */
    var updatePending: nat
    /** The counter of `requestWg`. */
    var inFlight: nat
    /** The actions performed so far. */
    var log: seq<Action>

    function State(): Proc
      reads this
    {
      Proc(gauge, dbOpen, live, metadata, staging, updatePending, inFlight, log)
    }

    /** A process that has opened its database and built (or not) its gauge. */
    constructor (gauge: Option<Samples>, live: DbImage, metadata: Metadata)
      ensures State() == Proc(gauge, true, live, metadata, NoTempDir, 0, 0, [])
    {
      this.gauge := gauge;
      this.dbOpen := true;
      this.live := live;
      this.metadata := metadata;
      this.staging := NoTempDir;
      this.updatePending := 0;
      this.inFlight := 0;
      this.log := [];
    }

    /** `updateLastDBUpdatePrometheus`: set one sample of the gauge. */
    method UpdateLastDBUpdatePrometheus(time: int, onlyDBAttempt: bool) returns (err: Option<Error>)
      modifies this
      ensures Outcome(State(), err) == WorkerSpec.UpdateLastDBUpdatePrometheus(old(State()), time, onlyDBAttempt)
    {
      if gauge.None? {
        return Some(GaugeNil);
      }
      var l := LabelFor(onlyDBAttempt);
      gauge := Some(gauge.value[l := time]);
      log := log + [Recorded(l, time)];
      err := None;
    }

    /** `initializeMetricGauge`: seed both samples from the stored metadata;
        `read` is the outcome of reading it. */
    method InitializeMetricGauge(read: Step) returns (err: Option<Error>)
      modifies this
      ensures Outcome(State(), err) == WorkerSpec.InitializeMetricGauge(old(State()), read)
    {
      if read.Fail? {
        return Some(MetricsInitFailed(read.cause));
      }
      var updatedAt := metadata.updatedAt;
      var e := UpdateLastDBUpdatePrometheus(updatedAt, true);
      match e {
        case Some(inner) => return Some(Rewrapped(inner));
        case None =>
      }
      e := UpdateLastDBUpdatePrometheus(updatedAt, false);
      match e {
        case Some(inner) => return Some(Rewrapped(inner));
        case None =>
      }
      err := None;
    }

    /** The start of the background goroutine in `ListenAndServe`: seed the
        gauge, and on failure discard it for good. */
    method Seed(read: Step) returns (err: Option<Error>)
      modifies this
      ensures Outcome(State(), err) == WorkerSpec.Seed(old(State()), read)
    {
      err := InitializeMetricGauge(read);
      if err.Some? {
        gauge := None;
      }
    }

    /** `dbWorker.update`: one cycle of the worker. */
    method Update(env: Env) returns (err: Option<Error>)
      requires ReachesDrain(State(), env) ==> inFlight == 0
      modifies this
      ensures Outcome(State(), err) == WorkerSpec.Update(old(State()), env)
    {
      var e := UpdateLastDBUpdatePrometheus(env.attemptTime, true);
      match e {
        case Some(inner) => return Some(Rewrapped(inner));
        case None =>
      }
      log := log + [CheckUpdate];
      match env.needsUpdate {
        case Err(_) => return Some(CheckFailed);
        case Ok(needsUpdate) =>
          if !needsUpdate {
            return None;
          }
      }
      e := HotUpdate(env);
      if e.Some? {
        return Some(HotUpdateFailed);
      }
      e := UpdateLastDBUpdatePrometheus(env.successTime, false);
      match e {
        case Some(inner) => return Some(Rewrapped(inner));
        case None =>
      }
      err := None;
    }

    /** `dbWorker.hotUpdate` up to its first `defer`: create the temp dir;
        then the rest, then the deferred removal of the temp dir, whose
        error is discarded. */
    method HotUpdate(env: Env) returns (err: Option<Error>)
      requires env.tempDir.Pass? && env.download.Pass? ==> inFlight == 0
      modifies this
      ensures Outcome(State(), err) == WorkerSpec.HotUpdate(old(State()), env)
    {
      log := log + [MakeTempDir];
      if env.tempDir.Fail? {
        return Some(TempDirFailed(env.tempDir.cause));
      }
      staging := EmptyTempDir;
      err := DownloadAndSwap(env);
      if env.removeTemp.Pass? {
        staging := NoTempDir;
      }
      log := log + [RemoveTempDir];
    }

    /** The part of `hotUpdate` between its two `defer`s: download, raise the
        gate; then the rest, then the deferred `dbUpdateWg.Done()`. */
    method DownloadAndSwap(env: Env) returns (err: Option<Error>)
      requires staging == EmptyTempDir
      requires env.download.Pass? ==> inFlight == 0
      modifies this
      ensures Outcome(State(), err) == WorkerSpec.DownloadAndSwap(old(State()), env)
    {
      log := log + [Download];
      if env.download.Fail? {
        return Some(DownloadFailed(env.download.cause));
      }
      staging := Staged(env.downloaded);
      updatePending := updatePending + 1;
      log := log + [Suspend];
      err := SwapQuiesced(env);
      updatePending := updatePending - 1;
      log := log + [Resume];
    }

    /** The rest of `hotUpdate`: wait for the requests in flight, close the
        database, copy the staged file over the live one, write the metadata,
        reopen. The first failure ends it. */
    method SwapQuiesced(env: Env) returns (err: Option<Error>)
      requires inFlight == 0 && staging.Staged?
      modifies this
      ensures Outcome(State(), err) == WorkerSpec.Quiesced(old(State()), env)
    {
      log := log + [Drain];
      log := log + [CloseDb];
      if env.close.Fail? {
        return Some(CloseFailed(env.close.cause));
      }
      dbOpen := false;
      log := log + [CopyDb];
      if env.copy.Fail? {
        return Some(CopyFailed(env.copy.cause));
      }
      live := staging.image;
      log := log + [WriteMetadata];
      if env.updateMetadata.Fail? {
        return Some(MetadataFailed(env.updateMetadata.cause));
      }
      metadata := live.meta;
      log := log + [ReopenDb];
      if env.open.Fail? {
        return Some(OpenFailed(env.open.cause));
      }
      dbOpen := true;
      err := None;
    }

    /** The handler built by the `withWaitGroup` closure: once no update is
        pending, count the request in, run the handler (which answers
        `reply`), and count it out (deferred). */
    method WithWaitGroup(reply: string) returns (resp: Response)
      requires updatePending == 0
      modifies this
      ensures Served(State(), resp) == WorkerSpec.WithWaitGroup(old(State()), reply)
    {
      inFlight := inFlight + 1;
      log := log + [Handle(dbOpen, inFlight)];
      resp := Reply(reply);
      inFlight := inFlight - 1;
    }

    /** The handler built by `withToken` around `withWaitGroup`. */
    method WithToken(token: string, tokenHeader: string, headers: map<string, string>, reply: string)
      returns (resp: Response)
      requires Authorized(token, HeaderValue(headers, tokenHeader)) ==> updatePending == 0
      modifies this
      ensures Served(State(), resp) == WorkerSpec.WithToken(old(State()), token, tokenHeader, headers, reply)
    {
      if token != "" && token != HeaderValue(headers, tokenHeader) {
        return Unauthenticated("invalid token");
      }
      resp := WithWaitGroup(reply);
    }
  }
}
