/** What the update cycle, the worker's loop and the request wrappers
    guarantee, stated over the functions of `WorkerSpec`. */
module WorkerProps {
  import opened Wrappers
  import opened WorkerSpec

  /** The state after the attempt sample is recorded and NeedsUpdate is asked. */
  function AttemptRecorded(s: Proc, env: Env): Proc
    requires s.gauge.Some?
  {
    s.(gauge := Some(s.gauge.value[LastDBUpdateAttempt := env.attemptTime]),
       log := s.log + [Recorded(LastDBUpdateAttempt, env.attemptTime), CheckUpdate])
  }

  // ---------------------------------------------------------------------
  // One cycle, branch by branch
  // ---------------------------------------------------------------------

  /** With no gauge, the cycle fails before anything else happens: nothing
      is called and nothing changes. */
  lemma NilGaugeFailsFirst(s: Proc, env: Env)
    requires s.gauge.None?
    ensures Update(s, env) == Outcome(s, Some(Rewrapped(GaugeNil)))
    ensures Message(Update(s, env).err.value) == GaugeNilText + ": " + GaugeNilText
  {
  }

  /** When no update is needed, only the attempt sample changes. */
  lemma NoUpdateNeededRecordsOnlyAttempt(s: Proc, env: Env)
    requires s.gauge.Some? && env.needsUpdate == Ok(false)
    ensures Update(s, env) == Outcome(AttemptRecorded(s, env), None)
  {
  }

  /** When NeedsUpdate fails, the cycle stops after recording the attempt. */
  lemma CheckFailureStopsCycle(s: Proc, env: Env)
    requires s.gauge.Some? && env.needsUpdate.Err?
    ensures Update(s, env) == Outcome(AttemptRecorded(s, env), Some(CheckFailed))
    ensures Message(Update(s, env).err.value) == "failed to check if db needs an update"
  {
  }

  /** A failed download: the gate is never raised, the database is never
      closed, the live file, metadata and success sample are unchanged, and
      the temp dir is removed again, or left behind when its removal
      fails. */
  lemma DownloadFailureLeavesDbAlone(s: Proc, env: Env)
    requires s.gauge.Some? && env.needsUpdate == Ok(true)
    requires env.tempDir.Pass? && env.download.Fail?
    ensures Update(s, env).err == Some(HotUpdateFailed)
    ensures Message(Update(s, env).err.value) == "failed DB hot update"
    ensures Update(s, env).state ==
              AttemptRecorded(s, env).(staging := if env.removeTemp.Pass? then NoTempDir else EmptyTempDir,
                                       log := AttemptRecorded(s, env).log + [MakeTempDir, Download, RemoveTempDir])
  {
  }

  /** A swap that fails after the database was closed leaves it closed,
      releases the gate, and records no success. */
  lemma FailureAfterCloseLeavesDbClosed(s: Proc, env: Env)
    requires ReachesDrain(s, env) && s.inFlight == 0
    requires env.close.Pass? && (env.copy.Fail? || env.updateMetadata.Fail? || env.open.Fail?)
    ensures var r := Update(s, env);
      && r.err == Some(HotUpdateFailed)
      && !r.state.dbOpen
      && r.state.updatePending == s.updatePending
      && (r.state.staging == NoTempDir <==> env.removeTemp.Pass?)
      && r.state.gauge == Some(s.gauge.value[LastDBUpdateAttempt := env.attemptTime])
    ensures env.copy.Fail? ==> Update(s, env).state.live == s.live && Update(s, env).state.metadata == s.metadata
  {
  }

  /** A cycle in which every call succeeds installs the downloaded file,
      refreshes the metadata from it, reopens the database and records both
      samples. */
  lemma SuccessfulCycleInstallsDownload(s: Proc, env: Env)
    requires ReachesDrain(s, env) && s.inFlight == 0
    requires env.close.Pass? && env.copy.Pass? && env.updateMetadata.Pass? && env.open.Pass?
    ensures var r := Update(s, env);
      && r.err.None?
      && r.state.live == env.downloaded
      && r.state.metadata == env.downloaded.meta
      && r.state.dbOpen
      && (r.state.staging == NoTempDir <==> env.removeTemp.Pass?)
      && r.state.updatePending == s.updatePending
      && r.state.gauge == Some(s.gauge.value[LastDBUpdateAttempt := env.attemptTime][LastDBUpdate := env.successTime])
  {
  }

  /** A swap that fails at the metadata write leaves the new database file
      in place beside the old metadata record, with the handle closed, so
      the next start-up seeds both samples with the old update time. */
  lemma MetadataFailureLeavesStaleRecord(s: Proc, env: Env)
    requires ReachesDrain(s, env) && s.inFlight == 0
    requires env.close.Pass? && env.copy.Pass? && env.updateMetadata.Fail?
    ensures var r := Update(s, env);
      && r.err == Some(HotUpdateFailed)
      && r.state.live == env.downloaded
      && r.state.metadata == s.metadata
      && !r.state.dbOpen
    ensures var seeded := InitializeMetricGauge(Update(s, env).state, Pass);
      && seeded.err.None?
      && seeded.state.gauge.value[LastDBUpdate] == s.metadata.updatedAt
      && seeded.state.gauge.value[LastDBUpdateAttempt] == s.metadata.updatedAt
  {
  }

  /** With a gauge, every cycle first sets the attempt sample to its first
      clock reading, whatever happens after. */
  lemma AttemptIsRecordedFirst(s: Proc, env: Env)
    requires s.gauge.Some?
    requires ReachesDrain(s, env) ==> s.inFlight == 0
    ensures var r := Update(s, env);
      && |r.state.log| > |s.log|
      && r.state.log[..|s.log|] == s.log
      && r.state.log[|s.log|] == Recorded(LastDBUpdateAttempt, env.attemptTime)
      && r.state.gauge.Some?
      && r.state.gauge.value[LastDBUpdateAttempt] == env.attemptTime
  {
  }

  /** The deferred removal of the temp dir never changes what `hotUpdate`
      returns; when it fails, the directory stays behind with the download
      in it. */
  lemma FailedRemovalLeavesTempDir(s: Proc, env: Env)
    requires env.tempDir.Pass? && env.removeTemp.Fail?
    requires env.download.Pass? ==> s.inFlight == 0
    ensures HotUpdate(s, env).err == HotUpdate(s, env.(removeTemp := Pass)).err
    ensures HotUpdate(s, env).state.staging == if env.download.Pass? then Staged(env.downloaded) else EmptyTempDir
  {
  }

  /** Whatever stage of the hot update fails, `update` reports only that the
      hot update failed: the stage and its cause are dropped. */
  lemma UpdateErrorsAreCoarse(s: Proc, env: Env)
    requires ReachesDrain(s, env) ==> s.inFlight == 0
    ensures Update(s, env).err.Some? ==>
              Update(s, env).err.value in {Rewrapped(GaugeNil), CheckFailed, HotUpdateFailed}
  {
  }

  // ---------------------------------------------------------------------
  // Order of the hot-update steps
  // ---------------------------------------------------------------------

  /** The forward steps of `hotUpdate`, in source order. */
  const SwapOrder: seq<Action> := [MakeTempDir, Download, Suspend, Drain, CloseDb, CopyDb, WriteMetadata, ReopenDb]

  /** How many forward steps run: every step up to and including the first
      one that fails (Suspend and Drain cannot fail). */
  function StepsRun(env: Env): (k: nat)
    ensures 1 <= k <= |SwapOrder|
  {
    if env.tempDir.Fail? then 1
    else if env.download.Fail? then 2
    else if env.close.Fail? then 5
    else if env.copy.Fail? then 6
    else if env.updateMetadata.Fail? then 7
    else 8
  }

  /** The deferred releases that run after `k` forward steps, newest first:
      the gate once it was raised, then the temp dir once it was created. */
  function Deferred(k: nat): seq<Action>
  {
    (if k >= 3 then [Resume] else []) + (if k >= 2 then [RemoveTempDir] else [])
  }

  /** The step an error of `hotUpdate` names. */
  function FailedStep(e: Error): Option<Action>
  {
    match e
    case TempDirFailed(_) => Some(MakeTempDir)
    case DownloadFailed(_) => Some(Download)
    case CloseFailed(_) => Some(CloseDb)
    case CopyFailed(_) => Some(CopyDb)
    case MetadataFailed(_) => Some(WriteMetadata)
    case OpenFailed(_) => Some(ReopenDb)
    case _ => None
  }

  /** The swap under the raised gate runs Drain and then the database steps
      up to the first failure. */
  lemma QuiescedRunsStepsInOrder(s: Proc, env: Env)
    requires s.inFlight == 0 && s.staging.Staged?
    requires env.tempDir.Pass? && env.download.Pass?
    ensures Quiesced(s, env).state.log == s.log + SwapOrder[3..StepsRun(env)]
  {
    var k := StepsRun(env);
    if env.close.Fail? {
      assert SwapOrder[3..k] == [Drain, CloseDb];
    } else if env.copy.Fail? {
      assert SwapOrder[3..k] == [Drain, CloseDb, CopyDb];
    } else if env.updateMetadata.Fail? {
      assert SwapOrder[3..k] == [Drain, CloseDb, CopyDb, WriteMetadata];
    } else {
      assert SwapOrder[3..k] == [Drain, CloseDb, CopyDb, WriteMetadata, ReopenDb];
    }
  }

  /** `hotUpdate` runs a prefix of its steps in source order, stopping at
      the first failure, and then runs the deferred releases. */
  lemma HotUpdateRunsStepsInOrder(s: Proc, env: Env)
    requires env.tempDir.Pass? && env.download.Pass? ==> s.inFlight == 0
    ensures HotUpdate(s, env).state.log == s.log + SwapOrder[..StepsRun(env)] + Deferred(StepsRun(env))
  {
    var k := StepsRun(env);
    if env.tempDir.Fail? {
      assert SwapOrder[..k] == [MakeTempDir];
    } else if env.download.Fail? {
      assert SwapOrder[..k] == [MakeTempDir, Download];
    } else {
      var staged := s.(staging := EmptyTempDir, log := s.log + [MakeTempDir]);
      var raised := staged.(staging := Staged(env.downloaded), updatePending := staged.updatePending + 1,
                            log := staged.log + [Download] + [Suspend]);
      QuiescedRunsStepsInOrder(raised, env);
      var q := Quiesced(raised, env);
      assert DownloadAndSwap(staged, env).state.log == q.state.log + [Resume];
      assert SwapOrder[..k] == [MakeTempDir, Download, Suspend] + SwapOrder[3..k];
    }
  }

  /** `hotUpdate` succeeds exactly when every step succeeds; otherwise its
      error names the last step it ran, the first that failed. */
  lemma HotUpdateStopsAtFirstFailure(s: Proc, env: Env)
    requires env.tempDir.Pass? && env.download.Pass? ==> s.inFlight == 0
    ensures HotUpdate(s, env).err.None? <==> StepsRun(env) == |SwapOrder| && env.open.Pass?
    ensures HotUpdate(s, env).err.Some? ==> FailedStep(HotUpdate(s, env).err.value) == Some(SwapOrder[StepsRun(env) - 1])
  {
    if env.tempDir.Pass? && env.download.Pass? {
      var staged := s.(staging := EmptyTempDir, log := s.log + [MakeTempDir]);
      var raised := staged.(staging := Staged(env.downloaded), updatePending := staged.updatePending + 1,
                            log := staged.log + [Download] + [Suspend]);
      assert HotUpdate(s, env).err == Quiesced(raised, env).err;
    }
  }

  // ---------------------------------------------------------------------
  // The worker's loop
  // ---------------------------------------------------------------------

  /** Once the gauge is gone, every later cycle fails at its first step and
      the process state never changes again. */
  lemma {:induction false} NilGaugeIsPermanent(s: Proc, envs: seq<Env>)
    requires s.gauge.None?
    ensures UpdateLoop(s, envs).state == s
    ensures |UpdateLoop(s, envs).errors| == |envs|
    ensures forall i :: 0 <= i < |envs| ==> UpdateLoop(s, envs).errors[i] == Some(Rewrapped(GaugeNil))
  {
    if envs != [] {
      NilGaugeFailsFirst(s, envs[0]);
      NilGaugeIsPermanent(s, envs[1..]);
    }
  }

  /** With no request in flight, entry `k` of the loop's errors is the
      error of cycle `k` run on the state the first `k` cycles left: every
      cycle runs, whatever the earlier ones returned. */
  lemma {:induction false} LoopEntryIsCycle(s: Proc, envs: seq<Env>, k: nat)
    requires s.inFlight == 0 && k < |envs|
    ensures UpdateLoop(s, envs[..k]).state.inFlight == 0
    ensures UpdateLoop(s, envs).errors[k] == Update(UpdateLoop(s, envs[..k]).state, envs[k]).err
    decreases k
  {
    if k > 0 {
      var first := Update(s, envs[0]);
      LoopEntryIsCycle(first.state, envs[1..], k - 1);
      assert envs[..k][1..] == envs[1..][..k - 1];
      assert envs[..k][0] == envs[0];
    }
  }

  /** If seeding the gauge fails for any reason, including an unreadable
      metadata file while the gauge exists, the gauge is discarded and no
      later cycle ever checks for, downloads or installs an update. */
  lemma FailedSeedDisablesUpdates(s: Proc, read: Step, envs: seq<Env>)
    requires read.Fail? || s.gauge.None?
    ensures Seed(s, read).state == s.(gauge := None)
    ensures UpdateLoop(Seed(s, read).state, envs).state == s.(gauge := None)
    ensures |UpdateLoop(Seed(s, read).state, envs).errors| == |envs|
    ensures forall i :: 0 <= i < |envs| ==> UpdateLoop(Seed(s, read).state, envs).errors[i] == Some(Rewrapped(GaugeNil))
  {
    NilGaugeIsPermanent(Seed(s, read).state, envs);
  }

  // ---------------------------------------------------------------------
  // Request wrappers
  // ---------------------------------------------------------------------

  /** A burst of requests served while no update is pending leaves both
      gate counters and the database as they were, and only appends to the
      log: one entry per request with an acceptable token. */
  lemma {:induction false} ServeAllBalancesGate(s: Proc, token: string, tokenHeader: string, reqs: seq<Request>)
    requires s.updatePending == 0
    ensures var b := ServeAll(s, token, tokenHeader, reqs);
      && b.state.(log := s.log) == s
      && |b.responses| == |reqs|
      && |b.state.log| == |s.log| + CountAuthorized(token, tokenHeader, reqs)
      && b.state.log[..|s.log|] == s.log
    decreases |reqs|
  {
    if reqs != [] {
      var first := WithToken(s, token, tokenHeader, reqs[0].headers, reqs[0].reply);
      ServeAllBalancesGate(first.state, token, tokenHeader, reqs[1..]);
      var rest := ServeAll(first.state, token, tokenHeader, reqs[1..]);
      assert rest.state.log[..|s.log|] == rest.state.log[..|first.state.log|][..|s.log|];
    }
  }

  /** In such a burst a request is rejected exactly when its token is not
      acceptable, and every handler that runs sees the same handle state and
      itself counted as in flight. */
  lemma {:induction false} ServeAllAdmitsByToken(s: Proc, token: string, tokenHeader: string, reqs: seq<Request>)
    requires s.updatePending == 0
    ensures var b := ServeAll(s, token, tokenHeader, reqs);
      && |b.responses| == |reqs|
      && (forall i :: 0 <= i < |reqs| ==>
            (b.responses[i].Unauthenticated? <==> !Authorized(token, HeaderValue(reqs[i].headers, tokenHeader))))
      && (forall i :: |s.log| <= i < |b.state.log| ==> b.state.log[i] == Handle(s.dbOpen, s.inFlight + 1))
    decreases |reqs|
  {
    if reqs != [] {
      var first := WithToken(s, token, tokenHeader, reqs[0].headers, reqs[0].reply);
      ServeAllAdmitsByToken(first.state, token, tokenHeader, reqs[1..]);
      ServeAllBalancesGate(first.state, token, tokenHeader, reqs[1..]);
      var b := ServeAll(s, token, tokenHeader, reqs);
      var rest := ServeAll(first.state, token, tokenHeader, reqs[1..]);
      assert b.responses == [first.response] + rest.responses;
      assert first.state.(log := s.log) == s;
      forall i | |s.log| <= i < |b.state.log|
        ensures b.state.log[i] == Handle(s.dbOpen, s.inFlight + 1)
      {
        if i < |first.state.log| {
          assert rest.state.log[i] == rest.state.log[..|first.state.log|][i];
        }
      }
      forall i | 0 <= i < |reqs|
        ensures b.responses[i].Unauthenticated? <==> !Authorized(token, HeaderValue(reqs[i].headers, tokenHeader))
      {
        if i > 0 {
          assert b.responses[i] == rest.responses[i - 1];
          assert reqs[i] == reqs[1..][i - 1];
        }
      }
    }
  }

  /** After a swap that failed once the database was closed, the gate is
      down again and the next request with an acceptable token reaches its
      handler while the database is still closed. */
  lemma FailedSwapServesOnClosedDb(s: Proc, env: Env, token: string, tokenHeader: string,
                                   headers: map<string, string>, reply: string)
    requires ReachesDrain(s, env) && s.inFlight == 0 && s.updatePending == 0
    requires env.close.Pass? && (env.copy.Fail? || env.updateMetadata.Fail? || env.open.Fail?)
    requires Authorized(token, HeaderValue(headers, tokenHeader))
    ensures var u := Update(s, env);
      && u.state.updatePending == 0
      && WithToken(u.state, token, tokenHeader, headers, reply).state.log == u.state.log + [Handle(false, 1)]
      && WithToken(u.state, token, tokenHeader, headers, reply).response == Reply(reply)
  {
    FailureAfterCloseLeavesDbClosed(s, env);
  }
}
