/** Every step keeps the invariant.  A step of one task is first shown to be a `Move`, a statement
    about the moving task and the shared fields only; one lemma then extends it to all tasks. */
module RuntimeProofs {
  import opened Wrappers
  import opened Config
  import opened RuntimeModel
  import opened RuntimeInvariants

  /** Processes are only added or lost, never changed or revived. */
  ghost predicate ProcessesEvolve(s: State, s': State) {
    && |s.processes| <= |s'.processes|
    && forall h :: 0 <= h < |s.processes| ==>
         && s'.processes[h].model == s.processes[h].model
         && s'.processes[h].cooperative == s.processes[h].cooperative
         && (s'.processes[h].alive ==> s.processes[h].alive)
  }

  /** What a step may do to the fields a task suspended on an owning await relies on. */
  ghost predicate Unobtrusive(s: State, s': State) {
    && s'.engine == s.engine && s'.selected == s.selected && |s'.processes| == |s.processes|
    && (s'.phase == s.phase || (s.phase in {Ready, Draining} && s'.phase in {Ready, Draining, Failed}))
  }

  /** A failed runtime stays failed while it keeps its engine; a newly owned engine was never leased. */
  ghost predicate EngineEvolves(s: State, s': State) {
    if s'.engine == s.engine then s.engine.Some? && s.phase == Failed ==> s'.phase == Failed
    else s'.engine.Some? ==> NeverLeased(s, s'.engine.value)
  }

  ghost predicate Finished(s: State) {
    && s.closing && s.engine.None?
    && (s.holder.Some? ==> s.holder.value < |s.tasks|
                           && (s.tasks[s.holder.value].AcquireDropped? || s.tasks[s.holder.value].AcquireWon?))
  }

  /** The runtime reports a usable engine. */
  ghost predicate Serving(s: State) { s.phase == Ready || s.phase == Draining }

  /** A runtime comes into service only with a new generation, and stays with one engine otherwise. */
  ghost predicate GenerationEvolves(s: State, s': State) {
    && s.generation <= s'.generation
    && (Serving(s') ==> s'.generation > s.generation || (Serving(s) && s'.engine == s.engine))
  }

  /** A finished task stays as it is. */
  predicate Done(pc: Pc) {
    pc.AcquireRejected? || pc.LeaseClosed? || pc.SwitchDone? || pc.ShutdownDone? || pc.WarmupDone?
  }

  /** How the await point of task `t` may change in one step. */
  ghost predicate PcEvolves(s: State, s': State, t: Task, pc: Pc, pc': Pc) {
    && (Done(pc) ==> pc' == pc)
    && (Owns(pc) ==> Owns(pc') || Done(pc'))
    && (pc'.LeaseClosed? && pc' != pc ==> IsLease(pc))
    && (pc'.Spawning? && !pc'.op.Launching? ==> pc.Spawning?)
    && (pc'.LeaseClosed? && pc'.acknowledged && pc' != pc ==> pc == ClosingIdle(pc'.engine))
    && (pc'.Leased? && !pc.Leased? ==>
          && (pc.AcquireChecked? || pc.AcquireStarted?) && s.holder == Some(t) && s'.holder == Some(t)
          && s.phase == Ready && s'.phase == Ready && s'.Alive(pc'.engine))
  }

  /** Only a task about to spawn, with everything stopped, adds a process. */
  ghost predicate Spawns(s: State, s': State, pc: Pc) {
    && pc.Spawning? && pc.op.Launching? && s.engine.None?
    && |s'.processes| == |s.processes| + 1 && s'.processes[|s.processes|].model == pc.model
  }

  ghost predicate Move(cfg: GatewayConfig, s: State, s': State, t: Task)
    requires t < |s.tasks|
  {
    && |s'.tasks| == |s.tasks| && s'.tasks == s.tasks[t := s'.tasks[t]]
    && var pc, pc' := s.tasks[t], s'.tasks[t];
    && (Owns(pc') <==> s'.holder == Some(t))
    && (s'.holder == s.holder || (s'.holder == None && s.holder == Some(t)) || (s'.holder == Some(t) && s.holder == None))
    && s'.queueDepth - s.queueDepth == (if InAcquire(pc') then 1 else 0) - (if InAcquire(pc) then 1 else 0)
    && s'.switching - s.switching == (if InSwitch(pc') then 1 else 0) - (if InSwitch(pc) then 1 else 0)
    && ProcessesEvolve(s, s') && EngineEvolves(s, s') && (s.closing ==> s'.closing)
    && (s.holder.Some? && s.holder != Some(t) ==> Unobtrusive(s, s') && !pc'.LeaseClosed?)
    && PhaseAgrees(s') && TaskAgrees(cfg, s', pc') && SingleResident(s') && AdmissionBounded(cfg, s')
    && (Finished(s) ==> Finished(s')) && (pc' == ShutdownDone(true) ==> Finished(s'))
    && PcEvolves(s, s', t, pc, pc') && GenerationEvolves(s, s')
    && (|s'.processes| > |s.processes| ==> Spawns(s, s', pc))
  }

  /** The part of the invariant a moving task needs. */
  ghost predicate Here(cfg: GatewayConfig, s: State, t: Task) {
    && t < |s.tasks|
    && (Owns(s.tasks[t]) <==> s.holder == Some(t))
    && (s.holder.Some? ==> s.holder.value < |s.tasks|)
    && (InSwitch(s.tasks[t]) ==> s.switching > 0)
    && PhaseAgrees(s) && TaskAgrees(cfg, s, s.tasks[t]) && SingleResident(s) && AdmissionBounded(cfg, s)
    && NeverLeased(s, |s.processes|)
  }

  lemma InvImpliesHere(cfg: GatewayConfig, s: State, t: Task)
    requires Inv(cfg, s) && t < |s.tasks|
    ensures Here(cfg, s, t)
  {
    CountUpdate(InSwitch, s.tasks, t, SwitchDone);
  }

  lemma MoveKeepsInv(cfg: GatewayConfig, s: State, s': State, t: Task)
    requires Inv(cfg, s) && t < |s.tasks| && Move(cfg, s, s', t)
    ensures Inv(cfg, s') && Evolves(s, s')
  {
    assert |s'.processes| > |s.processes| ==> Spawns(s, s', s.tasks[t]);
    CountUpdate(InAcquire, s.tasks, t, s'.tasks[t]);
    CountUpdate(InSwitch, s.tasks, t, s'.tasks[t]);
    forall u | 0 <= u < |s'.tasks| && u != t ensures TaskAgrees(cfg, s', s'.tasks[u]) {
      MoveKeepsOthers(cfg, s, s', t, u);
    }
    assert ShutdownFinal(s') by {
      if exists u :: 0 <= u < |s'.tasks| && s'.tasks[u] == ShutdownDone(true) {
        var u :| 0 <= u < |s'.tasks| && s'.tasks[u] == ShutdownDone(true);
        assert u != t ==> s.tasks[u] == ShutdownDone(true);
      }
    }
  }

  lemma MoveKeepsOthers(cfg: GatewayConfig, s: State, s': State, t: Task, u: Task)
    requires Inv(cfg, s) && t < |s.tasks| && Move(cfg, s, s', t) && u < |s.tasks| && u != t
    ensures TaskAgrees(cfg, s', s'.tasks[u])
  {
    var pc := s.tasks[u];
    assert TaskAgrees(cfg, s, pc) && s'.tasks[u] == pc;
    if Owns(pc) {
      assert s.holder == Some(u) && Unobtrusive(s, s');
      assert forall h :: NeverLeased(s, h) ==> NeverLeased(s', h);
    } else if pc.LeaseClosed? {
      assert s'.engine.Some? && s'.engine != s.engine ==> NeverLeased(s, s'.engine.value);
    }
  }

  lemma EnterSwitchMoves(cfg: GatewayConfig, s: State, t: Task)
    requires Here(cfg, s, t) && s.holder.None? && s.tasks[t].SwitchQueued?
    ensures Move(cfg, s, EnterSwitch(s.(holder := Some(t)), t, s.tasks[t].model), t)
  {
    if !s.closing {
      ReplaceEngineMoves(cfg, s, t);
    }
  }

  lemma ReplaceEngineMoves(cfg: GatewayConfig, s: State, t: Task)
    requires Here(cfg, s, t) && s.holder.None? && s.tasks[t].SwitchQueued? && !s.closing
    ensures Move(cfg, s, BeginStop(s.(holder := Some(t)), t, StopForSwitch(s.tasks[t].model)), t)
  {
    if s.engine.None? {
      FirstStartMoves(cfg, s, t);
    }
  }

  lemma FirstStartMoves(cfg: GatewayConfig, s: State, t: Task)
    requires Here(cfg, s, t) && s.holder.None? && s.tasks[t].SwitchQueued? && !s.closing && s.engine.None?
    ensures Move(cfg, s, BeginStart(s.(holder := Some(t), phase := Stopped), t, ForSwitch, s.tasks[t].model), t)
  {}

  lemma EnterShutdownMoves(cfg: GatewayConfig, s: State, t: Task)
    requires Here(cfg, s, t) && s.holder.None? && s.tasks[t].ShutdownQueued?
    ensures Move(cfg, s, BeginStop(s.(holder := Some(t)), t, StopForShutdown), t)
  {}

  lemma EnterAcquireMoves(cfg: GatewayConfig, s: State, t: Task)
    requires Here(cfg, s, t) && s.holder.None? && (s.tasks[t].AcquireQueued? || s.tasks[t] == AcquireDropped(false))
    ensures Move(cfg, s, TakeLock(s.(holder := Some(t)), t, s.tasks[t]).value, t)
  {}

  lemma TakeLockMoves(cfg: GatewayConfig, s: State, t: Task)
    requires Here(cfg, s, t) && s.holder.None?
    requires TakeLock(s.(holder := Some(t)), t, s.tasks[t]).Some?
    ensures Move(cfg, s, TakeLock(s.(holder := Some(t)), t, s.tasks[t]).value, t)
  {
    var pc := s.tasks[t];
    if pc.SwitchQueued? {
      EnterSwitchMoves(cfg, s, t);
    } else if pc.ShutdownQueued? {
      EnterShutdownMoves(cfg, s, t);
    } else if !pc.WarmupQueued? {
      EnterAcquireMoves(cfg, s, t);
    }
  }

  /** Leaving an acquire is a move from any await point of it that is not inside `_start`. */
  lemma LeaveAcquireMoves(cfg: GatewayConfig, s: State, t: Task)
    requires Here(cfg, s, t) && InAcquire(s.tasks[t]) && !IsStarting(s.tasks[t])
    ensures Move(cfg, s, LeaveAcquire(s, t, Owns(s.tasks[t])), t)
  {}

  /** Raising out of a start whose engine did not come up. */
  lemma FailStartMoves(cfg: GatewayConfig, s: State, t: Task)
    requires Here(cfg, s, t)
    requires s.tasks[t].Readying? || (s.tasks[t].Spawning? && s.tasks[t].op.Raised?)
    ensures Move(cfg, s, BeginStop(s, t, StopAfterFailedStart(s.tasks[t].caller)), t)
  {}

  lemma AbandonSwitchMoves(cfg: GatewayConfig, s: State, t: Task)
    requires Here(cfg, s, t) && s.tasks[t].SwitchQueued?
    ensures Move(cfg, s, LeaveSwitch(s, t, false), t)
  {}

  /** Giving up while queued, or asking an in-flight start to unwind, touches no shared field. */
  lemma AbandonWaitMoves(cfg: GatewayConfig, s: State, t: Task)
    requires Here(cfg, s, t) && Abandon(s, t, s.tasks[t]).Some?
    requires var pc := s.tasks[t]; pc.AcquireQueued? || pc.ShutdownQueued? || pc.WarmupQueued? || pc.Spawning?
    ensures Move(cfg, s, Abandon(s, t, s.tasks[t]).value, t)
  {
    if s.tasks[t].Spawning? {
      AbandonStartMoves(cfg, s, t);
    } else if s.tasks[t].AcquireQueued? {
      AbandonAcquireMoves(cfg, s, t);
    }
  }

  lemma AbandonAcquireMoves(cfg: GatewayConfig, s: State, t: Task)
    requires Here(cfg, s, t) && s.tasks[t].AcquireQueued?
    ensures Move(cfg, s, s.At(t, AcquireDropped(false)), t)
  {}

  lemma AbandonStartMoves(cfg: GatewayConfig, s: State, t: Task)
    requires Here(cfg, s, t) && s.tasks[t].Spawning?
    ensures Move(cfg, s, s.At(t, s.tasks[t].(cancelled := true)), t)
  {}

  lemma AbandonMoves(cfg: GatewayConfig, s: State, t: Task)
    requires Here(cfg, s, t) && Abandon(s, t, s.tasks[t]).Some?
    ensures Move(cfg, s, Abandon(s, t, s.tasks[t]).value, t)
  {
    var pc := s.tasks[t];
    if pc.SwitchQueued? {
      AbandonSwitchMoves(cfg, s, t);
    } else if pc.WarmingUp? {
      EndWarmupMoves(cfg, s, t);
    } else if pc.Readying? {
      FailStartMoves(cfg, s, t);
    } else if InAcquire(pc) && Owns(pc) && !pc.Spawning? {
      LeaveAcquireMoves(cfg, s, t);
    } else {
      AbandonWaitMoves(cfg, s, t);
    }
  }

  lemma DeliverMoves(cfg: GatewayConfig, s: State, t: Task, name: string)
    requires Here(cfg, s, t)
    requires s.tasks[t].AcquireChecked? || s.tasks[t].AcquireStarted?
    requires name == s.tasks[t].name
    ensures Move(cfg, s, Deliver(s, t, name), t)
  {
    if s.phase == Ready && s.EngineAlive() {
      LeaseMoves(cfg, s, t, name);
    } else {
      RefuseMoves(cfg, s, t);
    }
  }

  lemma LeaseMoves(cfg: GatewayConfig, s: State, t: Task, name: string)
    requires Here(cfg, s, t) && (s.tasks[t].AcquireChecked? || s.tasks[t].AcquireStarted?)
    requires name == s.tasks[t].name && s.phase == Ready && s.EngineAlive()
    ensures Move(cfg, s, s.(queueDepth := s.queueDepth - 1).At(t, Leased(name, s.engine.value, true, Forwarding)), t)
  {}

  lemma RefuseMoves(cfg: GatewayConfig, s: State, t: Task)
    requires Here(cfg, s, t) && (s.tasks[t].AcquireChecked? || s.tasks[t].AcquireStarted?)
    ensures Move(cfg, s, LeaveAcquire(Status(s), t, true), t)
  {}

  lemma BeginStartMoves(cfg: GatewayConfig, s: State, t: Task)
    requires Here(cfg, s, t) && s.tasks[t].AcquireStarting?
    ensures Move(cfg, s, BeginStart(s, t, ForAcquire(s.tasks[t].name), s.tasks[t].model), t)
  {}

  lemma RecheckMoves(cfg: GatewayConfig, s: State, t: Task)
    requires Here(cfg, s, t) && s.tasks[t].AcquireWon? && SelectionAllows(cfg, s, s.tasks[t].name)
    ensures Move(cfg, s, s.At(t, AcquireChecked(s.tasks[t].name, s.tasks[t].model)), t)
  {}

  lemma CheckedMoves(cfg: GatewayConfig, s: State, t: Task, disconnected: bool)
    requires Here(cfg, s, t) && s.tasks[t].AcquireChecked?
    ensures Move(cfg, s, ResumeTask(cfg, s, t, s.tasks[t], disconnected).value, t)
  {
    LeaveAcquireMoves(cfg, s, t);
    DeliverMoves(cfg, s, t, s.tasks[t].name);
  }

  lemma EndWarmupMoves(cfg: GatewayConfig, s: State, t: Task)
    requires Here(cfg, s, t) && s.tasks[t].WarmingUp?
    ensures Move(cfg, s, s.(holder := None).At(t, WarmupDone), t)
  {}

  lemma ResumeMoves(cfg: GatewayConfig, s: State, t: Task, disconnected: bool)
    requires Here(cfg, s, t) && ResumeTask(cfg, s, t, s.tasks[t], disconnected).Some?
    ensures Move(cfg, s, ResumeTask(cfg, s, t, s.tasks[t], disconnected).value, t)
  {
    var pc := s.tasks[t];
    if pc.AcquireStarting? {
      BeginStartMoves(cfg, s, t);
    } else if pc.AcquireStarted? {
      DeliverMoves(cfg, s, t, pc.name);
    } else if pc.AcquireChecked? {
      CheckedMoves(cfg, s, t, disconnected);
    } else if pc.WarmingUp? {
      EndWarmupMoves(cfg, s, t);
    } else if pc.AcquireWon? && SelectionAllows(cfg, s, pc.name) {
      RecheckMoves(cfg, s, t);
    } else {
      LeaveAcquireMoves(cfg, s, t);
    }
  }

  lemma CloseMoves(cfg: GatewayConfig, s: State, t: Task, abandoned: bool)
    requires Here(cfg, s, t) && s.tasks[t].Leased?
    ensures Move(cfg, s, CloseLease(s, t, s.tasks[t], abandoned), t)
  {}

  /** Engine.stop raised, or left the process alive. */
  lemma StopFailsMoves(cfg: GatewayConfig, s: State, t: Task, after: State)
    requires Here(cfg, s, t) && s.tasks[t].Stopping? && s.engine.Some?
    requires after == s || after == s.Kill(s.engine.value)
    ensures Move(cfg, s, AfterFailedStop(after.(phase := Failed), t, s.tasks[t].reason), t)
  {
    if InSwitch(s.tasks[t]) {
      SwitchStopFailsMoves(cfg, s, t, after);
    } else if s.tasks[t].reason.StopForShutdown? {
      ShutdownStopFailsMoves(cfg, s, t, after);
    } else if s.tasks[t].reason.StopForClose? {
      CloseStopFailsMoves(cfg, s, t, after);
    }
  }

  lemma ShutdownStopFailsMoves(cfg: GatewayConfig, s: State, t: Task, after: State)
    requires Here(cfg, s, t) && s.tasks[t] == Stopping(StopForShutdown) && s.engine.Some?
    requires after == s || after == s.Kill(s.engine.value)
    ensures Move(cfg, s, after.(phase := Failed, holder := None).At(t, ShutdownDone(false)), t)
  {}

  lemma CloseStopFailsMoves(cfg: GatewayConfig, s: State, t: Task, after: State)
    requires Here(cfg, s, t) && s.tasks[t].Stopping? && s.tasks[t].reason.StopForClose? && s.engine.Some?
    requires after == s || after == s.Kill(s.engine.value)
    ensures Move(cfg, s, after.(phase := Failed, holder := None).At(t, LeaseClosed(s.tasks[t].reason.engine, false)), t)
  {}

  lemma SwitchStopFailsMoves(cfg: GatewayConfig, s: State, t: Task, after: State)
    requires Here(cfg, s, t) && s.tasks[t].Stopping? && InSwitch(s.tasks[t]) && s.engine.Some?
    requires after == s || after == s.Kill(s.engine.value)
    ensures Move(cfg, s, LeaveSwitch(after.(phase := Failed), t, true), t)
  {}

  /** The owned process is confirmed gone. */
  lemma StopSucceedsMoves(cfg: GatewayConfig, s: State, t: Task, after: State)
    requires Here(cfg, s, t) && s.tasks[t].Stopping? && s.engine.Some?
    requires (after == s || after == s.Kill(s.engine.value)) && !after.EngineAlive()
    ensures Move(cfg, s, AfterStop(after.(engine := None, phase := Stopped), t, s.tasks[t].reason), t)
  {
    var reason := s.tasks[t].reason;
    if reason.StopForSwitch? {
      RestartMoves(cfg, s, t, after);
    } else if reason.StopAfterFailedStart? {
      StopFailedStartMoves(cfg, s, t, after);
    } else {
      StopReleasesMoves(cfg, s, t, after);
    }
  }

  /** A lease or a shutdown that stopped the engine lets go of the lock. */
  lemma StopReleasesMoves(cfg: GatewayConfig, s: State, t: Task, after: State)
    requires Here(cfg, s, t) && s.tasks[t].Stopping? && s.engine.Some?
    requires s.tasks[t].reason.StopForClose? || s.tasks[t].reason.StopForShutdown?
    requires (after == s || after == s.Kill(s.engine.value)) && !after.EngineAlive()
    ensures Move(cfg, s, AfterStop(after.(engine := None, phase := Stopped), t, s.tasks[t].reason), t)
  {}

  lemma RestartMoves(cfg: GatewayConfig, s: State, t: Task, after: State)
    requires Here(cfg, s, t) && s.tasks[t].Stopping? && s.tasks[t].reason.StopForSwitch? && s.engine.Some?
    requires (after == s || after == s.Kill(s.engine.value)) && !after.EngineAlive()
    ensures Move(cfg, s, BeginStart(after.(engine := None, phase := Stopped), t, ForSwitch, s.tasks[t].reason.model), t)
  {}

  lemma StopFailedStartMoves(cfg: GatewayConfig, s: State, t: Task, after: State)
    requires Here(cfg, s, t) && s.tasks[t].Stopping? && s.tasks[t].reason.StopAfterFailedStart? && s.engine.Some?
    requires (after == s || after == s.Kill(s.engine.value)) && !after.EngineAlive()
    ensures Move(cfg, s, StartRaises(after.(engine := None, phase := Failed), t, s.tasks[t].reason.caller), t)
  {
    if s.tasks[t].reason.caller.ForSwitch? {
      StopFailedSwitchMoves(cfg, s, t, after);
    }
  }

  lemma StopFailedSwitchMoves(cfg: GatewayConfig, s: State, t: Task, after: State)
    requires Here(cfg, s, t) && s.tasks[t] == Stopping(StopAfterFailedStart(ForSwitch)) && s.engine.Some?
    requires (after == s || after == s.Kill(s.engine.value)) && !after.EngineAlive()
    ensures Move(cfg, s, LeaveSwitch(after.(engine := None, phase := Failed), t, true), t)
  {}

  /** Progress of the worker thread. */
  lemma LaunchMoves(cfg: GatewayConfig, s: State, a: Action, t: Task)
    requires Here(cfg, s, t) && (a.Launch? || a.LaunchReturns?) && TaskStep(cfg, s, a, t, s.tasks[t]).Some?
    ensures Move(cfg, s, TaskStep(cfg, s, a, t, s.tasks[t]).value, t)
  {}

  lemma LaunchRaisesMoves(cfg: GatewayConfig, s: State, a: Action, t: Task)
    requires Here(cfg, s, t) && a.LaunchRaises? && TaskStep(cfg, s, a, t, s.tasks[t]).Some?
    ensures Move(cfg, s, TaskStep(cfg, s, a, t, s.tasks[t]).value, t)
  {}

  /** The handle, or the exception, reaches `_start`. */
  lemma CollectMoves(cfg: GatewayConfig, s: State, a: Action, t: Task)
    requires Here(cfg, s, t) && a.CollectStart? && TaskStep(cfg, s, a, t, s.tasks[t]).Some?
    ensures Move(cfg, s, TaskStep(cfg, s, a, t, s.tasks[t]).value, t)
  {
    if s.tasks[t].op.Raised? {
      FailStartMoves(cfg, s, t);
    }
  }

  lemma ReadyMoves(cfg: GatewayConfig, s: State, a: Action, t: Task)
    requires Here(cfg, s, t) && a.ReadyResult? && TaskStep(cfg, s, a, t, s.tasks[t]).Some?
    ensures Move(cfg, s, TaskStep(cfg, s, a, t, s.tasks[t]).value, t)
  {
    FailStartMoves(cfg, s, t);
  }

  lemma StopResultMoves(cfg: GatewayConfig, s: State, a: Action, t: Task)
    requires Here(cfg, s, t) && a.StopResult? && TaskStep(cfg, s, a, t, s.tasks[t]).Some?
    ensures Move(cfg, s, TaskStep(cfg, s, a, t, s.tasks[t]).value, t)
  {
    var after := if a.killed then s.Kill(s.engine.value) else s;
    if a.raised || after.EngineAlive() {
      StopFailsMoves(cfg, s, t, after);
    } else {
      StopSucceedsMoves(cfg, s, t, after);
    }
  }

  predicate IsService(a: Action) {
    a.KeepOnAbandon? || a.ForwardEnds? || a.CallResponse? || a.StreamEnds?
  }

  /** Serving under a lease changes nothing but the request's own state, until it closes the lease. */
  lemma ServiceMoves(cfg: GatewayConfig, s: State, a: Action, t: Task)
    requires Here(cfg, s, t) && ServeRequest(s, t, s.tasks[t], a).Some?
    ensures Move(cfg, s, ServeRequest(s, t, s.tasks[t], a).value, t)
  {
    if a.ForwardEnds? && !a.end.Streamed? {
      CloseMoves(cfg, s, t, a.end.Failing?);
    } else if a.StreamEnds? {
      CloseMoves(cfg, s, t, !a.finished);
    } else {
      KeepLeaseMoves(cfg, s, t, ServeRequest(s, t, s.tasks[t], a).value.tasks[t]);
    }
  }

  /** A first close keeps the invariant, whoever calls it. */
  lemma CloseKeepsInv(cfg: GatewayConfig, s: State, t: Task, abandoned: bool)
    requires Inv(cfg, s) && t < |s.tasks| && s.tasks[t].Leased?
    ensures Inv(cfg, CloseLease(s, t, s.tasks[t], abandoned))
  {
    InvImpliesHere(cfg, s, t);
    CloseMoves(cfg, s, t, abandoned);
    MoveKeepsInv(cfg, s, CloseLease(s, t, s.tasks[t], abandoned), t);
  }

  lemma KeepLeaseMoves(cfg: GatewayConfig, s: State, t: Task, pc: Pc)
    requires Here(cfg, s, t) && s.tasks[t].Leased? && pc.Leased?
    requires pc.name == s.tasks[t].name && pc.engine == s.tasks[t].engine
    ensures Move(cfg, s, s.At(t, pc), t)
  {}

  lemma LeaseStepMoves(cfg: GatewayConfig, s: State, a: Action, t: Task)
    requires Here(cfg, s, t) && (IsService(a) || a.CloseAgain? || a.IdleResult?)
    requires TaskStep(cfg, s, a, t, s.tasks[t]).Some? && TaskStep(cfg, s, a, t, s.tasks[t]).value != s
    ensures Move(cfg, s, TaskStep(cfg, s, a, t, s.tasks[t]).value, t)
  {
    if IsService(a) {
      ServiceMoves(cfg, s, a, t);
    } else if a.IdleResult? {
      IdleMoves(cfg, s, t, a.idle);
    }
  }

  lemma IdleMoves(cfg: GatewayConfig, s: State, t: Task, idle: bool)
    requires Here(cfg, s, t) && s.tasks[t].ClosingIdle?
    ensures Move(cfg, s, TaskStep(cfg, s, IdleResult(t, idle), t, s.tasks[t]).value, t)
  {}

  lemma EngineStepMoves(cfg: GatewayConfig, s: State, a: Action, t: Task)
    requires Here(cfg, s, t)
    requires a.Launch? || a.LaunchReturns? || a.LaunchRaises? || a.CollectStart? || a.ReadyResult? || a.StopResult?
    requires TaskStep(cfg, s, a, t, s.tasks[t]).Some?
    ensures Move(cfg, s, TaskStep(cfg, s, a, t, s.tasks[t]).value, t)
  {
    if a.LaunchRaises? {
      LaunchRaisesMoves(cfg, s, a, t);
    } else if a.CollectStart? {
      CollectMoves(cfg, s, a, t);
    } else if a.ReadyResult? {
      ReadyMoves(cfg, s, a, t);
    } else if a.StopResult? {
      StopResultMoves(cfg, s, a, t);
    } else {
      LaunchMoves(cfg, s, a, t);
    }
  }

  lemma TaskStepMoves(cfg: GatewayConfig, s: State, a: Action, t: Task)
    requires Here(cfg, s, t) && OfTask(a)
    requires TaskStep(cfg, s, a, t, s.tasks[t]).Some? && TaskStep(cfg, s, a, t, s.tasks[t]).value != s
    ensures Move(cfg, s, TaskStep(cfg, s, a, t, s.tasks[t]).value, t)
  {
    if a.Grant? {
      TakeLockMoves(cfg, s, t);
    } else if a.GiveUp? {
      AbandonMoves(cfg, s, t);
    } else if a.Resume? {
      ResumeMoves(cfg, s, t, a.disconnected);
    } else if IsService(a) || a.CloseAgain? || a.IdleResult? {
      LeaseStepMoves(cfg, s, a, t);
    } else {
      EngineStepMoves(cfg, s, a, t);
    }
  }

  /** How one step changes the tasks and the generation. */
  ghost predicate Evolves(s: State, s': State) {
    && |s.tasks| <= |s'.tasks|
    && (forall t :: 0 <= t < |s.tasks| ==> PcEvolves(s, s', t, s.tasks[t], s'.tasks[t]))
    && (forall t :: |s.tasks| <= t < |s'.tasks| ==> !s'.tasks[t].LeaseClosed? && !Owns(s'.tasks[t]) && !s'.tasks[t].Leased?)
    && GenerationEvolves(s, s') && ProcessesEvolve(s, s')
    && (|s'.processes| > |s.processes| ==> exists t :: 0 <= t < |s.tasks| && Spawns(s, s', s.tasks[t]))
  }

  /** A step that starts a task suspended outside the lock. */
  lemma SpawnKeepsInv(cfg: GatewayConfig, s: State, s': State, pc: Pc)
    requires Inv(cfg, s) && s'.tasks == s.tasks + [pc] && s'.holder == s.holder && Unobtrusive(s, s')
    requires s'.processes == s.processes && (s.closing ==> s'.closing) && EngineEvolves(s, s')
    requires !Owns(pc) && !pc.LeaseClosed? && pc != ShutdownDone(true)
    requires TaskAgrees(cfg, s', pc) && PhaseAgrees(s') && AdmissionBounded(cfg, s')
    requires s'.queueDepth == s.queueDepth + (if InAcquire(pc) then 1 else 0)
    requires s'.switching == s.switching + (if InSwitch(pc) then 1 else 0)
    requires !pc.Leased? && GenerationEvolves(s, s')
    ensures Inv(cfg, s') && Evolves(s, s')
  {
    CountAppend(InAcquire, s.tasks, pc);
    CountAppend(InSwitch, s.tasks, pc);
    assert forall u :: 0 <= u < |s.tasks| ==> s'.tasks[u] == s.tasks[u];
    assert forall h :: NeverLeased(s, h) ==> NeverLeased(s', h);
    forall u | 0 <= u < |s.tasks| ensures TaskAgrees(cfg, s', s'.tasks[u]) {
      assert TaskAgrees(cfg, s, s.tasks[u]);
    }
    assert ShutdownFinal(s') by {
      if exists u :: 0 <= u < |s'.tasks| && s'.tasks[u] == ShutdownDone(true) {
        var u :| 0 <= u < |s'.tasks| && s'.tasks[u] == ShutdownDone(true);
        assert s.tasks[u] == ShutdownDone(true);
      }
    }
  }

  /** A step that touches the phase, the closing flag or a process, but no task. */
  lemma AmbientKeepsInv(cfg: GatewayConfig, s: State, s': State)
    requires Inv(cfg, s) && s'.tasks == s.tasks && s'.holder == s.holder && Unobtrusive(s, s')
    requires s'.queueDepth == s.queueDepth && s'.switching == s.switching
    requires ProcessesEvolve(s, s') && EngineEvolves(s, s') && (s.closing ==> s'.closing) && PhaseAgrees(s')
    requires GenerationEvolves(s, s')
    ensures Inv(cfg, s') && Evolves(s, s')
  {
    forall u | 0 <= u < |s.tasks| ensures TaskAgrees(cfg, s', s'.tasks[u]) {
      assert TaskAgrees(cfg, s, s.tasks[u]);
      assert forall h :: NeverLeased(s, h) ==> NeverLeased(s', h);
    }
  }

  lemma CallKeepsInv(cfg: GatewayConfig, s: State, a: Action)
    requires Inv(cfg, s) && (a.AcquireCall? || a.SwitchCall?)
    ensures Inv(cfg, Step(cfg, s, a).value) && Evolves(s, Step(cfg, s, a).value)
  {
    var s' := Step(cfg, s, a).value;
    SpawnKeepsInv(cfg, s, s', s'.tasks[|s.tasks|]);
  }

  lemma QueueKeepsInv(cfg: GatewayConfig, s: State, a: Action)
    requires Inv(cfg, s) && (a.ShutdownCall? || a.WarmupCall?)
    ensures Inv(cfg, Step(cfg, s, a).value) && Evolves(s, Step(cfg, s, a).value)
  {
    SpawnKeepsInv(cfg, s, Step(cfg, s, a).value, if a.ShutdownCall? then ShutdownQueued else WarmupQueued);
  }

  lemma AmbientStepKeepsInv(cfg: GatewayConfig, s: State, a: Action)
    requires Inv(cfg, s) && Step(cfg, s, a).Some?
    requires a.SetClosing? || a.StatusPoll? || a.Crash?
    ensures Inv(cfg, Step(cfg, s, a).value) && Evolves(s, Step(cfg, s, a).value)
  {
    AmbientKeepsInv(cfg, s, Step(cfg, s, a).value);
  }

  lemma TaskStepKeepsInv(cfg: GatewayConfig, s: State, a: Action)
    requires Inv(cfg, s) && OfTask(a) && Step(cfg, s, a).Some?
    ensures Inv(cfg, Step(cfg, s, a).value) && Evolves(s, Step(cfg, s, a).value)
  {
    var s' := Step(cfg, s, a).value;
    if s' != s {
      InvImpliesHere(cfg, s, a.task);
      TaskStepMoves(cfg, s, a, a.task);
      MoveKeepsInv(cfg, s, s', a.task);
    }
  }

  lemma StepKeepsInv(cfg: GatewayConfig, s: State, a: Action)
    requires Inv(cfg, s) && Step(cfg, s, a).Some?
    ensures Inv(cfg, Step(cfg, s, a).value) && Evolves(s, Step(cfg, s, a).value)
  {
    if OfTask(a) {
      TaskStepKeepsInv(cfg, s, a);
    } else if a.AcquireCall? || a.SwitchCall? {
      CallKeepsInv(cfg, s, a);
    } else if a.ShutdownCall? || a.WarmupCall? {
      QueueKeepsInv(cfg, s, a);
    } else {
      AmbientStepKeepsInv(cfg, s, a);
    }
  }

  /** The part of it a single object needs. */
  lemma StepStaysValid(cfg: GatewayConfig, s: State, a: Action)
    requires Inv(cfg, s) && Step(cfg, s, a).Some?
    ensures Inv(cfg, Step(cfg, s, a).value)
  {
    StepKeepsInv(cfg, s, a);
  }

  /** Every state of every run satisfies the invariant. */
  lemma {:induction false} RunKeepsInv(cfg: GatewayConfig, run: seq<State>, k: nat)
    requires IsRun(cfg, run) && k < |run|
    ensures Inv(cfg, run[k])
  {
    if k == 0 {
      var selected :| run[0] == Initial(selected);
      InitialInv(cfg, selected);
    } else {
      RunKeepsInv(cfg, run, k - 1);
      assert StepAt(cfg, run, k - 1);
      NextKeepsInv(cfg, run[k - 1], run[k]);
    }
  }

  lemma NextKeepsInv(cfg: GatewayConfig, s: State, s': State)
    requires Inv(cfg, s) && Next(cfg, s, s')
    ensures Inv(cfg, s') && Evolves(s, s')
  {
    var a :| Step(cfg, s, a) == Some(s');
    StepKeepsInv(cfg, s, a);
  }

  lemma RunEvolves(cfg: GatewayConfig, run: seq<State>, k: nat)
    requires IsRun(cfg, run) && k + 1 < |run|
    ensures Inv(cfg, run[k]) && Inv(cfg, run[k + 1]) && Evolves(run[k], run[k + 1])
  {
    RunKeepsInv(cfg, run, k);
    assert StepAt(cfg, run, k);
    NextKeepsInv(cfg, run[k], run[k + 1]);
  }

  lemma RunStep(cfg: GatewayConfig, run: seq<State>, k: nat)
    requires IsRun(cfg, run) && k + 1 < |run|
    ensures Inv(cfg, run[k]) && Next(cfg, run[k], run[k + 1]) && |run[k].tasks| <= |run[k + 1].tasks|
  {
    RunEvolves(cfg, run, k);
    assert StepAt(cfg, run, k);
  }
}
