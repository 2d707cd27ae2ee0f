/** What each operation brings about: for every step of every run, the state after it in terms of the
    state before it, and which model a finished switch leaves. */
module RuntimeEffects {
  import opened Wrappers
  import opened Config
  import opened RuntimeModel
  import opened RuntimeInvariants
  import opened RuntimeProofs
  import opened RuntimeTheorems

  /** Step `k` of the run is action `a`. */
  ghost predicate Takes(cfg: GatewayConfig, run: seq<State>, k: nat, a: Action) {
    IsRun(cfg, run) && k + 1 < |run| && Step(cfg, run[k], a) == Some(run[k + 1])
  }

  /** Before step `k`, task `t` is at await point `pc`. */
  ghost predicate IsAt(run: seq<State>, k: nat, t: Task, pc: Pc) {
    k + 1 < |run| && t < |run[k].tasks| && run[k].tasks[t] == pc
  }

  /** The step moves task `t` to `pc`, and no other task. */
  predicate Goes(s: State, s': State, t: Task, pc: Pc) {
    t < |s.tasks| && s'.tasks == s.tasks[t := pc]
  }

  predicate SameEngine(s: State, s': State) {
    s'.engine == s.engine && s'.processes == s.processes && s'.generation == s.generation
  }

  predicate SameCounters(s: State, s': State) {
    s'.queueDepth == s.queueDepth && s'.switching == s.switching && s'.closing == s.closing
  }

  /** A live engine for the id is in service. */
  predicate InService(s: State, id: string) {
    s.phase in {Ready, Draining} && s.EngineAlive() && s.processes[s.engine.value].model.id == id
  }

  predicate Usable(s: State) { s.phase == Ready && s.EngineAlive() }

  /** The phase the last of the pending switches leaves behind, when it did not decide it itself. */
  predicate SettledPhase(s: State, s': State) {
    if s.phase == Draining && s'.switching == 0 then s'.phase == (if s.EngineAlive() then Ready else Failed)
    else s'.phase == s.phase
  }

  lemma ActionTaken(cfg: GatewayConfig, run: seq<State>, k: nat) returns (a: Action)
    requires IsRun(cfg, run) && k + 1 < |run|
    ensures Takes(cfg, run, k, a) && |run[k].tasks| <= |run[k + 1].tasks|
  {
    RunStep(cfg, run, k);
    a :| Step(cfg, run[k], a) == Some(run[k + 1]);
  }

  /** A task moves only in a step of its own. */
  lemma TaskMoved(cfg: GatewayConfig, run: seq<State>, k: nat, a: Action, t: Task)
    requires Takes(cfg, run, k, a) && t < |run[k].tasks| <= |run[k + 1].tasks| && run[k + 1].tasks[t] != run[k].tasks[t]
    ensures OfTask(a) && a.task == t
  {
    RunStep(cfg, run, k);
    OnlyItsOwnSteps(cfg, run[k], a, t);
  }

  // ----- requests

  /** A call is admitted exactly for the selected model, with nothing in the way and room in the queue. */
  lemma AdmittedExactlyWhen(cfg: GatewayConfig, run: seq<State>, k: nat, name: string)
    requires Takes(cfg, run, k, AcquireCall(name))
    ensures var s, s' := run[k], run[k + 1];
            var admitted := s'.tasks[|s.tasks|..] != [AcquireRejected];
            && (admitted <==> && (exists m :: Lookup(cfg.models, name) == Some(m) && Selected(s, m))
                              && !s.closing && s.switching == 0
                              && s.queueDepth < cfg.maxQueueSize + (if s.Locked() then 0 else 1))
            && s'.tasks[..|s.tasks|] == s.tasks
            && SameEngine(s, s') && s'.phase == s.phase && s'.holder == s.holder && s'.selected == s.selected
            && (if admitted
                then exists m :: Lookup(cfg.models, name) == Some(m) && s'.tasks[|s.tasks|..] == [AcquireQueued(name, m)]
                                 && s'.queueDepth == s.queueDepth + 1
                else s'.queueDepth == s.queueDepth)
  {}

  /** A switch request is accepted exactly for a configured name before a shutdown; it drains a runtime
      in service exactly when somebody holds the lock. */
  lemma SwitchRequested(cfg: GatewayConfig, run: seq<State>, k: nat, name: string)
    requires Takes(cfg, run, k, SwitchCall(name))
    ensures var s, s' := run[k], run[k + 1];
            && SameEngine(s, s') && s'.holder == s.holder && s'.selected == s.selected && s'.queueDepth == s.queueDepth
            && s'.tasks[..|s.tasks|] == s.tasks
            && (if Lookup(cfg.models, name).Some? && !s.closing
                then s'.tasks[|s.tasks|..] == [SwitchQueued(Lookup(cfg.models, name).value)]
                     && s'.switching == s.switching + 1
                     && s'.phase == (if s.Locked() && s.phase == Ready then Draining else s.phase)
                else s'.tasks[|s.tasks|..] == [SwitchDone] && s'.switching == s.switching && s'.phase == s.phase)
  {}

  lemma ShutdownRequested(cfg: GatewayConfig, run: seq<State>, k: nat)
    requires Takes(cfg, run, k, ShutdownCall)
    ensures var s, s' := run[k], run[k + 1];
            s'.closing && s' == s.(closing := true, tasks := s.tasks + [ShutdownQueued])
  {}

  /** A poll changes nothing, unless a ready engine turns out to be gone. */
  lemma PollEffect(cfg: GatewayConfig, run: seq<State>, k: nat)
    requires Takes(cfg, run, k, StatusPoll)
    ensures run[k].phase == Ready && !run[k].EngineAlive() ==> run[k + 1] == run[k].(phase := Failed)
    ensures run[k].phase != Ready || run[k].EngineAlive() ==> run[k + 1] == run[k]
  {}

  // ----- acquire

  /** Once it has the lock, an acquire goes on exactly if the selection still allows it. */
  lemma WinnerIsRechecked(cfg: GatewayConfig, run: seq<State>, k: nat, t: Task, name: string, m: ModelEntry,
                          disconnected: bool)
    requires Takes(cfg, run, k, Resume(t, disconnected)) && IsAt(run, k, t, AcquireWon(name, m))
    ensures var s, s' := run[k], run[k + 1];
            if Selected(s, m) && !s.closing && s.switching == 0
            then s' == s.At(t, AcquireChecked(name, m))
            else Refused(s, s', t)
  {
    RunStep(cfg, run, k);
    assert TaskAgrees(cfg, run[k], run[k].tasks[t]);
  }

  /** The request is rejected: the lock is free again, and the engine is as it was. */
  predicate Refused(s: State, s': State, t: Task) {
    && Goes(s, s', t, AcquireRejected) && s'.holder.None? && s'.queueDepth == s.queueDepth - 1
    && s'.switching == s.switching && s'.closing == s.closing && s'.selected == s.selected && SameEngine(s, s')
    && (s'.phase == s.phase || (s.phase == Ready && !s.EngineAlive() && s'.phase == Failed))
  }

  /** A lease on the owned engine: the task keeps the lock and leaves the queue. */
  predicate Granted(s: State, s': State, t: Task, name: string) {
    && s.engine.Some? && Goes(s, s', t, Leased(name, s.engine.value, true, Forwarding))
    && s'.holder == Some(t) && s'.queueDepth == s.queueDepth - 1
    && s'.switching == s.switching && s'.closing == s.closing && s'.selected == s.selected && SameEngine(s, s')
    && s'.phase == Ready
  }

  /** A checked acquire ends in a lease exactly when its client is still there and a live engine is
      ready; it starts the engine exactly on a stopped runtime; else it is refused. */
  lemma CheckedAcquire(cfg: GatewayConfig, run: seq<State>, k: nat, t: Task, name: string, m: ModelEntry, disconnected: bool)
    requires Takes(cfg, run, k, Resume(t, disconnected)) && IsAt(run, k, t, AcquireChecked(name, m))
    ensures var s, s' := run[k], run[k + 1];
            && (s'.tasks[t].Leased? <==> !disconnected && Usable(s))
            && (!disconnected && Usable(s) ==> Granted(s, s', t, name))
            && (!disconnected && s.phase == Stopped ==> s' == s.At(t, AcquireStarting(name, m)))
            && (disconnected || (s.phase != Stopped && !Usable(s)) ==> Refused(s, s', t))
  {
    RunStep(cfg, run, k);
    assert Owns(run[k].tasks[t]);
  }

  /** So does an acquire whose start returned. */
  lemma StartedAcquire(cfg: GatewayConfig, run: seq<State>, k: nat, t: Task, name: string, m: ModelEntry, disconnected: bool)
    requires Takes(cfg, run, k, Resume(t, disconnected)) && IsAt(run, k, t, AcquireStarted(name, m))
    ensures var s, s' := run[k], run[k + 1];
            && (s'.tasks[t].Leased? <==> Usable(s))
            && (if Usable(s) then Granted(s, s', t, name) else Refused(s, s', t))
  {
    RunStep(cfg, run, k);
    assert Owns(run[k].tasks[t]);
  }

  /** A start that raised refuses its acquire. */
  lemma FailedAcquire(cfg: GatewayConfig, run: seq<State>, k: nat, t: Task, disconnected: bool)
    requires Takes(cfg, run, k, Resume(t, disconnected)) && IsAt(run, k, t, AcquireStartFailed)
    ensures Refused(run[k], run[k + 1], t) && run[k + 1].phase == run[k].phase
  {
    RunStep(cfg, run, k);
  }

  /** A disconnect, timeout or cancellation refuses an acquire that holds the lock and does not start
      an engine, and touches nothing else. */
  lemma InterruptedAcquire(cfg: GatewayConfig, run: seq<State>, k: nat, t: Task)
    requires Takes(cfg, run, k, GiveUp(t)) && k + 1 < |run| && t < |run[k].tasks|
    requires var pc := run[k].tasks[t]; pc.AcquireWon? || pc.AcquireChecked? || pc.AcquireStarting? || pc.AcquireStarted?
    ensures Refused(run[k], run[k + 1], t) && run[k + 1].phase == run[k].phase
  {
    RunStep(cfg, run, k);
  }

  /** An acquire that gave up in the queue leaves it, and lets go of the lock if it won it after all. */
  lemma DroppedAcquire(cfg: GatewayConfig, run: seq<State>, k: nat, t: Task, won: bool, disconnected: bool)
    requires Takes(cfg, run, k, Resume(t, disconnected)) && IsAt(run, k, t, AcquireDropped(won))
    ensures var s, s' := run[k], run[k + 1];
            && Goes(s, s', t, AcquireRejected) && s'.queueDepth == s.queueDepth - 1
            && s'.holder == (if won then None else s.holder) && SameEngine(s, s') && s'.phase == s.phase
  {}

  // ----- starting and stopping

  /** Begun for acquire or switch: the selection and the phase say so before anything is spawned. */
  predicate StartBegun(s: State, s': State, t: Task, caller: Caller, m: ModelEntry) {
    && Goes(s, s', t, Spawning(caller, m, Launching, false)) && s'.holder == Some(t)
    && s'.selected == Some(m) && s'.phase == Loading && s'.generation == s.generation && SameCounters(s, s')
  }

  lemma AcquireBeginsStart(cfg: GatewayConfig, run: seq<State>, k: nat, t: Task, name: string, m: ModelEntry,
                           disconnected: bool)
    requires Takes(cfg, run, k, Resume(t, disconnected)) && IsAt(run, k, t, AcquireStarting(name, m))
    ensures StartBegun(run[k], run[k + 1], t, ForAcquire(name), m) && SameEngine(run[k], run[k + 1])
  {
    RunStep(cfg, run, k);
  }

  /** The spawned process becomes the owned engine, even when the start was cancelled meanwhile. */
  lemma SpawnedIsOwned(cfg: GatewayConfig, run: seq<State>, k: nat, t: Task, caller: Caller, m: ModelEntry,
                       h: Handle, cancelled: bool)
    requires Takes(cfg, run, k, CollectStart(t)) && IsAt(run, k, t, Spawning(caller, m, Returned(h), cancelled))
    ensures var s, s' := run[k], run[k + 1];
            && s'.engine == Some(h) && h < |s'.processes| && s'.processes[h].model == m && s'.holder == Some(t)
            && s'.processes == s.processes && s'.phase == Loading && s'.generation == s.generation && SameCounters(s, s')
            && Goes(s, s', t, if cancelled then Stopping(StopAfterFailedStart(caller)) else Readying(caller, m, h))
  {
    RunStep(cfg, run, k);
    assert TaskAgrees(cfg, run[k], run[k].tasks[t]);
  }

  /** What a start leaves that did not come up: a failed runtime, and its caller told. */
  predicate StartFailed(s: State, s': State, t: Task, caller: Caller) {
    && s'.phase == Failed && s'.generation == s.generation && s'.queueDepth == s.queueDepth && s'.closing == s.closing
    && (if caller.ForAcquire? then Goes(s, s', t, AcquireStartFailed) && s'.holder == Some(t) && s'.switching == s.switching
        else Goes(s, s', t, SwitchDone) && s'.holder.None? && s'.switching == s.switching - 1)
  }

  /** A start that raised leaves no engine. */
  lemma RaisedStartFails(cfg: GatewayConfig, run: seq<State>, k: nat, t: Task, caller: Caller, m: ModelEntry,
                         cancelled: bool)
    requires Takes(cfg, run, k, CollectStart(t)) && IsAt(run, k, t, Spawning(caller, m, Raised, cancelled))
    ensures StartFailed(run[k], run[k + 1], t, caller) && run[k + 1].engine.None?
  {
    RunStep(cfg, run, k);
    assert TaskAgrees(cfg, run[k], run[k].tasks[t]);
  }

  /** A start that becomes ready on a live engine is in service for its model under the next
      generation; any other goes to the stop with the engine still owned. */
  lemma ReadyOutcome(cfg: GatewayConfig, run: seq<State>, k: nat, t: Task, caller: Caller, m: ModelEntry,
                     h: Handle, ok: bool)
    requires Takes(cfg, run, k, ReadyResult(t, ok)) && IsAt(run, k, t, Readying(caller, m, h))
    ensures var s, s' := run[k], run[k + 1];
            && s'.engine == s.engine == Some(h) && s'.processes == s.processes && h < |s.processes|
            && s.processes[h].model == m
            && s'.queueDepth == s.queueDepth && s'.closing == s.closing && s'.selected == Some(m)
            && (if ok && s.Alive(h)
                then s'.phase == Ready && s'.generation == s.generation + 1
                     && (if caller.ForAcquire?
                         then Goes(s, s', t, AcquireStarted(caller.name, m)) && s'.holder == Some(t)
                              && s'.switching == s.switching
                         else Goes(s, s', t, SwitchDone) && s'.holder.None? && s'.switching == s.switching - 1)
                else s'.phase == Loading && s'.generation == s.generation && s'.holder == Some(t)
                     && s'.switching == s.switching
                     && Goes(s, s', t, Stopping(StopAfterFailedStart(caller))))
  {
    RunStep(cfg, run, k);
    assert TaskAgrees(cfg, run[k], run[k].tasks[t]) && Owns(run[k].tasks[t]);
  }

  /** The answer to a stop: whether the process is gone, and not that `stop` returned, decides. */
  predicate Confirmed(s: State, s': State, raised: bool) {
    !raised && s.engine.Some? && !s'.Alive(s.engine.value)
  }

  lemma StopAnswered(cfg: GatewayConfig, run: seq<State>, k: nat, t: Task, reason: StopReason, raised: bool, killed: bool)
    requires Takes(cfg, run, k, StopResult(t, raised, killed)) && IsAt(run, k, t, Stopping(reason))
    ensures var s, s' := run[k], run[k + 1];
            && s.engine.Some? && (killed ==> !s'.Alive(s.engine.value)) && (!killed ==> s'.processes == s.processes)
            && s'.engine == (if Confirmed(s, s', raised) then None else s.engine)
            && s'.generation == s.generation && s'.queueDepth == s.queueDepth && s'.closing == s.closing
            && StopEnds(s, s', t, reason, Confirmed(s, s', raised))
  {
    StopIsOwned(cfg, run, k, t, reason);
    StopAnswerEnds(cfg, run[k], t, reason, raised, killed);
    StopAnswerOwns(cfg, run[k], t, reason, raised, killed);
  }

  lemma StopIsOwned(cfg: GatewayConfig, run: seq<State>, k: nat, t: Task, reason: StopReason)
    requires IsRun(cfg, run) && IsAt(run, k, t, Stopping(reason))
    ensures run[k].holder == Some(t) && run[k].engine.Some? && run[k].engine.value < |run[k].processes|
  {
    RunKeepsInv(cfg, run, k);
    assert TaskAgrees(cfg, run[k], run[k].tasks[t]) && Owns(run[k].tasks[t]);
  }

  /** Ownership is dropped exactly when the stop is confirmed. */
  lemma StopAnswerOwns(cfg: GatewayConfig, s: State, t: Task, reason: StopReason, raised: bool, killed: bool)
    requires t < |s.tasks| && s.tasks[t] == Stopping(reason) && s.engine.Some? && s.engine.value < |s.processes|
    ensures Step(cfg, s, StopResult(t, raised, killed)).Some?
    ensures var s' := Step(cfg, s, StopResult(t, raised, killed)).value;
            && s'.engine == (if Confirmed(s, s', raised) then None else s.engine)
            && (killed ==> !s'.Alive(s.engine.value)) && (!killed ==> s'.processes == s.processes)
            && s'.generation == s.generation && s'.queueDepth == s.queueDepth && s'.closing == s.closing
  {}

  /** How each caller of `_stop` goes on. */
  predicate StopEnds(s: State, s': State, t: Task, reason: StopReason, confirmed: bool) {
    match reason
    case StopForSwitch(m) =>
      if confirmed then StartBegun(s, s', t, ForSwitch, m)
      else Goes(s, s', t, SwitchDone) && s'.holder.None? && s'.phase == Failed && s'.switching == s.switching - 1
    case StopForClose(h) =>
      Goes(s, s', t, LeaseClosed(h, false)) && s'.holder.None? && s'.switching == s.switching
      && s'.phase == (if confirmed then Stopped else Failed)
    case StopForShutdown =>
      Goes(s, s', t, ShutdownDone(confirmed)) && s'.holder.None? && s'.switching == s.switching
      && s'.phase == (if confirmed then Stopped else Failed)
    case StopAfterFailedStart(caller) => StartFailed(s, s', t, caller)
  }

  lemma StopAnswerEnds(cfg: GatewayConfig, s: State, t: Task, reason: StopReason, raised: bool, killed: bool)
    requires t < |s.tasks| && s.tasks[t] == Stopping(reason) && s.holder == Some(t)
    requires s.engine.Some? && s.engine.value < |s.processes|
    ensures Step(cfg, s, StopResult(t, raised, killed)).Some?
    ensures var s' := Step(cfg, s, StopResult(t, raised, killed)).value; StopEnds(s, s', t, reason, Confirmed(s, s', raised))
  {}

  // ----- switch

  /** A switch that gets the lock before a shutdown is done at once exactly when a live engine for its
      model is in service; else it stops the owned engine, or starts its model when there is none. */
  lemma SwitchGetsLock(cfg: GatewayConfig, run: seq<State>, k: nat, t: Task, m: ModelEntry)
    requires Takes(cfg, run, k, Grant(t)) && IsAt(run, k, t, SwitchQueued(m))
    ensures var s, s' := run[k], run[k + 1];
            && SameEngine(s, s') && s'.queueDepth == s.queueDepth && s'.closing == s.closing
            && (s.closing || InService(s, m.id) ==>
                  Goes(s, s', t, SwitchDone) && s'.holder.None? && s'.switching == s.switching - 1
                    && s'.selected == s.selected)
            && (s.closing ==> SettledPhase(s, s'))
            && (!s.closing && InService(s, m.id) ==> s'.phase == Ready)
            && (!s.closing && !InService(s, m.id) ==>
                  if s.engine.Some?
                  then Goes(s, s', t, Stopping(StopForSwitch(m))) && s'.holder == Some(t) && s'.phase == s.phase
                       && s'.switching == s.switching && s'.selected == s.selected
                  else StartBegun(s, s', t, ForSwitch, m))
  {
    RunStep(cfg, run, k);
  }

  /** A switch that gives up while queued leaves the lock and the engine alone. */
  lemma SwitchGivesUp(cfg: GatewayConfig, run: seq<State>, k: nat, t: Task, m: ModelEntry)
    requires Takes(cfg, run, k, GiveUp(t)) && IsAt(run, k, t, SwitchQueued(m))
    ensures var s, s' := run[k], run[k + 1];
            && Goes(s, s', t, SwitchDone) && s'.holder == s.holder && s'.selected == s.selected && SameEngine(s, s')
            && s'.switching == s.switching - 1 && s'.queueDepth == s.queueDepth && s'.closing == s.closing
            && SettledPhase(s, s')
  {
    RunStep(cfg, run, k);
    assert TaskAgrees(cfg, run[k], run[k].tasks[t]);
  }

  /** The await points of a switch for `m`. */
  predicate SwitchFor(pc: Pc, m: ModelEntry) {
    match pc
    case SwitchQueued(n) => n == m
    case Spawning(caller, n, _, _) => caller.ForSwitch? && n == m
    case Readying(caller, n, _) => caller.ForSwitch? && n == m
    case Stopping(reason) =>
      reason == StopForSwitch(m) || (reason.StopAfterFailedStart? && reason.caller.ForSwitch?)
    case _ => false
  }

  lemma SwitchGrantStaysFor(cfg: GatewayConfig, s: State, t: Task, m: ModelEntry)
    requires t < |s.tasks| && SwitchFor(s.tasks[t], m) && TakeLock(s.(holder := Some(t)), t, s.tasks[t]).Some?
    ensures var s' := TakeLock(s.(holder := Some(t)), t, s.tasks[t]).value;
            t < |s'.tasks| && (SwitchFor(s'.tasks[t], m) || s'.tasks[t].SwitchDone?)
  {}

  lemma SwitchStopStaysFor(cfg: GatewayConfig, s: State, a: Action, t: Task, m: ModelEntry)
    requires a.StopResult? && t < |s.tasks| && SwitchFor(s.tasks[t], m) && TaskStep(cfg, s, a, t, s.tasks[t]).Some?
    ensures var s' := TaskStep(cfg, s, a, t, s.tasks[t]).value;
            t < |s'.tasks| && (SwitchFor(s'.tasks[t], m) || s'.tasks[t].SwitchDone?)
  {}

  lemma SwitchStaysFor(cfg: GatewayConfig, s: State, a: Action, t: Task, m: ModelEntry)
    requires OfTask(a) && t < |s.tasks| && SwitchFor(s.tasks[t], m) && TaskStep(cfg, s, a, t, s.tasks[t]).Some?
    ensures var s' := TaskStep(cfg, s, a, t, s.tasks[t]).value;
            t < |s'.tasks| && (SwitchFor(s'.tasks[t], m) || s'.tasks[t].SwitchDone?)
  {
    if a.Grant? {
      SwitchGrantStaysFor(cfg, s, t, m);
    } else if a.StopResult? {
      SwitchStopStaysFor(cfg, s, a, t, m);
    }
  }

  ghost predicate SwitchLife(s: State, t: Task, m: ModelEntry) {
    t < |s.tasks| && (SwitchFor(s.tasks[t], m) || s.tasks[t].SwitchDone?)
  }

  lemma SwitchLivesOn(cfg: GatewayConfig, run: seq<State>, t: Task, m: ModelEntry, k: nat)
    requires IsRun(cfg, run) && k + 1 < |run| && SwitchLife(run[k], t, m)
    ensures SwitchLife(run[k + 1], t, m)
  {
    var a := ActionTaken(cfg, run, k);
    if run[k + 1].tasks[t] != run[k].tasks[t] {
      TaskMoved(cfg, run, k, a, t);
      if run[k].tasks[t].SwitchDone? {
        DonePersists(cfg, run, k, k + 1, t);
      } else {
        SwitchStaysFor(cfg, run[k], a, t, m);
      }
    }
  }

  /** All its life a switch is for the model it was requested for. */
  lemma {:induction false} SwitchLives(cfg: GatewayConfig, run: seq<State>, t: Task, m: ModelEntry, i: nat, j: nat)
    requires IsRun(cfg, run) && i <= j < |run| && SwitchLife(run[i], t, m)
    ensures SwitchLife(run[j], t, m)
  {
    if i < j {
      SwitchLives(cfg, run, t, m, i, j - 1);
      SwitchLivesOn(cfg, run, t, m, j - 1);
    }
  }

  /** Over every run: when a switch for `m` ends that was not abandoned and did not find a shutdown under
      way when it got the lock, the runtime is ready with an owned live engine for `m`, selected, or it failed. */
  lemma SwitchEnds(cfg: GatewayConfig, run: seq<State>, i: nat, k: nat, t: Task, m: ModelEntry)
    requires IsRun(cfg, run) && i <= k && k + 1 < |run| && t < |run[i].tasks| && run[i].tasks[t] == SwitchQueued(m)
    requires t < |run[k].tasks| && t < |run[k + 1].tasks| && run[k].tasks[t] != SwitchDone
             && run[k + 1].tasks[t] == SwitchDone
    requires !Takes(cfg, run, k, GiveUp(t)) && (run[k].tasks[t].SwitchQueued? ==> !run[k].closing)
    ensures var s' := run[k + 1];
            || (s'.phase == Ready && s'.EngineAlive() && s'.processes[s'.engine.value].model.id == m.id
                && s'.selected.Some? && s'.selected.value.id == m.id && !s'.Locked())
            || (s'.phase == Failed && !s'.Locked())
  {
    SwitchLives(cfg, run, t, m, i, k);
    var a := ActionTaken(cfg, run, k);
    TaskMoved(cfg, run, k, a, t);
    SwitchEndsBy(cfg, run, k, t, m, a);
  }

  lemma SwitchEndsBy(cfg: GatewayConfig, run: seq<State>, k: nat, t: Task, m: ModelEntry, a: Action)
    requires Takes(cfg, run, k, a) && OfTask(a) && a.task == t < |run[k].tasks| && SwitchFor(run[k].tasks[t], m)
    requires t < |run[k + 1].tasks| && run[k + 1].tasks[t] == SwitchDone && !a.GiveUp?
    requires run[k].tasks[t].SwitchQueued? ==> !run[k].closing
    ensures var s' := run[k + 1];
            || (s'.phase == Ready && s'.EngineAlive() && s'.processes[s'.engine.value].model.id == m.id
                && s'.selected.Some? && s'.selected.value.id == m.id && !s'.Locked())
            || (s'.phase == Failed && !s'.Locked())
  {
    var pc := run[k].tasks[t];
    if pc.SwitchQueued? {
      SwitchGetsLock(cfg, run, k, t, m);
      RunKeepsInv(cfg, run, k + 1);
    } else if pc.Stopping? {
      StopAnswered(cfg, run, k, t, pc.reason, a.raised, a.killed);
    } else if pc.Readying? {
      ReadyOutcome(cfg, run, k, t, ForSwitch, m, pc.engine, a.ok);
    } else if pc.op.Returned? {
      SpawnedIsOwned(cfg, run, k, t, ForSwitch, m, pc.op.handle, pc.cancelled);
    } else if pc.op.Raised? {
      RaisedStartFails(cfg, run, k, t, ForSwitch, m, pc.cancelled);
    }
  }
}
