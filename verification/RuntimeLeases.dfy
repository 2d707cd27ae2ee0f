/** How leases end, and what the remaining waits of the runtime do with the lock and the engine. */
module RuntimeLeases {
  import opened Wrappers
  import opened Config
  import opened RuntimeModel
  import opened RuntimeInvariants
  import opened RuntimeProofs
  import opened RuntimeEffects

  // ----- serving and closing

  /** The answer was complete, or the stream finished. */
  predicate EndsServed(a: Action, service: Service) {
    (service == Forwarding && a.ForwardEnds? && a.end == Whole) || (service == Streaming && a.StreamEnds? && a.finished)
  }

  /** Forwarding raised, or the client left a stream unfinished. */
  predicate EndsAbandoned(a: Action, service: Service) {
    (service == Forwarding && a.ForwardEnds? && a.end == Failing) || (service == Streaming && a.StreamEnds? && !a.finished)
  }

  /** A request that ends on a cooperative engine waits for its idle answer, however it ended.  On any
      other engine an abandoned one stops the engine, unless it may be kept; every other ending frees
      the lock at once and leaves engine and phase as they are. */
  lemma RequestEnds(cfg: GatewayConfig, run: seq<State>, k: nat, t: Task, a: Action,
                    name: string, h: Handle, restart: bool, service: Service)
    requires Takes(cfg, run, k, a) && IsAt(run, k, t, Leased(name, h, restart, service))
    requires OfTask(a) && a.task == t && (EndsServed(a, service) || EndsAbandoned(a, service))
    ensures var s, s' := run[k], run[k + 1];
            && s.holder == Some(t) && s.engine == Some(h) && h < |s.processes|
            && SameEngine(s, s') && SameCounters(s, s') && s'.phase == s.phase && s'.selected == s.selected
            && (if s.processes[h].cooperative then Goes(s, s', t, ClosingIdle(h)) && s'.holder == Some(t)
                else if EndsAbandoned(a, service) && restart
                then Goes(s, s', t, Stopping(StopForClose(h))) && s'.holder == Some(t)
                else Goes(s, s', t, LeaseClosed(h, false)) && s'.holder.None?)
  {
    RunStep(cfg, run, k);
    assert TaskAgrees(cfg, run[k], run[k].tasks[t]) && Owns(run[k].tasks[t]);
  }

  /** Until then the request keeps its lease: a streamed response takes it along and is called later. */
  lemma RequestGoesOn(cfg: GatewayConfig, run: seq<State>, k: nat, t: Task, a: Action,
                      name: string, h: Handle, restart: bool, service: Service)
    requires Takes(cfg, run, k, a) && IsAt(run, k, t, Leased(name, h, restart, service))
    requires OfTask(a) && a.task == t && !EndsServed(a, service) && !EndsAbandoned(a, service)
    ensures var s, s' := run[k], run[k + 1];
            || (a.KeepOnAbandon? && service == Forwarding && s' == s.At(t, Leased(name, h, false, service)))
            || (a == ForwardEnds(t, Streamed) && service == Forwarding && s' == s.At(t, Leased(name, h, restart, HandedOff)))
            || (a.CallResponse? && service == HandedOff && s' == s.At(t, Leased(name, h, restart, Streaming)))
  {
    RunStep(cfg, run, k);
    assert Owns(run[k].tasks[t]);
  }

  /** A true idle answer closes the lease with the engine kept; any other stops the engine. */
  lemma IdleAnswered(cfg: GatewayConfig, run: seq<State>, k: nat, t: Task, h: Handle, idle: bool)
    requires Takes(cfg, run, k, IdleResult(t, idle)) && IsAt(run, k, t, ClosingIdle(h))
    ensures var s, s' := run[k], run[k + 1];
            && s.holder == Some(t) && s.engine == Some(h)
            && SameEngine(s, s') && SameCounters(s, s') && s'.phase == s.phase && s'.selected == s.selected
            && (if idle then Goes(s, s', t, LeaseClosed(h, true)) && s'.holder.None?
                else Goes(s, s', t, Stopping(StopForClose(h))) && s'.holder == Some(t))
  {
    RunStep(cfg, run, k);
    assert TaskAgrees(cfg, run[k], run[k].tasks[t]) && Owns(run[k].tasks[t]);
  }

  /** The lease is being closed by stopping its engine: the lock is held and the engine owned. */
  predicate StoppingLease(s: State, t: Task, h: Handle) {
    t < |s.tasks| && s.tasks[t] == Stopping(StopForClose(h)) && s.holder == Some(t) && s.engine == Some(h)
  }

  /** In step `m` such a lease is closed: the process is gone, or the runtime has failed. */
  ghost predicate ClosedSafely(run: seq<State>, t: Task, h: Handle, m: nat) {
    && m + 1 < |run| && StoppingLease(run[m], t, h)
    && t < |run[m + 1].tasks| && run[m + 1].tasks[t] == LeaseClosed(h, false)
    && (run[m + 1].phase == Failed || (run[m + 1].phase == Stopped && run[m + 1].engine.None? && !run[m + 1].Alive(h)))
  }

  lemma OnlyAStopAnswerMoves(cfg: GatewayConfig, s: State, a: Action, t: Task)
    requires OfTask(a) && a.task == t < |s.tasks| && s.tasks[t].Stopping? && s.Locked()
    requires Step(cfg, s, a).Some? && Step(cfg, s, a).value != s
    ensures a.StopResult?
  {}

  lemma StoppingLeaseWaits(cfg: GatewayConfig, run: seq<State>, k: nat, t: Task, h: Handle)
    requires IsRun(cfg, run) && k < |run| && t < |run[k].tasks| && run[k].tasks[t] == Stopping(StopForClose(h))
    ensures StoppingLease(run[k], t, h)
  {
    RunKeepsInv(cfg, run, k);
    assert TaskAgrees(cfg, run[k], run[k].tasks[t]) && Owns(run[k].tasks[t]);
  }

  lemma StoppingLeaseAnswered(cfg: GatewayConfig, run: seq<State>, k: nat, t: Task, h: Handle, a: Action)
    requires Takes(cfg, run, k, a) && a.StopResult? && a.task == t && StoppingLease(run[k], t, h)
    ensures ClosedSafely(run, t, h, k)
  {
    StopAnswered(cfg, run, k, t, StopForClose(h), a.raised, a.killed);
  }

  lemma StoppingLeaseStep(cfg: GatewayConfig, run: seq<State>, k: nat, t: Task, h: Handle)
    requires IsRun(cfg, run) && k + 1 < |run| && StoppingLease(run[k], t, h)
    ensures StoppingLease(run[k + 1], t, h) || ClosedSafely(run, t, h, k)
  {
    var a := ActionTaken(cfg, run, k);
    if run[k + 1].tasks[t] == run[k].tasks[t] {
      StoppingLeaseWaits(cfg, run, k + 1, t, h);
    } else {
      TaskMoved(cfg, run, k, a, t);
      OnlyAStopAnswerMoves(cfg, run[k], a, t);
      StoppingLeaseAnswered(cfg, run, k, t, h, a);
    }
  }

  /** From the moment a request leaves a non-cooperative engine abandoned that must be restarted, the
      lock is held and the engine owned until a stop was answered; the lease is closed only with the
      process gone or the runtime failed. */
  lemma {:induction false} AbandonedLeaseStops(cfg: GatewayConfig, run: seq<State>, i: nat, j: nat, t: Task, a: Action,
                                               name: string, h: Handle, service: Service)
    requires Takes(cfg, run, i, a) && IsAt(run, i, t, Leased(name, h, true, service)) && i < j < |run|
    requires OfTask(a) && a.task == t && EndsAbandoned(a, service)
    requires h < |run[i].processes| && !run[i].processes[h].cooperative
    ensures StoppingLease(run[j], t, h) || exists m :: i < m < j && ClosedSafely(run, t, h, m)
  {
    if j == i + 1 {
      RequestEnds(cfg, run, i, t, a, name, h, true, service);
    } else {
      AbandonedLeaseStops(cfg, run, i, j - 1, t, a, name, h, service);
      if StoppingLease(run[j - 1], t, h) {
        StoppingLeaseStep(cfg, run, j - 1, t, h);
      }
    }
  }

  // ----- the other waits

  /** The lock goes to an acquire, a shutdown or the warmup. */
  lemma WaiterGetsLock(cfg: GatewayConfig, run: seq<State>, k: nat, t: Task)
    requires Takes(cfg, run, k, Grant(t)) && t < |run[k].tasks| && !run[k].tasks[t].SwitchQueued?
    ensures var s, s', pc := run[k], run[k + 1], run[k].tasks[t];
            && s.holder.None? && SameEngine(s, s') && SameCounters(s, s') && s'.selected == s.selected
            && match pc
               case AcquireQueued(name, m) => Goes(s, s', t, AcquireWon(name, m)) && s'.holder == Some(t)
                 && s'.phase == s.phase
               case AcquireDropped(won) => !won && Goes(s, s', t, AcquireDropped(true)) && s'.holder == Some(t)
                 && s'.phase == s.phase
               case ShutdownQueued =>
                 if s.engine.Some? then Goes(s, s', t, Stopping(StopForShutdown)) && s'.holder == Some(t)
                   && s'.phase == s.phase
                 else Goes(s, s', t, ShutdownDone(true)) && s'.holder.None? && s'.phase == Stopped
               case WarmupQueued =>
                 && s'.phase == s.phase
                 && (if !s.closing && s.phase == Ready then Goes(s, s', t, WarmingUp) && s'.holder == Some(t)
                     else Goes(s, s', t, WarmupDone) && s'.holder.None?)
               case _ => false
  {
    RunStep(cfg, run, k);
  }

  /** An interrupted start unwinds only after its process is collected; one that waits for readiness
      goes to the stop with the engine still owned. */
  lemma InterruptedStart(cfg: GatewayConfig, run: seq<State>, k: nat, t: Task)
    requires Takes(cfg, run, k, GiveUp(t)) && t < |run[k].tasks| && (run[k].tasks[t].Spawning? || run[k].tasks[t].Readying?)
    ensures var s, s', pc := run[k], run[k + 1], run[k].tasks[t];
            if pc.Spawning? then !pc.cancelled && s' == s.At(t, Spawning(pc.caller, pc.model, pc.op, true))
            else s' == s.At(t, Stopping(StopAfterFailedStart(pc.caller))) && s'.engine == Some(pc.engine)
  {
    RunStep(cfg, run, k);
    assert TaskAgrees(cfg, run[k], run[k].tasks[t]);
  }

  /** Waits that touch neither engine nor phase: giving up in a queue, and the end of the warmup. */
  lemma OtherWaitsEnd(cfg: GatewayConfig, run: seq<State>, k: nat, t: Task, a: Action)
    requires Takes(cfg, run, k, a) && t < |run[k].tasks| && (a == GiveUp(t) || a == Resume(t, false) || a == Resume(t, true))
    requires var pc := run[k].tasks[t]; pc.AcquireQueued? || pc.ShutdownQueued? || pc.WarmupQueued? || pc.WarmingUp?
    ensures var s, s', pc := run[k], run[k + 1], run[k].tasks[t];
            && s'.holder == (if pc.WarmingUp? then None else s.holder)
            && s' == s.(holder := s'.holder).At(t, if pc.AcquireQueued? then AcquireDropped(false)
                                                  else if pc.ShutdownQueued? then ShutdownDone(false) else WarmupDone)
  {}

  /** The worker thread: a spawned process is alive and for the model of its start, and one whose
      start raises is gone. */
  lemma WorkerEffect(cfg: GatewayConfig, run: seq<State>, k: nat, t: Task, a: Action, caller: Caller,
                     m: ModelEntry, op: StartOp, cancelled: bool)
    requires Takes(cfg, run, k, a) && IsAt(run, k, t, Spawning(caller, m, op, cancelled))
    requires OfTask(a) && a.task == t && (a.Launch? || a.LaunchReturns? || a.LaunchRaises?)
    ensures var s, s' := run[k], run[k + 1];
            && s'.(processes := s.processes, tasks := s.tasks) == s
            && (a.Launch? ==> op.Launching? && Goes(s, s', t, Spawning(caller, m, Launched(|s.processes|), cancelled))
                              && s'.processes == s.processes + [Engine(m, true, a.cooperative)])
            && (a.LaunchReturns? ==> op.Launched? && s' == s.At(t, Spawning(caller, m, Returned(op.handle), cancelled)))
            && (a.LaunchRaises? ==> Goes(s, s', t, Spawning(caller, m, Raised, cancelled))
                                    && (op.Launching? || (op.Launched? && !s'.Alive(op.handle))))
  {}

  // ----- what may happen

  /** The awaits a disconnect, a timeout or a cancellation can interrupt. */
  predicate Interruptible(pc: Pc) {
    match pc
    case Spawning(_, _, _, cancelled) => !cancelled
    case _ => pc.AcquireQueued? || pc.AcquireWon? || pc.AcquireChecked? || pc.AcquireStarting? || pc.AcquireStarted?
              || pc.Readying? || pc.SwitchQueued? || pc.ShutdownQueued? || pc.WarmupQueued? || pc.WarmingUp?
  }

  /** The awaits that wait for the lock. */
  predicate Waiting(pc: Pc) {
    pc.AcquireQueued? || (pc.AcquireDropped? && !pc.won) || pc.SwitchQueued? || pc.ShutdownQueued? || pc.WarmupQueued?
  }

  /** The model leaves nothing out: in every state each call may come, a free lock may go to any waiter,
      each interruptible await may be interrupted, and each process may crash. */
  lemma EnvironmentIsFree(cfg: GatewayConfig, s: State, t: Task, name: string)
    requires t < |s.tasks|
    ensures Step(cfg, s, AcquireCall(name)).Some? && Step(cfg, s, SwitchCall(name)).Some?
    ensures Step(cfg, s, ShutdownCall).Some? && Step(cfg, s, WarmupCall).Some? && Step(cfg, s, StatusPoll).Some?
    ensures Step(cfg, s, SetClosing) == Some(s.(closing := true))
    ensures Step(cfg, s, GiveUp(t)).Some? <==> Interruptible(s.tasks[t])
    ensures Step(cfg, s, Grant(t)).Some? <==> !s.Locked() && Waiting(s.tasks[t])
  {}

  lemma ProcessesMayCrash(cfg: GatewayConfig, s: State, h: Handle)
    requires h < |s.processes|
    ensures exists s' :: Step(cfg, s, Crash(h)) == Some(s') && OnlyCrashed(s, s', h)
  {
    var s' := Step(cfg, s, Crash(h)).value;
    assert OnlyCrashed(s, s', h);
  }

  /** Process `h` is gone, and nothing else happened. */
  predicate OnlyCrashed(s: State, s': State, h: Handle) {
    && s'.(processes := s.processes) == s && |s'.processes| == |s.processes|
    && forall i :: 0 <= i < |s.processes| ==>
         && s'.processes[i].model == s.processes[i].model && s'.processes[i].cooperative == s.processes[i].cooperative
         && s'.processes[i].alive == (i != h && s.processes[i].alive)
  }
}
