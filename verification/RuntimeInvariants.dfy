/** What every reachable state of the runtime satisfies. */
module RuntimeInvariants {
  import opened Wrappers
  import opened Config
  import opened RuntimeModel

  /** The await points between taking the lock and releasing it. */
  predicate Owns(pc: Pc) {
    match pc
    case AcquireDropped(won) => won
    case AcquireWon(_, _) => true
    case AcquireChecked(_, _) => true
    case AcquireStarting(_, _) => true
    case AcquireStarted(_, _) => true
    case AcquireStartFailed => true
    case Leased(_, _, _, _) => true
    case ClosingIdle(_) => true
    case Spawning(_, _, _, _) => true
    case Readying(_, _, _) => true
    case Stopping(_) => true
    case WarmingUp => true
    case _ => false
  }

  /** The await points of an acquire that has been admitted and has neither returned nor raised. */
  predicate InAcquire(pc: Pc) {
    match pc
    case AcquireQueued(_, _) => true
    case AcquireDropped(_) => true
    case AcquireWon(_, _) => true
    case AcquireChecked(_, _) => true
    case AcquireStarting(_, _) => true
    case AcquireStarted(_, _) => true
    case AcquireStartFailed => true
    case Spawning(caller, _, _, _) => caller.ForAcquire?
    case Readying(caller, _, _) => caller.ForAcquire?
    case Stopping(reason) => reason.StopAfterFailedStart? && reason.caller.ForAcquire?
    case _ => false
  }

  predicate InSwitch(pc: Pc) {
    match pc
    case SwitchQueued(_) => true
    case Spawning(caller, _, _, _) => caller.ForSwitch?
    case Readying(caller, _, _) => caller.ForSwitch?
    case Stopping(reason) => reason.StopForSwitch? || (reason.StopAfterFailedStart? && reason.caller.ForSwitch?)
    case _ => false
  }

  /** A lease is outstanding: granted and not yet fully closed. */
  predicate IsLease(pc: Pc) {
    pc.Leased? || pc.ClosingIdle? || (pc.Stopping? && pc.reason.StopForClose?)
  }

  predicate IsStarting(pc: Pc) {
    pc.Spawning? || pc.Readying? || (pc.Stopping? && pc.reason.StopAfterFailedStart?)
  }

  function Count(f: Pc -> bool, tasks: seq<Pc>): nat {
    if tasks == [] then 0 else (if f(tasks[0]) then 1 else 0) + Count(f, tasks[1..])
  }

  lemma {:induction false} CountUpdate(f: Pc -> bool, tasks: seq<Pc>, t: Task, pc: Pc)
    requires t < |tasks|
    ensures Count(f, tasks[t := pc])
            == Count(f, tasks) + (if f(pc) then 1 else 0) - (if f(tasks[t]) then 1 else 0)
  {
    if t == 0 {
      assert tasks[0 := pc][1..] == tasks[1..];
    } else {
      assert tasks[t := pc][1..] == tasks[1..][t - 1 := pc];
      CountUpdate(f, tasks[1..], t - 1, pc);
    }
  }

  lemma {:induction false} CountAppend(f: Pc -> bool, tasks: seq<Pc>, pc: Pc)
    ensures Count(f, tasks + [pc]) == Count(f, tasks) + (if f(pc) then 1 else 0)
  {
    if tasks == [] {
      assert tasks + [pc] == [pc];
    } else {
      assert (tasks + [pc])[1..] == tasks[1..] + [pc];
      CountAppend(f, tasks[1..], pc);
    }
  }

  /** The lock is held exactly while one task is at an owning await point. */
  ghost predicate LockOwned(s: State) {
    && (s.holder.Some? ==> s.holder.value < |s.tasks|)
    && forall t :: 0 <= t < |s.tasks| ==> (Owns(s.tasks[t]) <==> s.holder == Some(t))
  }

  ghost predicate CountersExact(s: State) {
    s.queueDepth == Count(InAcquire, s.tasks) && s.switching == Count(InSwitch, s.tasks)
  }

  ghost predicate PhaseAgrees(s: State) {
    && (s.engine.Some? ==> s.engine.value < |s.processes|)
    && (s.phase == Stopped ==> s.engine.None?)
    && (s.phase == Ready || s.phase == Draining ==>
          s.engine.Some? && s.selected == Some(s.processes[s.engine.value].model))
    && (s.phase == Draining ==> s.switching > 0)
    && (s.phase == Loading ==> s.holder.Some? && s.holder.value < |s.tasks| && IsStarting(s.tasks[s.holder.value]))
  }

  /** No lease was ever granted on `h`. */
  ghost predicate NeverLeased(s: State, h: Handle) {
    forall t :: 0 <= t < |s.tasks| && s.tasks[t].LeaseClosed? ==> s.tasks[t].engine != h
  }

  ghost predicate NameResolves(cfg: GatewayConfig, name: string, m: ModelEntry) {
    Lookup(cfg.models, name) == Some(m)
  }

  ghost predicate CallerAgrees(cfg: GatewayConfig, caller: Caller, m: ModelEntry) {
    caller.ForAcquire? ==> NameResolves(cfg, caller.name, m)
  }

  ghost predicate Selected(s: State, m: ModelEntry) {
    s.selected.Some? && s.selected.value.id == m.id
  }

  /** The locals of a suspended task agree with the shared state. */
  ghost predicate TaskAgrees(cfg: GatewayConfig, s: State, pc: Pc) {
    match pc
    case AcquireQueued(name, m) => NameResolves(cfg, name, m)
    case AcquireWon(name, m) => NameResolves(cfg, name, m)
    case AcquireChecked(name, m) => NameResolves(cfg, name, m) && Selected(s, m)
    case AcquireStarting(name, m) => NameResolves(cfg, name, m) && Selected(s, m) && s.phase == Stopped
    case AcquireStarted(name, m) => NameResolves(cfg, name, m) && Selected(s, m)
    case Spawning(caller, m, op, _) =>
      && CallerAgrees(cfg, caller, m) && s.selected == Some(m) && s.engine.None? && s.phase == Loading
      && (op.Launched? || op.Returned? ==>
            op.handle < |s.processes| && s.processes[op.handle].model == m && NeverLeased(s, op.handle))
    case Readying(caller, m, h) =>
      && CallerAgrees(cfg, caller, m) && s.selected == Some(m) && s.engine == Some(h) && s.phase == Loading
      && h < |s.processes| && s.processes[h].model == m && NeverLeased(s, h)
    case Stopping(reason) =>
      && s.engine.Some?
      && (reason.StopForClose? ==> s.engine.value == reason.engine)
      && (reason.StopForShutdown? ==> s.closing)
      && (reason.StopAfterFailedStart? ==> s.phase == Loading && NeverLeased(s, s.engine.value))
    case Leased(name, h, _, _) =>
      && s.engine == Some(h) && h < |s.processes|
      && Lookup(cfg.models, name).Some? && s.processes[h].model.id == Lookup(cfg.models, name).value.id
    case ClosingIdle(h) => s.engine == Some(h)
    case ShutdownQueued => s.closing
    case LeaseClosed(h, acknowledged) =>
      && h < |s.processes|
      && (s.processes[h].cooperative && !acknowledged && s.engine == Some(h) ==> s.phase == Failed)
    case _ => true
  }

  ghost predicate TasksAgree(cfg: GatewayConfig, s: State) {
    forall t :: 0 <= t < |s.tasks| ==> TaskAgrees(cfg, s, s.tasks[t])
  }

  /** The in-flight start of the lock holder spawned `h` and nobody collected it yet. */
  ghost predicate InFlight(s: State, h: Handle) {
    && s.holder.Some? && s.holder.value < |s.tasks|
    && var pc := s.tasks[s.holder.value];
    pc.Spawning? && (pc.op.Launched? || pc.op.Returned?) && pc.op.handle == h
  }

  ghost predicate SingleResident(s: State) {
    forall h :: 0 <= h < |s.processes| && s.processes[h].alive ==> s.engine == Some(h) || InFlight(s, h)
  }

  ghost predicate ShutdownFinal(s: State) {
    (exists t :: 0 <= t < |s.tasks| && s.tasks[t] == ShutdownDone(true))
    ==> && s.closing && s.engine.None?
        && (s.holder.Some? ==> s.holder.value < |s.tasks|
                               && (s.tasks[s.holder.value].AcquireDropped? || s.tasks[s.holder.value].AcquireWon?))
  }

  ghost predicate AdmissionBounded(cfg: GatewayConfig, s: State) {
    && s.queueDepth <= cfg.maxQueueSize + 1
    && (s.holder.Some? && s.holder.value < |s.tasks| && IsLease(s.tasks[s.holder.value])
        ==> s.queueDepth <= cfg.maxQueueSize)
  }

  ghost predicate Inv(cfg: GatewayConfig, s: State) {
    && LockOwned(s)
    && CountersExact(s)
    && PhaseAgrees(s)
    && TasksAgree(cfg, s)
    && SingleResident(s)
    && ShutdownFinal(s)
    && AdmissionBounded(cfg, s)
  }

  lemma InitialInv(cfg: GatewayConfig, selected: Option<ModelEntry>)
    ensures Inv(cfg, Initial(selected))
  {}
}
