/** The lock always comes free again: its holder can always move on, and moves boundedly often. */
module RuntimeProgress {
  import opened Wrappers
  import opened Config
  import opened RuntimeModel
  import opened RuntimeInvariants
  import opened RuntimeProofs
  import opened RuntimeTheorems

  /** How many steps a task at an owning await point can still take before it lets go of the lock. */
  function StepsLeft(pc: Pc): nat {
    match pc
    case AcquireWon(_, _) => 22
    case AcquireChecked(_, _) => 21
    case AcquireStarting(_, _) => 20
    case Spawning(_, _, op, cancelled) =>
      (match op case Launching => 18 case Launched(_) => 16 case Returned(_) => 14 case Raised => 4)
      + (if cancelled then 0 else 1)
    case Readying(_, _, _) => 9
    case AcquireStarted(_, _) => 8
    case Leased(_, _, restart, service) =>
      (match service case Forwarding => 6 case HandedOff => 5 case Streaming => 3) + (if restart then 1 else 0)
    case ClosingIdle(_) => 2
    case Stopping(reason) => if reason.StopForSwitch? then 20 else if reason.StopAfterFailedStart? then 2 else 1
    case AcquireDropped(_) => 1
    case AcquireStartFailed => 1
    case WarmingUp => 1
    case _ => 0
  }

  /** A task that cannot come to a lease while a switch is pending: it never asked for one, will be
      refused at the end, was cancelled, or waits for a process that is gone. */
  predicate KeptOut(s: State, pc: Pc) {
    match pc
    case AcquireChecked(_, _) => s.phase !in {Ready, Stopped}
    case AcquireStarted(_, _) => s.phase != Ready
    case AcquireStarting(_, _) => false
    case Spawning(caller, _, op, cancelled) =>
      caller.ForSwitch? || cancelled || op.Raised? || (!op.Launching? && !s.Alive(op.handle))
    case Readying(caller, _, _) => caller.ForSwitch? || !s.EngineAlive()
    case _ => true
  }

  /** A step of task `t` brings it closer to its release of the lock, and while a switch is pending
      not onto the way to a lease. */
  ghost predicate Progresses(s: State, s': State, t: Task)
    requires t < |s.tasks|
  {
    t < |s'.tasks|
    && var pc, pc' := s.tasks[t], s'.tasks[t];
    && (Owns(pc) && Owns(pc') && pc' != pc ==> StepsLeft(pc') < StepsLeft(pc))
    && (s.switching > 0 && KeptOut(s, pc) ==> KeptOut(s', pc') && (pc'.Leased? ==> pc.Leased?))
  }

  lemma GrantProgresses(cfg: GatewayConfig, s: State, t: Task)
    requires t < |s.tasks| && s.holder.None? && TakeLock(s.(holder := Some(t)), t, s.tasks[t]).Some?
    ensures Progresses(s, TakeLock(s.(holder := Some(t)), t, s.tasks[t]).value, t)
  {}

  lemma AbandonProgresses(s: State, t: Task)
    requires t < |s.tasks| && Abandon(s, t, s.tasks[t]).Some?
    ensures Progresses(s, Abandon(s, t, s.tasks[t]).value, t)
  {}

  lemma ResumeProgresses(cfg: GatewayConfig, s: State, t: Task, disconnected: bool)
    requires t < |s.tasks| && ResumeTask(cfg, s, t, s.tasks[t], disconnected).Some?
    ensures Progresses(s, ResumeTask(cfg, s, t, s.tasks[t], disconnected).value, t)
  {}

  lemma ServiceProgresses(s: State, a: Action, t: Task)
    requires t < |s.tasks| && ServeRequest(s, t, s.tasks[t], a).Some?
    ensures Progresses(s, ServeRequest(s, t, s.tasks[t], a).value, t)
  {}

  /** `after` is the state once the process was ended, or not. */
  lemma StopSucceedsProgresses(s: State, t: Task, after: State)
    requires t < |s.tasks| && s.tasks[t].Stopping? && after.tasks == s.tasks && after.switching == s.switching
    ensures Progresses(s, AfterStop(after, t, s.tasks[t].reason), t)
  {}

  lemma StopFailsProgresses(s: State, t: Task, after: State)
    requires t < |s.tasks| && s.tasks[t].Stopping? && after.tasks == s.tasks && after.switching == s.switching
    ensures Progresses(s, AfterFailedStop(after, t, s.tasks[t].reason), t)
  {}

  lemma StopProgresses(cfg: GatewayConfig, s: State, a: Action, t: Task)
    requires t < |s.tasks| && a.StopResult? && TaskStep(cfg, s, a, t, s.tasks[t]).Some?
    ensures Progresses(s, TaskStep(cfg, s, a, t, s.tasks[t]).value, t)
  {
    var after := if a.killed then s.Kill(s.engine.value) else s;
    if a.raised || after.EngineAlive() {
      StopFailsProgresses(s, t, after.(phase := Failed));
    } else {
      StopSucceedsProgresses(s, t, after.(engine := None, phase := Stopped));
    }
  }

  lemma LaunchProgresses(cfg: GatewayConfig, s: State, a: Action, t: Task)
    requires t < |s.tasks| && (a.Launch? || a.LaunchReturns? || a.LaunchRaises?)
    requires TaskStep(cfg, s, a, t, s.tasks[t]).Some?
    ensures Progresses(s, TaskStep(cfg, s, a, t, s.tasks[t]).value, t)
  {}

  lemma StartProgresses(cfg: GatewayConfig, s: State, a: Action, t: Task)
    requires t < |s.tasks| && (a.CollectStart? || a.ReadyResult?)
    requires TaskStep(cfg, s, a, t, s.tasks[t]).Some?
    ensures Progresses(s, TaskStep(cfg, s, a, t, s.tasks[t]).value, t)
  {}

  /** Whatever the environment answers. */
  lemma TaskStepProgresses(cfg: GatewayConfig, s: State, a: Action, t: Task)
    requires OfTask(a) && t < |s.tasks| && TaskStep(cfg, s, a, t, s.tasks[t]).Some?
    ensures Progresses(s, TaskStep(cfg, s, a, t, s.tasks[t]).value, t)
  {
    if a.Grant? {
      GrantProgresses(cfg, s, t);
    } else if a.GiveUp? {
      AbandonProgresses(s, t);
    } else if a.Resume? {
      ResumeProgresses(cfg, s, t, a.disconnected);
    } else if IsService(a) {
      ServiceProgresses(s, a, t);
    } else if a.StopResult? {
      StopProgresses(cfg, s, a, t);
    } else if a.CollectStart? || a.ReadyResult? {
      StartProgresses(cfg, s, a, t);
    } else if !a.CloseAgain? && !a.IdleResult? {
      LaunchProgresses(cfg, s, a, t);
    }
  }

  // ----- the holder of the lock releases it

  /** How often the await point of `t` changes between two moments of a run. */
  function Moves(run: seq<State>, t: Task, i: nat, j: nat): nat
    requires i <= j < |run|
  {
    if i == j then 0 else Moves(run, t, i, j - 1) + (if MovesAt(run, t, j - 1) then 1 else 0)
  }

  predicate MovesAt(run: seq<State>, t: Task, k: nat)
    requires k + 1 < |run|
  {
    t < |run[k].tasks| && t < |run[k + 1].tasks| && run[k].tasks[t] != run[k + 1].tasks[t]
  }

  lemma HolderOwns(cfg: GatewayConfig, run: seq<State>, t: Task, k: nat)
    requires IsRun(cfg, run) && k < |run| && run[k].holder == Some(t)
    ensures t < |run[k].tasks| && Owns(run[k].tasks[t]) && StepsLeft(run[k].tasks[t]) <= 22
  {
    RunKeepsInv(cfg, run, k);
  }

  lemma HolderProgresses(cfg: GatewayConfig, s: State, s': State, t: Task)
    requires Inv(cfg, s) && Next(cfg, s, s') && s.holder == Some(t) == s'.holder && t < |s.tasks| <= |s'.tasks|
    requires Owns(s.tasks[t]) && Owns(s'.tasks[t]) && s'.tasks[t] != s.tasks[t]
    ensures StepsLeft(s'.tasks[t]) < StepsLeft(s.tasks[t])
  {
    var a :| Step(cfg, s, a) == Some(s');
    OnlyItsOwnSteps(cfg, s, a, t);
    TaskStepProgresses(cfg, s, a, t);
  }

  /** While a task holds the lock it moves at most 22 times, whatever everyone else does. */
  lemma {:induction false} HolderMovesBoundedly(cfg: GatewayConfig, run: seq<State>, t: Task, i: nat, j: nat)
    requires IsRun(cfg, run) && i <= j < |run| && forall k :: i <= k <= j ==> run[k].holder == Some(t)
    ensures t < |run[i].tasks| && t < |run[j].tasks|
    ensures Moves(run, t, i, j) + StepsLeft(run[j].tasks[t]) <= StepsLeft(run[i].tasks[t]) <= 22
  {
    HolderOwns(cfg, run, t, j);
    if i < j {
      HolderMovesBoundedly(cfg, run, t, i, j - 1);
      HolderOwns(cfg, run, t, j - 1);
      RunStep(cfg, run, j - 1);
      if MovesAt(run, t, j - 1) {
        HolderProgresses(cfg, run[j - 1], run[j], t);
      }
    }
  }

  /** The completion of the await `pc` is suspended on. */
  function Completion(t: Task, pc: Pc): Action {
    match pc
    case Leased(_, _, _, service) =>
      (match service case Forwarding => ForwardEnds(t, Whole) case HandedOff => CallResponse(t)
                     case Streaming => StreamEnds(t, true))
    case ClosingIdle(_) => IdleResult(t, true)
    case Spawning(_, _, op, _) =>
      (match op case Launching => Launch(t, false) case Launched(_) => LaunchReturns(t) case _ => CollectStart(t))
    case Readying(_, _, _) => ReadyResult(t, false)
    case Stopping(_) => StopResult(t, true, false)
    case _ => Resume(t, false)
  }

  /** In every reachable state with the lock held, the await of the holder can complete, and it moves on. */
  lemma HolderIsNeverStuck(cfg: GatewayConfig, run: seq<State>, k: nat, t: Task)
    requires IsRun(cfg, run) && k < |run| && run[k].holder == Some(t)
    ensures t < |run[k].tasks|
    ensures var after := Step(cfg, run[k], Completion(t, run[k].tasks[t]));
            after.Some? && t < |after.value.tasks| && after.value.tasks[t] != run[k].tasks[t]
  {
    RunKeepsInv(cfg, run, k);
    HolderOwns(cfg, run, t, k);
    var s := run[k];
    assert TaskAgrees(cfg, s, s.tasks[t]);
    if s.tasks[t].Stopping? {
      StopCompletes(cfg, s, t);
    } else if IsStarting(s.tasks[t]) {
      StartCompletes(cfg, s, t);
    } else {
      AwaitCompletes(cfg, s, t);
    }
  }

  lemma StopCompletes(cfg: GatewayConfig, s: State, t: Task)
    requires PhaseAgrees(s) && t < |s.tasks| && TaskAgrees(cfg, s, s.tasks[t]) && s.tasks[t].Stopping?
    ensures var after := Step(cfg, s, StopResult(t, true, false));
            after.Some? && t < |after.value.tasks| && after.value.tasks[t] != s.tasks[t]
  {}

  lemma StartCompletes(cfg: GatewayConfig, s: State, t: Task)
    requires t < |s.tasks| && (s.tasks[t].Spawning? || s.tasks[t].Readying?)
    ensures var after := Step(cfg, s, Completion(t, s.tasks[t]));
            after.Some? && t < |after.value.tasks| && after.value.tasks[t] != s.tasks[t]
  {}

  lemma AwaitCompletes(cfg: GatewayConfig, s: State, t: Task)
    requires t < |s.tasks| && Owns(s.tasks[t]) && !IsStarting(s.tasks[t]) && !s.tasks[t].Stopping?
    ensures var after := Step(cfg, s, Completion(t, s.tasks[t]));
            after.Some? && t < |after.value.tasks| && after.value.tasks[t] != s.tasks[t]
  {}
}
