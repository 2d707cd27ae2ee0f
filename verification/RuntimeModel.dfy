/** The single-resident runtime as a state machine.

    The gateway is one event loop, so the code between two awaits is one atomic step.  A task
    is one coroutine; its `Pc` names the await it is suspended on together with the locals that
    are still live.  Everything the environment decides (a disconnect, a timeout, a cancellation,
    what a native start, stop or status call answers, a crash) is part of the `Action`. */
module RuntimeModel {
  import opened Wrappers
  import opened Config

  type Task = nat
  type Handle = nat

  datatype Phase = Stopped | Loading | Ready | Draining | Failed

  /** An engine process: what it serves, whether it still runs, whether it acknowledges idleness. */
  datatype Engine = Engine(model: ModelEntry, alive: bool, cooperative: bool)

  /** On whose behalf `_start` runs. */
  datatype Caller = ForAcquire(name: string) | ForSwitch

  /** The worker-thread start: nothing spawned yet, a process spawned, its future resolved. */
  datatype StartOp = Launching | Launched(handle: Handle) | Returned(handle: Handle) | Raised

  /** On whose behalf `_stop` runs. */
  datatype StopReason =
    | StopForSwitch(model: ModelEntry)
    | StopForClose(engine: Handle)
    | StopForShutdown
    | StopAfterFailedStart(caller: Caller)

  /** Where a request with a lease is: `_proxy` awaits the engine's answer; it returned a streamed
      response that was not called yet; the response is being streamed. */
  datatype Service = Forwarding | HandedOff | Streaming

  /** How `_forward` ends: with a streamed response, with a complete one, or by raising. */
  datatype ForwardEnd = Streamed | Whole | Failing

  datatype Pc =
    // acquire
    | AcquireQueued(name: string, model: ModelEntry)            // waiting for the lock
    | AcquireDropped(won: bool)                                 // gave up; the lock task is being cancelled
    | AcquireWon(name: string, model: ModelEntry)               // the lock task finished
    | AcquireChecked(name: string, model: ModelEntry)           // asking whether the client is still there
    | AcquireStarting(name: string, model: ModelEntry)          // `_start` is scheduled
    | AcquireStarted(name: string, model: ModelEntry)           // `_start` returned
    | AcquireStartFailed                                        // `_start` raised
    | AcquireRejected
    // the lease an acquire handed out
    | Leased(name: string, engine: Handle, restartOnAbandon: bool, service: Service)
    | ClosingIdle(engine: Handle)                               // awaiting wait_idle
    | LeaseClosed(engine: Handle, acknowledged: bool)
    // _start and _stop, shared by their callers
    | Spawning(caller: Caller, model: ModelEntry, op: StartOp, cancelled: bool)
    | Readying(caller: Caller, model: ModelEntry, engine: Handle)
    | Stopping(reason: StopReason)
    // switch, shutdown and the startup warmup
    | SwitchQueued(model: ModelEntry)
    | SwitchDone
    | ShutdownQueued
    | ShutdownDone(normally: bool)
    | WarmupQueued
    | WarmingUp
    | WarmupDone

  /** The fields of `Runtime`, the processes that exist, and the coroutines.  `holder` is the task
      that took the lock last; the lock itself only knows whether it is held. */
  datatype State = State(
    engine: Option<Handle>,
    phase: Phase,
    selected: Option<ModelEntry>,
    holder: Option<Task>,
    queueDepth: int,
    closing: bool,
    switching: int,
    generation: nat,
    processes: seq<Engine>,
    tasks: seq<Pc>)
  {
    predicate Locked() { holder.Some? }

    function At(t: Task, pc: Pc): State
      requires t < |tasks|
    {
      this.(tasks := tasks[t := pc])
    }

    function Spawn(pc: Pc): State { this.(tasks := tasks + [pc]) }

    predicate Alive(h: Handle) { h < |processes| && processes[h].alive }

    function Kill(h: Handle): State
      requires h < |processes|
    {
      this.(processes := processes[h := processes[h].(alive := false)])
    }

    predicate EngineAlive() { engine.Some? && Alive(engine.value) }
  }

  function Initial(selected: Option<ModelEntry>): State {
    State(None, Stopped, selected, None, 0, false, 0, 0, [], [])
  }

  datatype Action =
    | AcquireCall(name: string)
    | SwitchCall(name: string)
    | ShutdownCall
    | WarmupCall
    | SetClosing
    | StatusPoll
    | Crash(engine: Handle)
    | Grant(task: Task)                                  // the lock goes to a waiting task
    | GiveUp(task: Task)                                 // disconnect, queue timeout or cancellation
    | Resume(task: Task, disconnected: bool)
    | Launch(task: Task, cooperative: bool)              // the worker thread spawns the process
    | LaunchReturns(task: Task)
    | LaunchRaises(task: Task)
    | CollectStart(task: Task)                           // `await start` resumes
    | ReadyResult(task: Task, ok: bool)
    | StopResult(task: Task, raised: bool, killed: bool)
    | KeepOnAbandon(task: Task)
    | ForwardEnds(task: Task, end: ForwardEnd)
    | CallResponse(task: Task)
    | StreamEnds(task: Task, finished: bool)
    | CloseAgain(task: Task)                             // a further `close` on a lease
    | IdleResult(task: Task, idle: bool)

  // ----- status, _check_selection, _stop, _start

  /** The side effect of `status()`: a ready runtime whose process is gone becomes failed. */
  function Status(s: State): State {
    if s.phase == Ready && !s.EngineAlive() then s.(phase := Failed) else s
  }

  predicate SelectionAllows(cfg: GatewayConfig, s: State, name: string) {
    var m := Lookup(cfg.models, name);
    m.Some? && s.selected.Some? && m.value.id == s.selected.value.id && !s.closing && s.switching == 0
  }

  /** `_stop` up to its await; without an engine it runs straight through. */
  function BeginStop(s: State, t: Task, reason: StopReason): State
    requires t < |s.tasks|
  {
    if s.engine.Some? then s.At(t, Stopping(reason)) else AfterStop(s.(phase := Stopped), t, reason)
  }

  /** What the caller of `_stop` does once it returned. */
  function AfterStop(s: State, t: Task, reason: StopReason): State
    requires t < |s.tasks|
  {
    match reason
    case StopForSwitch(m) => BeginStart(s, t, ForSwitch, m)
    case StopForClose(h) => s.(holder := None).At(t, LeaseClosed(h, false))
    case StopForShutdown => s.(holder := None).At(t, ShutdownDone(true))
    case StopAfterFailedStart(caller) => StartRaises(s.(phase := Failed), t, caller)
  }

  /** What the caller of `_stop` does when it raised; `_stop` has already set the phase. */
  function AfterFailedStop(s: State, t: Task, reason: StopReason): State
    requires t < |s.tasks|
  {
    match reason
    case StopForSwitch(_) => LeaveSwitch(s, t, true)
    case StopForClose(h) => s.(holder := None).At(t, LeaseClosed(h, false))
    case StopForShutdown => s.(holder := None).At(t, ShutdownDone(false))
    case StopAfterFailedStart(caller) => StartRaises(s, t, caller)
  }

  /** `_start` up to its first await. */
  function BeginStart(s: State, t: Task, caller: Caller, m: ModelEntry): State
    requires t < |s.tasks|
  {
    s.(selected := Some(m), phase := Loading).At(t, Spawning(caller, m, Launching, false))
  }

  function StartRaises(s: State, t: Task, caller: Caller): State
    requires t < |s.tasks|
  {
    match caller
    case ForAcquire(_) => s.At(t, AcquireStartFailed)
    case ForSwitch => LeaveSwitch(s, t, true)
  }

  function StartReturns(s: State, t: Task, caller: Caller, m: ModelEntry): State
    requires t < |s.tasks|
  {
    var ready := s.(phase := Ready, generation := s.generation + 1);
    match caller
    case ForAcquire(name) => ready.At(t, AcquireStarted(name, m))
    case ForSwitch => LeaveSwitch(Status(ready), t, true)
  }

  // ----- acquire

  function AdmitAcquire(cfg: GatewayConfig, s: State, name: string): State {
    if !SelectionAllows(cfg, s, name) || s.queueDepth >= cfg.maxQueueSize + (if s.Locked() then 0 else 1)
    then s.Spawn(AcquireRejected)
    else s.(queueDepth := s.queueDepth + 1).Spawn(AcquireQueued(name, Lookup(cfg.models, name).value))
  }

  /** The `finally` block of an acquire that raised. */
  function LeaveAcquire(s: State, t: Task, acquired: bool): State
    requires t < |s.tasks|
  {
    s.(queueDepth := s.queueDepth - 1, holder := if acquired then None else s.holder).At(t, AcquireRejected)
  }

  /** The tail of acquire: hand out a lease, keeping the lock, if the engine is ready. */
  function Deliver(s: State, t: Task, name: string): State
    requires t < |s.tasks|
  {
    var polled := Status(s);
    if polled.phase != Ready || polled.engine.None? then LeaveAcquire(polled, t, true)
    else polled.(queueDepth := polled.queueDepth - 1).At(t, Leased(name, polled.engine.value, true, Forwarding))
  }

  // ----- switch

  function RequestSwitch(cfg: GatewayConfig, s: State, name: string): State {
    var m := Lookup(cfg.models, name);
    if m.None? || s.closing then s.Spawn(SwitchDone)
    else s.(switching := s.switching + 1,
            phase := if s.Locked() && s.phase == Ready then Draining else s.phase).Spawn(SwitchQueued(m.value))
  }

  function EnterSwitch(s: State, t: Task, m: ModelEntry): State
    requires t < |s.tasks|
  {
    if s.closing then LeaveSwitch(s, t, true)
    else if (s.phase == Ready || s.phase == Draining) && s.EngineAlive() && s.processes[s.engine.value].model.id == m.id
    then LeaveSwitch(Status(s.(phase := Ready)), t, true)
    else BeginStop(s, t, StopForSwitch(m))
  }

  /** Leaving the lock block of `switch`, then its `finally` block. */
  function LeaveSwitch(s: State, t: Task, acquired: bool): State
    requires t < |s.tasks|
  {
    var left := s.switching - 1;
    s.(holder := if acquired then None else s.holder,
       switching := left,
       phase := if left == 0 && s.phase == Draining && s.engine.Some?
                then (if s.EngineAlive() then Ready else Failed) else s.phase)
     .At(t, SwitchDone)
  }

  // ----- one step

  /** The step `a` takes from `s`, or None when `a` is not possible there. */
  function Step(cfg: GatewayConfig, s: State, a: Action): Option<State> {
    match a
    case AcquireCall(name) => Some(AdmitAcquire(cfg, s, name))
    case SwitchCall(name) => Some(RequestSwitch(cfg, s, name))
    case ShutdownCall => Some(s.(closing := true).Spawn(ShutdownQueued))
    case WarmupCall => Some(s.Spawn(WarmupQueued))
    case SetClosing => Some(s.(closing := true))
    case StatusPoll => Some(Status(s))
    case Crash(h) => if h < |s.processes| then Some(s.Kill(h)) else None
    case _ => if a.task < |s.tasks| then TaskStep(cfg, s, a, a.task, s.tasks[a.task]) else None
  }

  predicate OfTask(a: Action) {
    !a.AcquireCall? && !a.SwitchCall? && !a.ShutdownCall? && !a.WarmupCall? && !a.SetClosing? && !a.StatusPoll? && !a.Crash?
  }

  function TaskStep(cfg: GatewayConfig, s: State, a: Action, t: Task, pc: Pc): Option<State>
    requires OfTask(a) && t < |s.tasks|
  {
    match a
    case Grant(_) => if s.Locked() then None else TakeLock(s.(holder := Some(t)), t, pc)
    case GiveUp(_) => Abandon(s, t, pc)
    case Resume(_, disconnected) => ResumeTask(cfg, s, t, pc, disconnected)
    case Launch(_, cooperative) =>
      if pc.Spawning? && pc.op.Launching?
      then Some(s.(processes := s.processes + [Engine(pc.model, true, cooperative)])
                 .At(t, pc.(op := Launched(|s.processes|))))
      else None
    case LaunchReturns(_) =>
      if pc.Spawning? && pc.op.Launched? then Some(s.At(t, pc.(op := Returned(pc.op.handle)))) else None
    case LaunchRaises(_) =>
      if pc.Spawning? && pc.op.Launching? then Some(s.At(t, pc.(op := Raised)))
      else if pc.Spawning? && pc.op.Launched? && pc.op.handle < |s.processes|
      then Some(s.Kill(pc.op.handle).At(t, pc.(op := Raised)))
      else None
    case CollectStart(_) =>
      if pc.Spawning? && pc.op.Returned? then
        var owned := s.(engine := Some(pc.op.handle));
        Some(if pc.cancelled then BeginStop(owned, t, StopAfterFailedStart(pc.caller))
             else owned.At(t, Readying(pc.caller, pc.model, pc.op.handle)))
      else if pc.Spawning? && pc.op.Raised? then Some(BeginStop(s, t, StopAfterFailedStart(pc.caller)))
      else None
    case ReadyResult(_, ok) =>
      if pc.Readying?
      then Some(if ok && s.EngineAlive() then StartReturns(s, t, pc.caller, pc.model)
                else BeginStop(s, t, StopAfterFailedStart(pc.caller)))
      else None
    case StopResult(_, raised, killed) =>
      if pc.Stopping? && s.engine.Some? && s.engine.value < |s.processes| then
        var after := if killed then s.Kill(s.engine.value) else s;
        Some(if raised || after.EngineAlive() then AfterFailedStop(after.(phase := Failed), t, pc.reason)
             else AfterStop(after.(engine := None, phase := Stopped), t, pc.reason))
      else None
    case KeepOnAbandon(_) => ServeRequest(s, t, pc, a)
    case ForwardEnds(_, _) => ServeRequest(s, t, pc, a)
    case CallResponse(_) => ServeRequest(s, t, pc, a)
    case StreamEnds(_, _) => ServeRequest(s, t, pc, a)
    case CloseAgain(_) =>
      if pc.ClosingIdle? || pc.LeaseClosed? || (pc.Stopping? && pc.reason.StopForClose?) then Some(s) else None
    case IdleResult(_, idle) =>
      if pc.ClosingIdle?
      then Some(if idle then s.(holder := None).At(t, LeaseClosed(pc.engine, true))
                else BeginStop(s, t, StopForClose(pc.engine)))
      else None
  }

  /** A task that just took the lock runs to its next await. */
  function TakeLock(s: State, t: Task, pc: Pc): Option<State>
    requires t < |s.tasks|
  {
    match pc
    case AcquireQueued(name, m) => Some(s.At(t, AcquireWon(name, m)))
    case AcquireDropped(won) => if won then None else Some(s.At(t, AcquireDropped(true)))
    case SwitchQueued(m) => Some(EnterSwitch(s, t, m))
    case ShutdownQueued => Some(BeginStop(s, t, StopForShutdown))
    case WarmupQueued => Some(if !s.closing && s.phase == Ready then s.At(t, WarmingUp)
                              else s.(holder := None).At(t, WarmupDone))
    case _ => None
  }

  /** A disconnect, timeout or cancellation reaches the task. */
  function Abandon(s: State, t: Task, pc: Pc): Option<State>
    requires t < |s.tasks|
  {
    match pc
    case AcquireQueued(_, _) => Some(s.At(t, AcquireDropped(false)))
    case AcquireWon(_, _) => Some(LeaveAcquire(s, t, true))
    case AcquireChecked(_, _) => Some(LeaveAcquire(s, t, true))
    case AcquireStarting(_, _) => Some(LeaveAcquire(s, t, true))
    case AcquireStarted(_, _) => Some(LeaveAcquire(s, t, true))
    case Spawning(_, _, _, cancelled) => if cancelled then None else Some(s.At(t, pc.(cancelled := true)))
    case Readying(caller, _, _) => Some(BeginStop(s, t, StopAfterFailedStart(caller)))
    case SwitchQueued(_) => Some(LeaveSwitch(s, t, false))
    case ShutdownQueued => Some(s.At(t, ShutdownDone(false)))
    case WarmupQueued => Some(s.At(t, WarmupDone))
    case WarmingUp => Some(s.(holder := None).At(t, WarmupDone))
    case _ => None
  }

  /** The await the task is suspended on completes. */
  function ResumeTask(cfg: GatewayConfig, s: State, t: Task, pc: Pc, disconnected: bool): Option<State>
    requires t < |s.tasks|
  {
    match pc
    case AcquireDropped(won) => Some(LeaveAcquire(s, t, won))
    case AcquireWon(name, m) => Some(if SelectionAllows(cfg, s, name) then s.At(t, AcquireChecked(name, m))
                                     else LeaveAcquire(s, t, true))
    case AcquireChecked(name, m) => Some(if disconnected then LeaveAcquire(s, t, true)
                                         else if s.phase == Stopped then s.At(t, AcquireStarting(name, m))
                                         else Deliver(s, t, name))
    case AcquireStarting(name, m) => Some(BeginStart(s, t, ForAcquire(name), m))
    case AcquireStarted(name, _) => Some(Deliver(s, t, name))
    case AcquireStartFailed => Some(LeaveAcquire(s, t, true))
    case WarmingUp => Some(s.(holder := None).At(t, WarmupDone))
    case _ => None
  }

  /** `_proxy` and the streamed response: the request keeps its lease until either closes it. */
  function ServeRequest(s: State, t: Task, pc: Pc, a: Action): Option<State>
    requires t < |s.tasks|
  {
    if !pc.Leased? then None
    else if a.KeepOnAbandon? && pc.service.Forwarding? then Some(s.At(t, pc.(restartOnAbandon := false)))
    else if a.ForwardEnds? && pc.service.Forwarding? then
      Some(if a.end.Streamed? then s.At(t, pc.(service := HandedOff)) else CloseLease(s, t, pc, a.end.Failing?))
    else if a.CallResponse? && pc.service.HandedOff? then Some(s.At(t, pc.(service := Streaming)))
    else if a.StreamEnds? && pc.service.Streaming? then Some(CloseLease(s, t, pc, !a.finished))
    else None
  }

  /** The first `Lease.close`, up to its await. */
  function CloseLease(s: State, t: Task, pc: Pc, abandoned: bool): State
    requires t < |s.tasks| && pc.Leased?
  {
    if pc.engine < |s.processes| && s.processes[pc.engine].cooperative then s.At(t, ClosingIdle(pc.engine))
    else if abandoned && pc.restartOnAbandon then BeginStop(s, t, StopForClose(pc.engine))
    else s.(holder := None).At(t, LeaseClosed(pc.engine, false))
  }

  // ----- runs

  ghost predicate Next(cfg: GatewayConfig, s: State, s': State) {
    exists a :: Step(cfg, s, a) == Some(s')
  }

  ghost predicate StepAt(cfg: GatewayConfig, run: seq<State>, i: nat)
    requires i + 1 < |run|
  {
    Next(cfg, run[i], run[i + 1])
  }

  /** A run: it starts at rest, and consecutive states are one step apart. */
  ghost predicate IsRun(cfg: GatewayConfig, run: seq<State>) {
    && |run| > 0
    && (exists selected :: run[0] == Initial(selected))
    && forall i: nat :: i + 1 < |run| ==> StepAt(cfg, run, i)
  }
}
