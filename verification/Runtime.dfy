/** The runtime object.  Every method is one atomic piece of the source's coroutines, written over
    the object's fields; each is proved to take exactly the step the state machine prescribes and
    to keep its invariant. */
module Runtime {
  import opened Wrappers
  import opened Config
  import Model = RuntimeModel
  import Invariants = RuntimeInvariants
  import Proofs = RuntimeProofs

  type Task = Model.Task
  type Handle = Model.Handle

  class Runtime {
    const config: GatewayConfig
    var engine: Option<Handle>
    var phase: Model.Phase
    var selected: Option<ModelEntry>
    var holder: Option<Task>
    var queueDepth: int
    var closing: bool
    var switching: int
    var generation: nat
    // the environment: processes that were started, and suspended coroutines
    var processes: seq<Model.Engine>
    var tasks: seq<Model.Pc>

    ghost function View(): Model.State
      reads this
    {
      Model.State(engine, phase, selected, holder, queueDepth, closing, switching, generation, processes, tasks)
    }

    ghost predicate Valid()
      reads this
    {
      Invariants.Inv(config, View())
    }

    ghost predicate Enabled(a: Model.Action)
      reads this
    {
      Model.Step(config, View(), a).Some?
    }

    constructor (config: GatewayConfig, selected: Option<ModelEntry>)
      ensures this.config == config && View() == Model.Initial(selected) && Valid()
    {
      this.config := config;
      this.selected := selected;
      engine, phase, holder := None, Model.Stopped, None;
      queueDepth, closing, switching, generation := 0, false, 0, 0;
      processes, tasks := [], [];
      new;
      Invariants.InitialInv(config, selected);
    }

    // ----- building blocks

    method EngineIsRunning() returns (running: bool)
      ensures running == View().EngineAlive()
    {
      running := engine.Some? && engine.value < |processes| && processes[engine.value].alive;
    }

    /** The field write of `status()`. */
    method RefreshStatus()
      modifies this`phase
      ensures View() == Model.Status(old(View()))
    {
      var running := EngineIsRunning();
      if phase == Model.Ready && !running {
        phase := Model.Failed;
      }
    }

    method CheckSelection(name: string) returns (allowed: bool)
      ensures allowed == Model.SelectionAllows(config, View(), name)
    {
      var model := LookupEntry(config.models, name);
      if model.None? || selected.None? || model.value.id != selected.value.id {
        return false;
      }
      allowed := !closing && switching == 0;
    }

    method ReleaseLock()
      modifies this`holder
      ensures View() == old(View()).(holder := None)
    {
      holder := None;
    }

    method Suspend(t: Task, pc: Model.Pc)
      requires t < |tasks|
      modifies this`tasks
      ensures View() == old(View()).At(t, pc)
    {
      tasks := tasks[t := pc];
    }

    /** `_stop`, up to its await: an owned engine stays owned, and the lock held, until the stop is answered. */
    method Stop(t: Task, reason: Model.StopReason)
      requires t < |tasks|
      modifies this
      ensures View() == Model.BeginStop(old(View()), t, reason)
      ensures old(engine).Some? ==> engine == old(engine) && phase == old(phase) && holder == old(holder)
    {
      if engine.Some? {
        Suspend(t, Model.Stopping(reason));
      } else {
        phase := Model.Stopped;
        AfterStop(t, reason);
      }
    }

    method AfterStop(t: Task, reason: Model.StopReason)
      requires t < |tasks|
      modifies this
      ensures View() == Model.AfterStop(old(View()), t, reason)
    {
      match reason
      case StopForSwitch(model) => Start(t, Model.ForSwitch, model);
      case StopForClose(h) => ReleaseLock(); Suspend(t, Model.LeaseClosed(h, false));
      case StopForShutdown => ReleaseLock(); Suspend(t, Model.ShutdownDone(true));
      case StopAfterFailedStart(caller) => phase := Model.Failed; StartRaised(t, caller);
    }

    method StopRaised(t: Task, reason: Model.StopReason)
      requires t < |tasks|
      modifies this
      ensures View() == Model.AfterFailedStop(old(View()), t, reason)
    {
      match reason
      case StopForSwitch(_) => LeaveSwitch(t, true);
      case StopForClose(h) => ReleaseLock(); Suspend(t, Model.LeaseClosed(h, false));
      case StopForShutdown => ReleaseLock(); Suspend(t, Model.ShutdownDone(false));
      case StopAfterFailedStart(caller) => StartRaised(t, caller);
    }

    /** `_start`, up to its first await. */
    method Start(t: Task, caller: Model.Caller, model: ModelEntry)
      requires t < |tasks|
      modifies this
      ensures View() == Model.BeginStart(old(View()), t, caller, model)
    {
      selected := Some(model);
      phase := Model.Loading;
      Suspend(t, Model.Spawning(caller, model, Model.Launching, false));
    }

    method StartRaised(t: Task, caller: Model.Caller)
      requires t < |tasks|
      modifies this
      ensures View() == Model.StartRaises(old(View()), t, caller)
    {
      match caller
      case ForAcquire(_) => Suspend(t, Model.AcquireStartFailed);
      case ForSwitch => LeaveSwitch(t, true);
    }

    method StartSucceeded(t: Task, caller: Model.Caller, model: ModelEntry)
      requires t < |tasks|
      modifies this
      ensures View() == Model.StartReturns(old(View()), t, caller, model)
    {
      phase := Model.Ready;
      generation := generation + 1;
      match caller
      case ForAcquire(name) => Suspend(t, Model.AcquireStarted(name, model));
      case ForSwitch => RefreshStatus(); LeaveSwitch(t, true);
    }

    /** The `finally` block of `acquire`. */
    method LeaveAcquire(t: Task, acquired: bool)
      requires t < |tasks|
      modifies this
      ensures View() == Model.LeaveAcquire(old(View()), t, acquired)
    {
      queueDepth := queueDepth - 1;
      if acquired {
        ReleaseLock();
      }
      Suspend(t, Model.AcquireRejected);
    }

    /** The tail of `acquire`. */
    method Deliver(t: Task, name: string)
      requires t < |tasks|
      modifies this
      ensures View() == Model.Deliver(old(View()), t, name)
    {
      RefreshStatus();
      if phase != Model.Ready || engine.None? {
        LeaveAcquire(t, true);
        return;
      }
      Suspend(t, Model.Leased(name, engine.value, true, Model.Forwarding));
      queueDepth := queueDepth - 1;
    }

    /** Leaving `switch`: the lock block, then the `finally` block. */
    method LeaveSwitch(t: Task, acquired: bool)
      requires t < |tasks|
      modifies this
      ensures View() == Model.LeaveSwitch(old(View()), t, acquired)
    {
      if acquired {
        ReleaseLock();
      }
      switching := switching - 1;
      if switching == 0 && phase == Model.Draining && engine.Some? {
        var running := EngineIsRunning();
        phase := if running then Model.Ready else Model.Failed;
      }
      Suspend(t, Model.SwitchDone);
    }

    // ----- calls and ambient events

    method AcquireCall(name: string)
      requires Valid()
      modifies this
      ensures Valid() && Some(View()) == Model.Step(config, old(View()), Model.AcquireCall(name))
    {
      Proofs.StepStaysValid(config, View(), Model.AcquireCall(name));
      var allowed := CheckSelection(name);
      if !allowed || queueDepth >= config.maxQueueSize + (if holder.Some? then 0 else 1) {
        tasks := tasks + [Model.AcquireRejected];
        return;
      }
      queueDepth := queueDepth + 1;
      var model := LookupEntry(config.models, name);
      tasks := tasks + [Model.AcquireQueued(name, model.value)];
    }

    method SwitchCall(name: string)
      requires Valid()
      modifies this
      ensures Valid() && Some(View()) == Model.Step(config, old(View()), Model.SwitchCall(name))
    {
      Proofs.StepStaysValid(config, View(), Model.SwitchCall(name));
      var model := LookupEntry(config.models, name);
      if model.None? || closing {
        tasks := tasks + [Model.SwitchDone];
        return;
      }
      switching := switching + 1;
      if holder.Some? && phase == Model.Ready {
        phase := Model.Draining;
      }
      tasks := tasks + [Model.SwitchQueued(model.value)];
    }

    method ShutdownCall()
      requires Valid()
      modifies this
      ensures Valid() && Some(View()) == Model.Step(config, old(View()), Model.ShutdownCall)
    {
      Proofs.StepStaysValid(config, View(), Model.ShutdownCall);
      closing := true;
      tasks := tasks + [Model.ShutdownQueued];
    }

    /** `status()` as the HTTP routes call it. */
    method Status()
      requires Valid()
      modifies this
      ensures Valid() && Some(View()) == Model.Step(config, old(View()), Model.StatusPoll)
    {
      Proofs.StepStaysValid(config, View(), Model.StatusPoll);
      RefreshStatus();
    }

    // ----- resumptions

    /** The lock goes to task `t`, which runs to its next await. */
    method Grant(t: Task)
      requires Valid() && Enabled(Model.Grant(t))
      modifies this
      ensures Valid() && Some(View()) == Model.Step(config, old(View()), Model.Grant(t))
    {
      Proofs.StepStaysValid(config, View(), Model.Grant(t));
      var pc := tasks[t];
      holder := Some(t);
      if pc.AcquireQueued? {
        Suspend(t, Model.AcquireWon(pc.name, pc.model));
      } else if pc.AcquireDropped? {
        Suspend(t, Model.AcquireDropped(true));
      } else if pc.SwitchQueued? {
        SwitchBody(t, pc.model);
      } else if pc.ShutdownQueued? {
        Stop(t, Model.StopForShutdown);
      } else if !closing && phase == Model.Ready {
        Suspend(t, Model.WarmingUp);
      } else {
        ReleaseLock();
        Suspend(t, Model.WarmupDone);
      }
    }

    /** The body of `switch` once it holds the lock. */
    method SwitchBody(t: Task, model: ModelEntry)
      requires t < |tasks|
      modifies this
      ensures View() == Model.EnterSwitch(old(View()), t, model)
    {
      if closing {
        LeaveSwitch(t, true);
        return;
      }
      var running := EngineIsRunning();
      if (phase == Model.Ready || phase == Model.Draining) && running && processes[engine.value].model.id == model.id {
        phase := Model.Ready;
        RefreshStatus();
        LeaveSwitch(t, true);
      } else {
        Stop(t, Model.StopForSwitch(model));
      }
    }

    /** `acquire` resumes after one of its own awaits. */
    method ResumeAcquire(t: Task, disconnected: bool)
      requires Valid() && Enabled(Model.Resume(t, disconnected)) && !tasks[t].WarmingUp?
      modifies this
      ensures Valid() && Some(View()) == Model.Step(config, old(View()), Model.Resume(t, disconnected))
    {
      Proofs.StepStaysValid(config, View(), Model.Resume(t, disconnected));
      var pc := tasks[t];
      if pc.AcquireDropped? {
        LeaveAcquire(t, pc.won);
      } else if pc.AcquireWon? {
        var allowed := CheckSelection(pc.name);
        if allowed {
          Suspend(t, Model.AcquireChecked(pc.name, pc.model));
        } else {
          LeaveAcquire(t, true);
        }
      } else if pc.AcquireChecked? {
        if disconnected {
          LeaveAcquire(t, true);
        } else if phase == Model.Stopped {
          Suspend(t, Model.AcquireStarting(pc.name, pc.model));
        } else {
          Deliver(t, pc.name);
        }
      } else if pc.AcquireStarting? {
        Start(t, Model.ForAcquire(pc.name), pc.model);
      } else if pc.AcquireStarted? {
        Deliver(t, pc.name);
      } else {
        LeaveAcquire(t, true);
      }
    }

    /** A disconnect, a queue timeout or a cancellation reaches task `t`. */
    method GiveUp(t: Task)
      requires Valid() && Enabled(Model.GiveUp(t))
      modifies this
      ensures Valid() && Some(View()) == Model.Step(config, old(View()), Model.GiveUp(t))
    {
      Proofs.StepStaysValid(config, View(), Model.GiveUp(t));
      var pc := tasks[t];
      if pc.AcquireQueued? {
        Suspend(t, Model.AcquireDropped(false));
      } else if pc.AcquireWon? || pc.AcquireChecked? || pc.AcquireStarting? || pc.AcquireStarted? {
        LeaveAcquire(t, true);
      } else if pc.Spawning? {
        Suspend(t, pc.(cancelled := true));
      } else if pc.Readying? {
        Stop(t, Model.StopAfterFailedStart(pc.caller));
      } else if pc.SwitchQueued? {
        LeaveSwitch(t, false);
      } else if pc.ShutdownQueued? {
        Suspend(t, Model.ShutdownDone(false));
      } else {
        if pc.WarmingUp? {
          ReleaseLock();
        }
        Suspend(t, Model.WarmupDone);
      }
    }

    /** The start future resolved: collect the handle, or enter the exception handler. */
    method CollectStart(t: Task)
      requires Valid() && Enabled(Model.CollectStart(t))
      modifies this
      ensures Valid() && Some(View()) == Model.Step(config, old(View()), Model.CollectStart(t))
    {
      Proofs.StepStaysValid(config, View(), Model.CollectStart(t));
      var pc := tasks[t];
      if pc.op.Returned? {
        engine := Some(pc.op.handle);
        if !pc.cancelled {
          Suspend(t, Model.Readying(pc.caller, pc.model, pc.op.handle));
          return;
        }
      }
      Stop(t, Model.StopAfterFailedStart(pc.caller));
    }

    method ReadyResult(t: Task, ok: bool)
      requires Valid() && Enabled(Model.ReadyResult(t, ok))
      modifies this
      ensures Valid() && Some(View()) == Model.Step(config, old(View()), Model.ReadyResult(t, ok))
    {
      Proofs.StepStaysValid(config, View(), Model.ReadyResult(t, ok));
      var pc := tasks[t];
      var running := EngineIsRunning();
      if ok && running {
        StartSucceeded(t, pc.caller, pc.model);
      } else {
        Stop(t, Model.StopAfterFailedStart(pc.caller));
      }
    }

    /** What `_stop` makes of the answer of `Engine.stop`: ownership is dropped exactly when the stop did
        not raise and the process is gone. */
    method ConfirmExit(raised: bool, killed: bool) returns (confirmed: bool)
      requires engine.Some? && engine.value < |processes|
      modifies this`processes, this`engine, this`phase
      ensures |processes| == |old(processes)| && (confirmed <==> !raised && !processes[old(engine).value].alive)
      ensures var after := if killed then old(View()).Kill(old(engine).value) else old(View());
              View() == if confirmed then after.(engine := None, phase := Model.Stopped) else after.(phase := Model.Failed)
    {
      if killed {
        processes := processes[engine.value := processes[engine.value].(alive := false)];
      }
      var running := EngineIsRunning();
      confirmed := !raised && !running;
      if confirmed {
        engine := None;
        phase := Model.Stopped;
      } else {
        phase := Model.Failed;
      }
    }

    /** `Engine.stop` came back, by returning or by raising, possibly having ended the process. */
    method StopResult(t: Task, raised: bool, killed: bool)
      requires Valid() && Enabled(Model.StopResult(t, raised, killed))
      modifies this
      ensures Valid() && Some(View()) == Model.Step(config, old(View()), Model.StopResult(t, raised, killed))
    {
      Proofs.StepStaysValid(config, View(), Model.StopResult(t, raised, killed));
      var reason := tasks[t].reason;
      var confirmed := ConfirmExit(raised, killed);
      if confirmed {
        AfterStop(t, reason);
      } else {
        StopRaised(t, reason);
      }
    }

    /** `Lease.close`, up to its await: only the first call on a lease does anything. */
    method Close(t: Task, abandoned: bool)
      requires Valid() && t < |tasks| && (Invariants.IsLease(tasks[t]) || tasks[t].LeaseClosed?)
      modifies this
      ensures Valid() && |tasks| == |old(tasks)|
      ensures !old(tasks[t]).Leased? ==> View() == old(View())
      ensures old(tasks[t]).Leased? ==> View() == Model.CloseLease(old(View()), t, old(tasks[t]), abandoned)
      ensures tasks[t].LeaseClosed? && old(tasks[t]).Leased? ==> old(holder) == Some(t) && holder == None
      ensures processes == old(processes)
    {
      var pc := tasks[t];
      if !pc.Leased? {
        return;
      }
      Proofs.CloseKeepsInv(config, View(), t, abandoned);
      if pc.engine < |processes| && processes[pc.engine].cooperative {
        Suspend(t, Model.ClosingIdle(pc.engine));
      } else if abandoned && pc.restartOnAbandon {
        Stop(t, Model.StopForClose(pc.engine));
      } else {
        ReleaseLock();
        Suspend(t, Model.LeaseClosed(pc.engine, false));
      }
    }

    /** `_proxy` resumes after `_forward`: a streamed response takes the lease along, anything else closes it. */
    method ForwardEnds(t: Task, end: Model.ForwardEnd)
      requires Valid() && Enabled(Model.ForwardEnds(t, end))
      modifies this
      ensures Valid() && Some(View()) == Model.Step(config, old(View()), Model.ForwardEnds(t, end))
    {
      Proofs.StepStaysValid(config, View(), Model.ForwardEnds(t, end));
      var handedOff := end.Streamed?;
      var completed := !end.Failing?;
      if handedOff {
        Suspend(t, tasks[t].(service := Model.HandedOff));
      } else {
        Close(t, !completed);
      }
    }

    /** The `finally` block of the streamed response. */
    method StreamEnds(t: Task, finished: bool)
      requires Valid() && Enabled(Model.StreamEnds(t, finished))
      modifies this
      ensures Valid() && Some(View()) == Model.Step(config, old(View()), Model.StreamEnds(t, finished))
    {
      Proofs.StepStaysValid(config, View(), Model.StreamEnds(t, finished));
      Close(t, !finished);
    }

    /** `wait_idle` answered, or failed to. */
    method IdleResult(t: Task, idle: bool)
      requires Valid() && Enabled(Model.IdleResult(t, idle))
      modifies this
      ensures Valid() && Some(View()) == Model.Step(config, old(View()), Model.IdleResult(t, idle))
    {
      Proofs.StepStaysValid(config, View(), Model.IdleResult(t, idle));
      var pc := tasks[t];
      if idle {
        ReleaseLock();
        Suspend(t, Model.LeaseClosed(pc.engine, true));
      } else {
        Stop(t, Model.StopForClose(pc.engine));
      }
    }
  }
}
