/** When a requested switch keeps new leases out: the exact condition, in every reachable state. */
module RuntimeDrain {
  import opened Wrappers
  import opened Config
  import opened RuntimeModel
  import opened RuntimeInvariants
  import opened RuntimeProofs
  import opened RuntimeProgress

  // ----- continuations

  /** Consecutive states are one step apart. */
  ghost predicate Continues(cfg: GatewayConfig, tail: seq<State>) {
    forall i: nat :: i + 1 < |tail| ==> StepAt(cfg, tail, i)
  }

  ghost predicate PendingIn(s: State, u: Task) {
    u < |s.tasks| && InSwitch(s.tasks[u])
  }

  /** A lease is handed out in this step. */
  ghost predicate Grants(s: State, s': State) {
    exists t :: 0 <= t < |s.tasks| && t < |s'.tasks| && s'.tasks[t].Leased? && !s.tasks[t].Leased?
  }

  /** From `s` on, switch `u` stays pending and the last step grants a lease. */
  ghost predicate EndsInLease(cfg: GatewayConfig, s: State, u: Task, tail: seq<State>) {
    && |tail| > 1 && tail[0] == s && Continues(cfg, tail)
    && (forall k :: 0 <= k < |tail| ==> PendingIn(tail[k], u))
    && Grants(tail[|tail| - 2], tail[|tail| - 1])
  }

  ghost predicate CanGrantWhilePending(cfg: GatewayConfig, s: State, u: Task) {
    exists tail :: EndsInLease(cfg, s, u, tail)
  }

  /** Between its checks and its lease, an acquire that will be served if all its awaits succeed. */
  predicate OnItsWay(s: State, pc: Pc) {
    match pc
    case AcquireChecked(_, _) => s.phase == Stopped
    case AcquireStarting(_, _) => true
    case Spawning(caller, _, op, cancelled) =>
      caller.ForAcquire? && !cancelled && !op.Raised? && (op.Launching? || s.Alive(op.handle))
    case Readying(caller, _, _) => caller.ForAcquire? && s.EngineAlive()
    case _ => false
  }

  predicate HolderOnItsWay(s: State) {
    s.holder.Some? && s.holder.value < |s.tasks| && OnItsWay(s, s.tasks[s.holder.value])
  }

  // ----- everybody else is kept out

  ghost predicate AllKeptOut(s: State) {
    forall t :: 0 <= t < |s.tasks| ==> KeptOut(s, s.tasks[t])
  }

  /** A task without the lock changes the phase only as the last pending switch. */
  lemma OthersLeaveThePhase(cfg: GatewayConfig, s: State, a: Action, t: Task)
    requires OfTask(a) && a.task == t < |s.tasks| && s.Locked() && !Owns(s.tasks[t]) && Step(cfg, s, a).Some?
    ensures Step(cfg, s, a).value.phase == s.phase || Step(cfg, s, a).value.switching == 0
  {}

  lemma PendingCounts(tasks: seq<Pc>, u: Task)
    requires u < |tasks| && InSwitch(tasks[u])
    ensures Count(InSwitch, tasks) > 0
  {
    CountUpdate(InSwitch, tasks, u, SwitchDone);
  }

  lemma OthersStayOut(s: State, s': State, pc: Pc)
    requires KeptOut(s, pc) && Unobtrusive(s, s') && ProcessesEvolve(s, s') && s'.phase == s.phase
    ensures KeptOut(s', pc)
  {}

  lemma OtherStaysOut(cfg: GatewayConfig, s: State, a: Action, t: Task)
    requires LockOwned(s) && AllKeptOut(s) && OfTask(a) && a.task < |s.tasks| && Step(cfg, s, a).Some?
    requires t < |s.tasks| && t != a.task && Step(cfg, s, a).value.switching > 0
    requires Move(cfg, s, Step(cfg, s, a).value, a.task)
    ensures KeptOut(Step(cfg, s, a).value, s.tasks[t])
  {
    assert KeptOut(s, s.tasks[t]);
    if Owns(s.tasks[t]) {
      OthersLeaveThePhase(cfg, s, a, a.task);
      OthersStayOut(s, Step(cfg, s, a).value, s.tasks[t]);
    }
  }

  lemma TaskStepKeepsOut(cfg: GatewayConfig, s: State, a: Action)
    requires Inv(cfg, s) && OfTask(a) && Step(cfg, s, a).Some? && AllKeptOut(s)
    requires s.switching > 0 && Step(cfg, s, a).value.switching > 0
    ensures AllKeptOut(Step(cfg, s, a).value) && !Grants(s, Step(cfg, s, a).value)
  {
    var s' := Step(cfg, s, a).value;
    if s' != s {
      InvImpliesHere(cfg, s, a.task);
      TaskStepMoves(cfg, s, a, a.task);
      TaskStepProgresses(cfg, s, a, a.task);
      forall t | 0 <= t < |s.tasks| && t != a.task ensures KeptOut(s', s.tasks[t]) {
        OtherStaysOut(cfg, s, a, t);
      }
    }
  }

  lemma AmbientKeepsOut(cfg: GatewayConfig, s: State, a: Action)
    requires !OfTask(a) && Step(cfg, s, a).Some? && AllKeptOut(s)
    ensures AllKeptOut(Step(cfg, s, a).value) && !Grants(s, Step(cfg, s, a).value)
  {}

  /** While switch `u` is pending nobody comes closer to a lease. */
  lemma StepKeepsOut(cfg: GatewayConfig, s: State, s': State, u: Task)
    requires Inv(cfg, s) && Next(cfg, s, s') && AllKeptOut(s) && PendingIn(s, u) && PendingIn(s', u)
    ensures AllKeptOut(s') && !Grants(s, s') && Inv(cfg, s')
  {
    var a :| Step(cfg, s, a) == Some(s');
    NextKeepsInv(cfg, s, s');
    PendingCounts(s.tasks, u);
    PendingCounts(s'.tasks, u);
    if OfTask(a) {
      TaskStepKeepsOut(cfg, s, a);
    } else {
      AmbientKeepsOut(cfg, s, a);
    }
  }

  lemma RequestKeepsOut(cfg: GatewayConfig, s: State, name: string)
    requires Inv(cfg, s) && !HolderOnItsWay(s) && Lookup(cfg.models, name).Some? && !s.closing
    ensures AllKeptOut(RequestSwitch(cfg, s, name))
  {
    var s' := RequestSwitch(cfg, s, name);
    forall t | 0 <= t < |s'.tasks| ensures KeptOut(s', s'.tasks[t]) {
      assert t < |s.tasks| ==> TaskAgrees(cfg, s, s.tasks[t]) && (Owns(s.tasks[t]) ==> s.holder == Some(t));
    }
  }

  lemma TailStepKeepsOut(cfg: GatewayConfig, u: Task, tail: seq<State>, k: nat)
    requires Continues(cfg, tail) && k + 1 < |tail| && PendingIn(tail[k], u) && PendingIn(tail[k + 1], u)
    requires Inv(cfg, tail[k]) && AllKeptOut(tail[k])
    ensures Inv(cfg, tail[k + 1]) && AllKeptOut(tail[k + 1]) && !Grants(tail[k], tail[k + 1])
  {
    assert StepAt(cfg, tail, k);
    StepKeepsOut(cfg, tail[k], tail[k + 1], u);
  }

  lemma {:induction false} TailKeepsOut(cfg: GatewayConfig, u: Task, tail: seq<State>, k: nat)
    requires k < |tail| && Inv(cfg, tail[0]) && AllKeptOut(tail[0]) && Continues(cfg, tail)
    requires forall i :: 0 <= i < |tail| ==> PendingIn(tail[i], u)
    ensures Inv(cfg, tail[k]) && AllKeptOut(tail[k])
    ensures k > 0 ==> !Grants(tail[k - 1], tail[k])
  {
    if k > 0 {
      TailKeepsOut(cfg, u, tail, k - 1);
      TailStepKeepsOut(cfg, u, tail, k - 1);
    }
  }

  // ----- the holder on its way can be served

  predicate Served(s: State, pc: Pc) {
    pc.AcquireStarted? && s.phase == Ready && s.EngineAlive()
  }

  /** The completion of the holder's await that brings it on. */
  function Advance(t: Task, pc: Pc): Action {
    match pc
    case Spawning(_, _, op, _) =>
      (match op case Launching => Launch(t, false) case Launched(_) => LaunchReturns(t) case _ => CollectStart(t))
    case Readying(_, _, _) => ReadyResult(t, true)
    case _ => Resume(t, false)
  }

  lemma AdvanceBringsOn(cfg: GatewayConfig, s: State, t: Task)
    requires t < |s.tasks| && OnItsWay(s, s.tasks[t])
    ensures var a := Advance(t, s.tasks[t]);
            && Step(cfg, s, a).Some?
            && var s' := Step(cfg, s, a).value;
            && s'.holder == s.holder && |s'.tasks| == |s.tasks| && s'.tasks == s.tasks[t := s'.tasks[t]]
            && (OnItsWay(s', s'.tasks[t]) || Served(s', s'.tasks[t]))
            && StepsLeft(s'.tasks[t]) < StepsLeft(s.tasks[t])
  {}

  lemma ServedIsLeased(cfg: GatewayConfig, s: State, t: Task, u: Task)
    requires t < |s.tasks| && Served(s, s.tasks[t]) && PendingIn(s, u)
    ensures EndsInLease(cfg, s, u, [s, Deliver(s, t, s.tasks[t].name)])
  {
    var s' := Deliver(s, t, s.tasks[t].name);
    assert Step(cfg, s, Resume(t, false)) == Some(s') && s'.tasks[t].Leased?;
    assert Next(cfg, s, s');
    assert Grants(s, s');
    assert StepAt(cfg, [s, s'], 0);
  }

  lemma Prepend(cfg: GatewayConfig, s: State, s': State, u: Task, tail: seq<State>)
    requires Next(cfg, s, s') && PendingIn(s, u) && EndsInLease(cfg, s', u, tail)
    ensures EndsInLease(cfg, s, u, [s] + tail)
  {
    var longer := [s] + tail;
    forall i: nat | i + 1 < |longer| ensures StepAt(cfg, longer, i) {
      assert i > 0 ==> StepAt(cfg, tail, i - 1);
    }
  }

  lemma {:induction false} HolderCanBeServed(cfg: GatewayConfig, s: State, t: Task, u: Task)
    requires t < |s.tasks| && (OnItsWay(s, s.tasks[t]) || Served(s, s.tasks[t]))
    requires u < |s.tasks| && s.tasks[u].SwitchQueued?
    ensures CanGrantWhilePending(cfg, s, u)
    decreases StepsLeft(s.tasks[t])
  {
    if Served(s, s.tasks[t]) {
      ServedIsLeased(cfg, s, t, u);
    } else {
      AdvanceBringsOn(cfg, s, t);
      var a := Advance(t, s.tasks[t]);
      var s' := Step(cfg, s, a).value;
      HolderCanBeServed(cfg, s', t, u);
      var tail :| EndsInLease(cfg, s', u, tail);
      Prepend(cfg, s, s', u, tail);
    }
  }

  // ----- the exact condition

  /** An accepted switch request, in any reachable state: some continuation grants a lease with that
      switch still pending exactly when the lock holder is an acquire on its way to one. */
  lemma LeaseWhileSwitchPending(cfg: GatewayConfig, run: seq<State>, i: nat, name: string)
    requires IsRun(cfg, run) && i < |run| && Lookup(cfg.models, name).Some? && !run[i].closing
    ensures CanGrantWhilePending(cfg, RequestSwitch(cfg, run[i], name), |run[i].tasks|) <==> HolderOnItsWay(run[i])
  {
    RunKeepsInv(cfg, run, i);
    var s, u := run[i], |run[i].tasks|;
    var s' := RequestSwitch(cfg, s, name);
    if HolderOnItsWay(s) {
      RequestKeepsOnItsWay(cfg, s, name);
      HolderCanBeServed(cfg, s', s.holder.value, u);
    } else {
      RequestKeepsOut(cfg, s, name);
      assert Step(cfg, s, SwitchCall(name)) == Some(s');
      StepKeepsInv(cfg, s, SwitchCall(name));
      forall tail ensures !EndsInLease(cfg, s', u, tail) {
        NoLeaseFrom(cfg, s', u, tail);
      }
    }
  }

  lemma NoLeaseFrom(cfg: GatewayConfig, s: State, u: Task, tail: seq<State>)
    requires Inv(cfg, s) && AllKeptOut(s)
    ensures !EndsInLease(cfg, s, u, tail)
  {
    if |tail| > 1 && tail[0] == s && Continues(cfg, tail) && forall k :: 0 <= k < |tail| ==> PendingIn(tail[k], u) {
      TailKeepsOut(cfg, u, tail, |tail| - 1);
    }
  }

  lemma RequestKeepsOnItsWay(cfg: GatewayConfig, s: State, name: string)
    requires Inv(cfg, s) && HolderOnItsWay(s) && Lookup(cfg.models, name).Some? && !s.closing
    ensures var s' := RequestSwitch(cfg, s, name);
            s'.holder == s.holder && HolderOnItsWay(s') && s'.tasks[|s.tasks|].SwitchQueued?
  {
    assert TaskAgrees(cfg, s, s.tasks[s.holder.value]);
  }

  /** So, along a run: unless an acquire is on its way, a switch keeps every new lease out while it
      is pending. */
  lemma SwitchKeepsLeasesOut(cfg: GatewayConfig, run: seq<State>, name: string, i: nat, j: nat)
    requires IsRun(cfg, run) && i < j < |run| && Step(cfg, run[i], SwitchCall(name)) == Some(run[i + 1])
    requires !HolderOnItsWay(run[i]) && forall k :: i < k <= j ==> PendingIn(run[k], |run[i].tasks|)
    ensures AllKeptOut(run[j])
    ensures forall k: nat :: i < k < j ==> BeforeLast(run, k) && !GrantsAt(run, k)
  {
    KeptOutThrough(cfg, run, name, i, j);
    forall k: nat | i < k < j ensures BeforeLast(run, k) && !GrantsAt(run, k) {
      KeptOutThrough(cfg, run, name, i, k + 1);
    }
  }

  predicate BeforeLast(run: seq<State>, k: nat) { k + 1 < |run| }

  ghost predicate GrantsAt(run: seq<State>, k: nat)
    requires BeforeLast(run, k)
  {
    Grants(run[k], run[k + 1])
  }

  lemma KeptOutThrough(cfg: GatewayConfig, run: seq<State>, name: string, i: nat, j: nat)
    requires IsRun(cfg, run) && i < j < |run| && Step(cfg, run[i], SwitchCall(name)) == Some(run[i + 1])
    requires !HolderOnItsWay(run[i]) && forall k :: i < k <= j ==> PendingIn(run[k], |run[i].tasks|)
    ensures AllKeptOut(run[j])
    ensures j > i + 1 ==> BeforeLast(run, j - 1) && !GrantsAt(run, j - 1)
  {
    var tail := run[i + 1..j + 1];
    assert PendingIn(run[i + 1], |run[i].tasks|);
    forall m: nat | m + 1 < |tail| ensures StepAt(cfg, tail, m) {
      assert StepAt(cfg, run, i + 1 + m);
    }
    RunKeepsInv(cfg, run, i);
    RunKeepsInv(cfg, run, i + 1);
    RequestKeepsOut(cfg, run[i], name);
    TailKeepsOut(cfg, |run[i].tasks|, tail, |tail| - 1);
  }

  // ----- an instance

  ghost predicate Reachable(cfg: GatewayConfig, s: State) {
    exists run :: IsRun(cfg, run) && run[|run| - 1] == s
  }

  lemma Reached(cfg: GatewayConfig, s: State, a: Action, s': State)
    requires Reachable(cfg, s) && Step(cfg, s, a) == Some(s')
    ensures Reachable(cfg, s')
  {
    var run :| IsRun(cfg, run) && run[|run| - 1] == s;
    var longer := run + [s'];
    assert Next(cfg, s, s');
    forall i: nat | i + 1 < |longer| ensures StepAt(cfg, longer, i) {
      assert i + 1 < |run| ==> StepAt(cfg, run, i);
    }
    assert IsRun(cfg, longer);
  }

  lemma InitialReached(cfg: GatewayConfig, selected: Option<ModelEntry>)
    ensures Reachable(cfg, Initial(selected))
  {
    assert IsRun(cfg, [Initial(selected)]);
  }

  /** An acquire of a stopped runtime takes the lock, is checked and is about to start the engine. */
  lemma StartIsReached(cfg: GatewayConfig) returns (s: State)
    requires cfg.models != []
    ensures Reachable(cfg, s) && HolderOnItsWay(s) && !s.closing
  {
    var m := cfg.models[0];
    var s0 := Initial(Some(m));
    var s1 := s0.(queueDepth := 1).Spawn(AcquireQueued(m.id, m));
    var s2 := s1.(holder := Some(0)).At(0, AcquireWon(m.id, m));
    s := s2.At(0, AcquireChecked(m.id, m));
    assert Lookup(cfg.models, m.id) == Some(m);
    InitialReached(cfg, Some(m));
    Reached(cfg, s0, AcquireCall(m.id), s1);
    Reached(cfg, s1, Grant(0), s2);
    Reached(cfg, s2, Resume(0, false), s);
  }

  /** With any model configured, there is a reachable state in which a switch is requested and a
      lease is granted while it is pending. */
  lemma LeaseDuringSwitch(cfg: GatewayConfig)
    requires cfg.models != []
    ensures exists s, name ::
              && Reachable(cfg, s) && Lookup(cfg.models, name).Some? && !s.closing
              && CanGrantWhilePending(cfg, RequestSwitch(cfg, s, name), |s.tasks|)
  {
    var s := StartIsReached(cfg);
    var run :| IsRun(cfg, run) && run[|run| - 1] == s;
    var name := cfg.models[0].id;
    assert Lookup(cfg.models, name).Some?;
    LeaseWhileSwitchPending(cfg, run, |run| - 1, name);
  }
}
