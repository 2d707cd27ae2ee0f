/** What the runtime promises, over every run. */
module RuntimeTheorems {
  import opened Wrappers
  import opened Config
  import opened RuntimeModel
  import opened RuntimeInvariants
  import opened RuntimeProofs

  // ----- one resident engine

  /** At most one process is alive, and a live one is owned or about to be collected. */
  lemma OneResidentEngine(cfg: GatewayConfig, run: seq<State>, k: nat, g: Handle, h: Handle)
    requires IsRun(cfg, run) && k < |run| && run[k].Alive(g) && run[k].Alive(h)
    ensures g == h
    ensures run[k].engine == Some(h) || InFlight(run[k], h)
  {
    RunKeepsInv(cfg, run, k);
    var s := run[k];
    assert s.engine == Some(g) || InFlight(s, g);
    assert s.engine == Some(h) || InFlight(s, h);
    if InFlight(s, g) || InFlight(s, h) {
      assert TaskAgrees(cfg, s, s.tasks[s.holder.value]);
    }
  }

  /** A process is spawned, and a start is begun, only when every earlier process is gone. */
  lemma StartsOnlyAfterExit(cfg: GatewayConfig, run: seq<State>, k: nat, t: Task, h: Handle)
    requires IsRun(cfg, run) && k < |run| && t < |run[k].tasks|
    requires run[k].tasks[t].Spawning? && run[k].tasks[t].op.Launching?
    ensures !run[k].Alive(h) && run[k].engine.None?
    ensures forall u :: 0 <= u < |run[k].tasks| && run[k].tasks[u].Spawning? ==> u == t
  {
    RunKeepsInv(cfg, run, k);
    var s := run[k];
    assert TaskAgrees(cfg, s, s.tasks[t]) && Owns(s.tasks[t]);
    assert s.Alive(h) ==> s.engine == Some(h) || InFlight(s, h);
  }

  /** A process comes to life only from a task at that await point, and serves the model it started. */
  lemma OnlyAStartSpawns(cfg: GatewayConfig, run: seq<State>, k: nat, h: Handle)
    requires IsRun(cfg, run) && k + 1 < |run| && run[k + 1].Alive(h) && !run[k].Alive(h)
    ensures exists t :: 0 <= t < |run[k].tasks| && run[k].tasks[t].Spawning? && run[k].tasks[t].op.Launching?
                        && run[k + 1].processes[h].model == run[k].tasks[t].model
  {
    RunEvolves(cfg, run, k);
    var s, s' := run[k], run[k + 1];
    assert h >= |s.processes| by {
      assert ProcessesEvolve(s, s');
    }
    var t :| 0 <= t < |s.tasks| && Spawns(s, s', s.tasks[t]);
    assert h == |s.processes| && s.tasks[t].Spawning?;
  }

  /** An owned engine stays owned until its process is gone. */
  lemma OwnershipKeptUntilExit(cfg: GatewayConfig, run: seq<State>, k: nat, h: Handle)
    requires IsRun(cfg, run) && k + 1 < |run| && run[k].engine == Some(h) && run[k + 1].engine != Some(h)
    ensures !run[k + 1].Alive(h)
  {
    RunEvolves(cfg, run, k);
    var s, s' := run[k], run[k + 1];
    if s'.holder.Some? && s'.holder.value < |s.tasks| {
      var t := s'.holder.value;
      assert TaskAgrees(cfg, s, s.tasks[t]);
      assert PcEvolves(s, s', t, s.tasks[t], s'.tasks[t]);
    }
    assert s'.Alive(h) ==> InFlight(s', h);
  }

  // ----- the lock

  /** The lock is held exactly when one task is at an await point that owns it, and no other is. */
  lemma LockHeldByOneOwner(cfg: GatewayConfig, run: seq<State>, k: nat)
    requires IsRun(cfg, run) && k < |run|
    ensures run[k].Locked() <==> exists t :: 0 <= t < |run[k].tasks| && Owns(run[k].tasks[t])
    ensures forall t, u | 0 <= t < |run[k].tasks| && 0 <= u < |run[k].tasks| ::
              Owns(run[k].tasks[t]) && Owns(run[k].tasks[u]) ==> t == u
  {
    RunKeepsInv(cfg, run, k);
    var s := run[k];
    if s.Locked() {
      assert Owns(s.tasks[s.holder.value]);
    }
  }

  /** How often task `t` stopped holding the lock in a run. */
  function Releases(run: seq<State>, t: Task): nat {
    if |run| <= 1 then 0
    else Releases(run[..|run| - 1], t)
         + (if run[|run| - 2].holder == Some(t) && run[|run| - 1].holder != Some(t) then 1 else 0)
  }

  /** How far task `t` is: not released yet, or released once and finished. */
  ghost predicate ReleaseState(s: State, t: Task, releases: nat) {
    && releases <= 1
    && (t >= |s.tasks| || !Done(s.tasks[t]) ==> releases == 0)
    && (t < |s.tasks| && s.tasks[t].LeaseClosed? ==> releases == 1)
  }

  lemma ReleaseStep(cfg: GatewayConfig, s: State, s': State, t: Task, releases: nat)
    requires Inv(cfg, s) && Inv(cfg, s') && Evolves(s, s') && ReleaseState(s, t, releases)
    ensures ReleaseState(s', t, releases + (if s.holder == Some(t) && s'.holder != Some(t) then 1 else 0))
  {
    if t < |s.tasks| {
      assert PcEvolves(s, s', t, s.tasks[t], s'.tasks[t]);
    }
  }

  /** However often `close` is called, a task releases the lock at most once, and exactly once by
      the time its lease is closed. */
  lemma {:induction false} ReleasedExactlyOnce(cfg: GatewayConfig, run: seq<State>, t: Task)
    requires IsRun(cfg, run)
    ensures ReleaseState(run[|run| - 1], t, Releases(run, t))
  {
    if |run| > 1 {
      var shorter := run[..|run| - 1];
      PrefixOfRun(cfg, run, |run| - 1);
      ReleasedExactlyOnce(cfg, shorter, t);
      RunEvolves(cfg, run, |run| - 2);
      assert shorter[|shorter| - 1] == run[|run| - 2];
      ReleaseStep(cfg, run[|run| - 2], run[|run| - 1], t, Releases(shorter, t));
    }
  }

  /** The request of a task, or its streamed response, has an await of its own to complete. */
  predicate InRequest(pc: Pc) {
    InAcquire(pc) || (IsLease(pc) && !ResponseUncalled(pc))
  }

  /** `_proxy` returned a streamed response that nobody has called yet. */
  predicate ResponseUncalled(pc: Pc) { pc.Leased? && pc.service.HandedOff? }

  lemma LeaseStays(cfg: GatewayConfig, s: State, a: Action, t: Task)
    requires OfTask(a) && t < |s.tasks| && IsLease(s.tasks[t]) && TaskStep(cfg, s, a, t, s.tasks[t]).Some? && !s.holder.None?
    ensures var s' := TaskStep(cfg, s, a, t, s.tasks[t]).value;
            t < |s'.tasks| && (IsLease(s'.tasks[t]) || s'.tasks[t].LeaseClosed?)
  {}

  ghost predicate LeaseLife(s: State, t: Task) {
    t < |s.tasks| && (IsLease(s.tasks[t]) || s.tasks[t].LeaseClosed?)
  }

  lemma LeaseLivesOn(cfg: GatewayConfig, s: State, s': State, t: Task)
    requires Inv(cfg, s) && Next(cfg, s, s') && |s.tasks| <= |s'.tasks| && LeaseLife(s, t)
    ensures LeaseLife(s', t)
  {
    NextKeepsInv(cfg, s, s');
    assert PcEvolves(s, s', t, s.tasks[t], s'.tasks[t]);
    var a :| Step(cfg, s, a) == Some(s');
    if IsLease(s.tasks[t]) && s'.tasks[t] != s.tasks[t] {
      OnlyItsOwnSteps(cfg, s, a, t);
      assert Owns(s.tasks[t]);
      LeaseStays(cfg, s, a, t);
    }
  }

  lemma LeaseLivesStep(cfg: GatewayConfig, run: seq<State>, t: Task, k: nat)
    requires IsRun(cfg, run) && k + 1 < |run| && LeaseLife(run[k], t)
    ensures LeaseLife(run[k + 1], t)
  {
    RunStep(cfg, run, k);
    LeaseLivesOn(cfg, run[k], run[k + 1], t);
  }

  /** Once a lease was granted, the task is serving it, closing it, or has closed it. */
  lemma {:induction false} LeaseLives(cfg: GatewayConfig, run: seq<State>, t: Task, i: nat, j: nat)
    requires IsRun(cfg, run) && i <= j < |run| && LeaseLife(run[i], t)
    ensures LeaseLife(run[j], t)
  {
    if i < j {
      LeaseLives(cfg, run, t, i, j - 1);
      LeaseLivesStep(cfg, run, t, j - 1);
    }
  }

  /** A request that got a lease, has no await left, and left no response uncalled, has closed its
      lease and released the lock exactly once. */
  lemma FinishedRequestClosedItsLease(cfg: GatewayConfig, run: seq<State>, t: Task, i: nat, j: nat)
    requires IsRun(cfg, run) && i <= j < |run| && t < |run[i].tasks| && run[i].tasks[t].Leased?
    ensures t < |run[j].tasks|
    ensures !InRequest(run[j].tasks[t]) && !ResponseUncalled(run[j].tasks[t]) ==>
              run[j].tasks[t].LeaseClosed? && Releases(run[..j + 1], t) == 1
  {
    LeaseLives(cfg, run, t, i, j);
    PrefixOfRun(cfg, run, j + 1);
    ReleasedExactlyOnce(cfg, run[..j + 1], t);
  }

  lemma PrefixOfRun(cfg: GatewayConfig, run: seq<State>, n: nat)
    requires IsRun(cfg, run) && 0 < n <= |run|
    ensures IsRun(cfg, run[..n])
  {
    forall i: nat | i + 1 < n ensures StepAt(cfg, run[..n], i) {
      assert StepAt(cfg, run, i);
    }
  }

  /** When every task is finished the runtime is back at rest. */
  lemma QuiescentIsClean(cfg: GatewayConfig, run: seq<State>, k: nat)
    requires IsRun(cfg, run) && k < |run|
    requires forall t :: 0 <= t < |run[k].tasks| ==> Done(run[k].tasks[t])
    ensures !run[k].Locked() && run[k].queueDepth == 0 && run[k].switching == 0
    ensures run[k].phase != Loading && run[k].phase != Draining
  {
    RunKeepsInv(cfg, run, k);
    NoneCounted(InAcquire, run[k].tasks);
    NoneCounted(InSwitch, run[k].tasks);
  }

  lemma {:induction false} NoneCounted(f: Pc -> bool, tasks: seq<Pc>)
    requires forall t :: 0 <= t < |tasks| ==> !f(tasks[t])
    ensures Count(f, tasks) == 0
  {
    if tasks != [] {
      NoneCounted(f, tasks[1..]);
    }
  }

  // ----- model fidelity

  /** An outstanding lease is on the owned engine, which serves the model its name resolves to. */
  lemma LeaseServesRequestedModel(cfg: GatewayConfig, run: seq<State>, k: nat, t: Task)
    requires IsRun(cfg, run) && k < |run| && t < |run[k].tasks| && run[k].tasks[t].Leased?
    ensures var lease := run[k].tasks[t];
            && lease.engine < |run[k].processes| && run[k].engine == Some(lease.engine)
            && Lookup(cfg.models, lease.name).Some?
            && run[k].processes[lease.engine].model.id == Lookup(cfg.models, lease.name).value.id
    ensures var lease := run[k].tasks[t];
            Unambiguous(cfg.models) ==>
              forall i :: 0 <= i < |cfg.models| && Answers(cfg.models[i], lease.name)
                          ==> cfg.models[i].id == run[k].processes[lease.engine].model.id
  {
    RunKeepsInv(cfg, run, k);
    var lease := run[k].tasks[t];
    assert TaskAgrees(cfg, run[k], lease);
    forall i | Unambiguous(cfg.models) && 0 <= i < |cfg.models| && Answers(cfg.models[i], lease.name)
      ensures cfg.models[i].id == run[k].processes[lease.engine].model.id
    {
      LookupFindsTheId(cfg.models, i, lease.name);
    }
  }

  /** A lease is granted only by the lock holder, on a live engine of a ready runtime. */
  lemma GrantNeedsReadyEngine(cfg: GatewayConfig, run: seq<State>, k: nat, t: Task)
    requires IsRun(cfg, run) && k + 1 < |run| && t < |run[k].tasks| && t < |run[k + 1].tasks|
    requires run[k + 1].tasks[t].Leased? && !run[k].tasks[t].Leased?
    ensures run[k].phase == Ready && run[k + 1].phase == Ready && run[k + 1].Alive(run[k + 1].tasks[t].engine)
    ensures run[k].holder == Some(t) && run[k + 1].holder == Some(t)
  {
    RunEvolves(cfg, run, k);
    assert PcEvolves(run[k], run[k + 1], t, run[k].tasks[t], run[k + 1].tasks[t]);
  }

  /** Stopped means no engine; ready or draining means an engine for the selection; draining means
      a switch is pending. */
  lemma PhaseMeaning(cfg: GatewayConfig, run: seq<State>, k: nat)
    requires IsRun(cfg, run) && k < |run|
    ensures run[k].phase == Stopped ==> run[k].engine.None?
    ensures run[k].phase in {Ready, Draining} ==>
              && run[k].engine.Some? && run[k].engine.value < |run[k].processes|
              && run[k].selected == Some(run[k].processes[run[k].engine.value].model)
    ensures run[k].phase == Draining ==> exists t :: 0 <= t < |run[k].tasks| && InSwitch(run[k].tasks[t])
  {
    RunKeepsInv(cfg, run, k);
    if run[k].phase == Draining && forall t :: 0 <= t < |run[k].tasks| ==> !InSwitch(run[k].tasks[t]) {
      NoneCounted(InSwitch, run[k].tasks);
    }
  }

  // ----- no overlapping work on a cooperative engine

  /** When a lease is granted on a cooperative engine, every earlier lease on the same process has
      been closed by an idle acknowledgement. */
  lemma NoOverlapOnCooperativeEngine(cfg: GatewayConfig, run: seq<State>, k: nat, t: Task, u: Task)
    requires IsRun(cfg, run) && k + 1 < |run| && t < |run[k].tasks| <= |run[k + 1].tasks| && u < |run[k + 1].tasks| && u != t
    requires run[k + 1].tasks[t].Leased? && !run[k].tasks[t].Leased?
    requires var h := run[k + 1].tasks[t].engine; h < |run[k + 1].processes| && run[k + 1].processes[h].cooperative
    ensures var h := run[k + 1].tasks[t].engine;
            && !(IsLease(run[k + 1].tasks[u]))
            && (run[k + 1].tasks[u].LeaseClosed? && run[k + 1].tasks[u].engine == h ==> run[k + 1].tasks[u].acknowledged)
  {
    GrantNeedsReadyEngine(cfg, run, k, t);
    RunKeepsInv(cfg, run, k + 1);
    assert TaskAgrees(cfg, run[k + 1], run[k + 1].tasks[u]);
    assert TaskAgrees(cfg, run[k + 1], run[k + 1].tasks[t]);
  }

  /** The acknowledgement of a closed lease is a true answer of `wait_idle`. */
  lemma AcknowledgedOnlyWhenIdle(cfg: GatewayConfig, s: State, a: Action, t: Task)
    requires Inv(cfg, s) && Step(cfg, s, a).Some? && t < |s.tasks| <= |Step(cfg, s, a).value.tasks|
    requires var pc := Step(cfg, s, a).value.tasks[t]; pc.LeaseClosed? && pc.acknowledged && s.tasks[t] != pc
    ensures a == IdleResult(t, true) && s.tasks[t] == ClosingIdle(Step(cfg, s, a).value.tasks[t].engine)
  {
    StepKeepsInv(cfg, s, a);
    assert PcEvolves(s, Step(cfg, s, a).value, t, s.tasks[t], Step(cfg, s, a).value.tasks[t]);
    OnlyItsOwnSteps(cfg, s, a, t);
    IdleAnswerCloses(cfg, s, a, t);
  }

  /** A task moves only in a step of its own. */
  lemma OnlyItsOwnSteps(cfg: GatewayConfig, s: State, a: Action, t: Task)
    requires Inv(cfg, s) && Step(cfg, s, a).Some? && t < |s.tasks| <= |Step(cfg, s, a).value.tasks|
    requires Step(cfg, s, a).value.tasks[t] != s.tasks[t]
    ensures OfTask(a) && a.task == t
  {
    if OfTask(a) {
      InvImpliesHere(cfg, s, a.task);
      TaskStepMoves(cfg, s, a, a.task);
    }
  }

  lemma IdleAnswerCloses(cfg: GatewayConfig, s: State, a: Action, t: Task)
    requires OfTask(a) && t < |s.tasks| && s.tasks[t].ClosingIdle? && TaskStep(cfg, s, a, t, s.tasks[t]).Some?
    requires t < |TaskStep(cfg, s, a, t, s.tasks[t]).value.tasks|
    requires TaskStep(cfg, s, a, t, s.tasks[t]).value.tasks[t] == LeaseClosed(s.tasks[t].engine, true)
    ensures a.IdleResult? && a.idle
  {}

  // ----- admission

  /** `queue_depth` counts the acquires in flight and stays within the configured bound. */
  lemma AdmissionBound(cfg: GatewayConfig, run: seq<State>, k: nat)
    requires IsRun(cfg, run) && k < |run|
    ensures run[k].queueDepth == Count(InAcquire, run[k].tasks)
    ensures run[k].queueDepth <= cfg.maxQueueSize + 1
    ensures (exists t :: 0 <= t < |run[k].tasks| && IsLease(run[k].tasks[t])) ==> run[k].queueDepth <= cfg.maxQueueSize
  {
    RunKeepsInv(cfg, run, k);
    if t :| 0 <= t < |run[k].tasks| && IsLease(run[k].tasks[t]) {
      assert Owns(run[k].tasks[t]);
    }
  }

  // ----- generations

  /** Two serving snapshots with one generation saw one engine, and in between it was neither given
      up nor replaced nor even out of service. */
  lemma {:induction false} GenerationIdentifiesEngine(cfg: GatewayConfig, run: seq<State>, i: nat, j: nat)
    requires IsRun(cfg, run) && i <= j < |run|
    ensures run[i].generation <= run[j].generation
    ensures Serving(run[j]) && run[i].generation == run[j].generation ==>
              forall k :: i <= k <= j ==> Serving(run[k]) && run[k].engine == run[j].engine
                                          && run[k].generation == run[j].generation
  {
    if i < j {
      RunEvolves(cfg, run, j - 1);
      GenerationIdentifiesEngine(cfg, run, i, j - 1);
    }
  }

  // ----- shutdown

  lemma {:induction false} DonePersists(cfg: GatewayConfig, run: seq<State>, i: nat, j: nat, t: Task)
    requires IsRun(cfg, run) && i <= j < |run| && t < |run[i].tasks| && Done(run[i].tasks[t])
    ensures t < |run[j].tasks| && run[j].tasks[t] == run[i].tasks[t]
  {
    if i < j {
      DonePersists(cfg, run, i, j - 1, t);
      RunEvolves(cfg, run, j - 1);
      assert PcEvolves(run[j - 1], run[j], t, run[j - 1].tasks[t], run[j].tasks[t]);
    }
  }

  /** Once a shutdown has returned normally there is no engine, no live process and no start, ever after. */
  lemma ShutdownIsFinal(cfg: GatewayConfig, run: seq<State>, i: nat, j: nat, t: Task)
    requires IsRun(cfg, run) && i <= j < |run|
    requires t < |run[i].tasks| && run[i].tasks[t] == ShutdownDone(true)
    ensures run[j].engine.None?
    ensures forall h :: 0 <= h < |run[j].processes| ==> !run[j].processes[h].alive
    ensures forall u :: 0 <= u < |run[j].tasks| ==> !IsStarting(run[j].tasks[u]) && !IsLease(run[j].tasks[u])
  {
    DonePersists(cfg, run, i, j, t);
    RunKeepsInv(cfg, run, j);
    var s := run[j];
    forall u | 0 <= u < |s.tasks| ensures !IsStarting(s.tasks[u]) && !IsLease(s.tasks[u]) {
      assert Owns(s.tasks[u]) ==> s.holder == Some(u);
    }
  }
}
