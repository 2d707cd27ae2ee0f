/** The runtime and the native server of one cooperative process together: when a lease is granted on
    the process, no work of an earlier lease is queued, running or still to come. */
module RuntimeQuiescence {
  import opened Wrappers
  import opened Config
  import opened RuntimeModel
  import opened RuntimeInvariants
  import opened RuntimeProofs
  import opened RuntimeTheorems
  import Native = NativeIdle

  /** The runtime, the native server of process `h`, and how many connected clients may still submit
      a job there. */
  datatype Joint = Joint(gateway: State, server: Native.Snapshot, submitters: int)
  {
    /** Nothing is queued, running or in hand, and nobody can submit. */
    predicate Silent() { server.Quiet() && submitters == 0 }

    /** A client that asks for the status, and submits nothing, is connected. */
    predicate AskerConnected() { submitters < server.clients }
  }

  /** The engine a task's lease is on. */
  predicate LeaseOn(pc: Pc, h: Handle) {
    (pc.Leased? && pc.engine == h) || pc == ClosingIdle(h) || pc == Stopping(StopForClose(h))
  }

  ghost predicate Serves(s: State, h: Handle) {
    exists t :: 0 <= t < |s.tasks| && s.tasks[t].Leased? && s.tasks[t].engine == h
  }

  // ----- joint runs

  /** What a server step does to the clients that may submit.  Such a client connects only while a
      request is served under a lease on `h`, and a submission takes one. */
  ghost predicate SubmittersMove(h: Handle, j: Joint, j': Joint, a: Native.ServerAction) {
    match a
    case Connect => j'.submitters == j.submitters || (j'.submitters == j.submitters + 1 && Serves(j.gateway, h))
    case Disconnect => j.submitters - 1 <= j'.submitters <= j.submitters && 0 <= j'.submitters <= j'.server.clients
    case Enqueue(_) => j.submitters > 0 && j'.submitters == j.submitters - 1
    case _ => j'.submitters == j.submitters
  }

  ghost predicate ServerMoves(h: Handle, j: Joint, j': Joint) {
    && j'.gateway == j.gateway
    && exists a :: Native.ServerStep(j.server, a) == Some(j'.server) && SubmittersMove(h, j, j', a)
  }

  ghost predicate GatewayMoves(cfg: GatewayConfig, j: Joint, j': Joint) {
    Next(cfg, j.gateway, j'.gateway) && j'.server == j.server && j'.submitters == j.submitters
  }

  ghost predicate JointStep(cfg: GatewayConfig, h: Handle, run: seq<Joint>, i: nat)
    requires i + 1 < |run|
  {
    GatewayMoves(cfg, run[i], run[i + 1]) || ServerMoves(h, run[i], run[i + 1])
  }

  /** From moment `m` to moment `i` task `u` awaits the idle answer of `h`. */
  ghost predicate Awaits(run: seq<Joint>, h: Handle, u: Task, m: nat, i: nat) {
    forall q :: m <= q <= i && q < |run| ==> AwaitsAt(run[q], h, u)
  }

  predicate AwaitsAt(j: Joint, h: Handle, u: Task) {
    u < |j.gateway.tasks| && j.gateway.tasks[u] == ClosingIdle(h)
  }

  /** In step `i` the closing lease of `u` on `h` receives a true idle answer. */
  ghost predicate AnsweredIdle(run: seq<Joint>, h: Handle, u: Task, i: nat)
    requires i + 1 < |run|
  {
    && AwaitsAt(run[i], h, u)
    && u < |run[i + 1].gateway.tasks| && run[i + 1].gateway.tasks[u] == LeaseClosed(h, true)
  }

  /** The polls behind such an answer: each reports the server at a moment of this very wait at which
      the asking client is connected, and `wait_idle` makes a true answer of them. */
  ghost predicate Polled(run: seq<Joint>, h: Handle, u: Task, i: nat, polls: seq<Native.Poll>, at: seq<nat>) {
    && |at| == |polls| && Native.BecomesIdle(polls)
    && forall k :: 0 <= k < |at| ==>
         at[k] <= i && at[k] < |run| && Awaits(run, h, u, at[k], i)
         && run[at[k]].AskerConnected() && Native.Reports(polls[k], run[at[k]].server)
  }

  ghost predicate AnswerBacked(run: seq<Joint>, h: Handle, u: Task, i: nat)
    requires i + 1 < |run|
  {
    AnsweredIdle(run, h, u, i) ==> exists polls, at :: Polled(run, h, u, i, polls, at)
  }

  ghost predicate IsJointRun(cfg: GatewayConfig, h: Handle, run: seq<Joint>) {
    && |run| > 0 && (exists selected :: run[0].gateway == Initial(selected))
    && Native.AtRest(run[0].server) && run[0].submitters == 0
    && (forall i: nat :: i + 1 < |run| ==> JointStep(cfg, h, run, i))
    && (forall i: nat, u: Task :: i + 1 < |run| ==> AnswerBacked(run, h, u, i))
  }

  // ----- silence

  lemma NobodyServes(cfg: GatewayConfig, s: State, h: Handle, u: Task)
    requires Inv(cfg, s) && u < |s.tasks| && s.tasks[u] == ClosingIdle(h)
    ensures !Serves(s, h)
  {
    assert Owns(s.tasks[u]);
  }

  /** Silence lasts while no request is served on `h`. */
  lemma SilenceLasts(h: Handle, j: Joint, j': Joint)
    requires ServerMoves(h, j, j') && j.Silent() && !Serves(j.gateway, h)
    ensures j'.Silent()
  {}

  ghost predicate Sane(cfg: GatewayConfig, j: Joint) {
    Inv(cfg, j.gateway) && j.server.Consistent() && 0 <= j.submitters <= j.server.clients
  }

  lemma ServerStaysSane(cfg: GatewayConfig, h: Handle, j: Joint, j': Joint)
    requires ServerMoves(h, j, j') && Sane(cfg, j)
    ensures Sane(cfg, j')
  {}

  lemma GatewayStaysSane(cfg: GatewayConfig, j: Joint, j': Joint)
    requires GatewayMoves(cfg, j, j') && Sane(cfg, j)
    ensures Sane(cfg, j')
  {
    NextKeepsInv(cfg, j.gateway, j'.gateway);
  }

  lemma StartsSane(cfg: GatewayConfig, h: Handle, run: seq<Joint>)
    requires IsJointRun(cfg, h, run)
    ensures Sane(cfg, run[0]) && Accounted(run[0], h)
  {
    var selected :| run[0].gateway == Initial(selected);
    InitialInv(cfg, selected);
  }

  lemma {:induction false} RunStaysSane(cfg: GatewayConfig, h: Handle, run: seq<Joint>, k: nat)
    requires IsJointRun(cfg, h, run) && k < |run|
    ensures Sane(cfg, run[k])
  {
    if k == 0 {
      StartsSane(cfg, h, run);
    } else {
      RunStaysSane(cfg, h, run, k - 1);
      StepStaysSane(cfg, h, run, k - 1);
    }
  }

  lemma StepStaysSane(cfg: GatewayConfig, h: Handle, run: seq<Joint>, i: nat)
    requires IsJointRun(cfg, h, run) && i + 1 < |run| && Sane(cfg, run[i])
    ensures Sane(cfg, run[i + 1])
  {
    assert JointStep(cfg, h, run, i);
    if GatewayMoves(cfg, run[i], run[i + 1]) {
      GatewayStaysSane(cfg, run[i], run[i + 1]);
    } else {
      ServerStaysSane(cfg, h, run[i], run[i + 1]);
    }
  }

  lemma SilentStep(cfg: GatewayConfig, h: Handle, run: seq<Joint>, u: Task, q: nat)
    requires IsJointRun(cfg, h, run) && q + 1 < |run| && run[q].Silent() && AwaitsAt(run[q], h, u)
    ensures run[q + 1].Silent()
  {
    RunStaysSane(cfg, h, run, q);
    NobodyServes(cfg, run[q].gateway, h, u);
    assert JointStep(cfg, h, run, q);
    if !GatewayMoves(cfg, run[q], run[q + 1]) {
      SilenceLasts(h, run[q], run[q + 1]);
    }
  }

  /** Once silent during the wait of a closing lease, silent to its end. */
  lemma {:induction false} SilentToTheEnd(cfg: GatewayConfig, h: Handle, run: seq<Joint>, u: Task, m: nat, i: nat)
    requires IsJointRun(cfg, h, run) && m <= i && i + 1 < |run| && Awaits(run, h, u, m, i) && run[m].Silent()
    ensures run[i + 1].Silent()
    decreases i - m
  {
    assert AwaitsAt(run[m], h, u);
    SilentStep(cfg, h, run, u, m);
    if m < i {
      SilentToTheEnd(cfg, h, run, u, m + 1, i);
    }
  }

  /** A true idle answer leaves the server silent. */
  lemma AnswerMeansSilent(cfg: GatewayConfig, h: Handle, run: seq<Joint>, u: Task, i: nat)
    requires IsJointRun(cfg, h, run) && i + 1 < |run| && AnsweredIdle(run, h, u, i)
    ensures run[i + 1].Silent()
  {
    assert AnswerBacked(run, h, u, i);
    var polls, at :| Polled(run, h, u, i, polls, at);
    var seen := seq(|polls|, k requires 0 <= k < |polls| => run[at[k]].server);
    forall k | 0 <= k < |polls| ensures seen[k].Consistent() && Native.Reports(polls[k], seen[k]) {
      RunStaysSane(cfg, h, run, at[k]);
    }
    var k := Native.AnswerMeansQuiet(polls, seen);
    RunStaysSane(cfg, h, run, at[k]);
    SilentToTheEnd(cfg, h, run, u, at[k], i);
  }

  // ----- the joint invariant

  ghost predicate Leasing(s: State, h: Handle) {
    exists t :: 0 <= t < |s.tasks| && LeaseOn(s.tasks[t], h)
  }

  /** Some lease on `h` was closed without an idle answer. */
  ghost predicate Unacknowledged(s: State, h: Handle) {
    exists t :: 0 <= t < |s.tasks| && s.tasks[t] == LeaseClosed(h, false)
  }

  ghost predicate Accounted(j: Joint, h: Handle) {
    Leasing(j.gateway, h) || Unacknowledged(j.gateway, h) || j.Silent()
  }

  /** A lease stays on its engine until it is closed there. */
  lemma LeaseStaysOn(cfg: GatewayConfig, s: State, a: Action, t: Task, h: Handle)
    requires OfTask(a) && t < |s.tasks| && LeaseOn(s.tasks[t], h) && TaskStep(cfg, s, a, t, s.tasks[t]).Some? && s.Locked()
    ensures var s' := TaskStep(cfg, s, a, t, s.tasks[t]).value;
            t < |s'.tasks| && (LeaseOn(s'.tasks[t], h) || (s'.tasks[t].LeaseClosed? && s'.tasks[t].engine == h))
  {}

  lemma LeaseGoesOn(cfg: GatewayConfig, s: State, s': State, t: Task, h: Handle)
    requires Inv(cfg, s) && Next(cfg, s, s') && t < |s.tasks| && LeaseOn(s.tasks[t], h)
    ensures t < |s'.tasks| && (LeaseOn(s'.tasks[t], h) || (s'.tasks[t].LeaseClosed? && s'.tasks[t].engine == h))
    ensures s'.tasks[t] == LeaseClosed(h, true) ==> s.tasks[t] == ClosingIdle(h)
  {
    NextKeepsInv(cfg, s, s');
    assert PcEvolves(s, s', t, s.tasks[t], s'.tasks[t]);
    var a :| Step(cfg, s, a) == Some(s');
    if s'.tasks[t] != s.tasks[t] {
      OnlyItsOwnSteps(cfg, s, a, t);
      assert Owns(s.tasks[t]);
      LeaseStaysOn(cfg, s, a, t, h);
    }
  }

  lemma UnacknowledgedStays(cfg: GatewayConfig, s: State, s': State, h: Handle)
    requires Inv(cfg, s) && Next(cfg, s, s') && Unacknowledged(s, h)
    ensures Unacknowledged(s', h)
  {
    NextKeepsInv(cfg, s, s');
    var t :| 0 <= t < |s.tasks| && s.tasks[t] == LeaseClosed(h, false);
    assert PcEvolves(s, s', t, s.tasks[t], s'.tasks[t]);
  }

  lemma LeasingIsAccounted(cfg: GatewayConfig, h: Handle, run: seq<Joint>, i: nat)
    requires IsJointRun(cfg, h, run) && i + 1 < |run| && Inv(cfg, run[i].gateway) && Leasing(run[i].gateway, h)
    requires GatewayMoves(cfg, run[i], run[i + 1])
    ensures Accounted(run[i + 1], h)
  {
    var s, s' := run[i].gateway, run[i + 1].gateway;
    var t :| 0 <= t < |s.tasks| && LeaseOn(s.tasks[t], h);
    LeaseGoesOn(cfg, s, s', t, h);
    if s'.tasks[t] == LeaseClosed(h, true) {
      AnswerMeansSilent(cfg, h, run, t, i);
    } else if s'.tasks[t].LeaseClosed? {
      assert s'.tasks[t] == LeaseClosed(h, false);
    }
  }

  lemma ServerIsAccounted(h: Handle, j: Joint, j': Joint)
    requires ServerMoves(h, j, j') && Accounted(j, h)
    ensures Accounted(j', h)
  {
    if Serves(j.gateway, h) {
      var t :| 0 <= t < |j.gateway.tasks| && j.gateway.tasks[t].Leased? && j.gateway.tasks[t].engine == h;
      assert LeaseOn(j'.gateway.tasks[t], h);
    } else if j.Silent() {
      SilenceLasts(h, j, j');
    }
  }

  lemma StepIsAccounted(cfg: GatewayConfig, h: Handle, run: seq<Joint>, i: nat)
    requires IsJointRun(cfg, h, run) && i + 1 < |run| && Inv(cfg, run[i].gateway) && Accounted(run[i], h)
    ensures Accounted(run[i + 1], h)
  {
    assert JointStep(cfg, h, run, i);
    if !GatewayMoves(cfg, run[i], run[i + 1]) {
      ServerIsAccounted(h, run[i], run[i + 1]);
    } else if Leasing(run[i].gateway, h) {
      LeasingIsAccounted(cfg, h, run, i);
    } else if Unacknowledged(run[i].gateway, h) {
      UnacknowledgedStays(cfg, run[i].gateway, run[i + 1].gateway, h);
    }
  }

  /** In every state a lease on `h` is out, or one was closed without an idle answer, or the server
      is silent. */
  lemma {:induction false} WorkIsAccountedFor(cfg: GatewayConfig, h: Handle, run: seq<Joint>, k: nat)
    requires IsJointRun(cfg, h, run) && k < |run|
    ensures Accounted(run[k], h)
  {
    if k == 0 {
      StartsSane(cfg, h, run);
    } else {
      WorkIsAccountedFor(cfg, h, run, k - 1);
      RunStaysSane(cfg, h, run, k - 1);
      StepIsAccounted(cfg, h, run, k - 1);
    }
  }

  /** A lease on a cooperative `h` is granted in this step. */
  ghost predicate GrantsOn(s: State, s': State, t: Task, h: Handle) {
    && t < |s.tasks| && t < |s'.tasks| && !s.tasks[t].Leased? && s'.tasks[t].Leased? && s'.tasks[t].engine == h
    && h < |s'.processes| && s'.processes[h].cooperative
  }

  /** At that moment no lease on `h` is out and none was closed without an idle answer. */
  lemma GrantMeansAcknowledged(cfg: GatewayConfig, s: State, s': State, t: Task, h: Handle)
    requires Inv(cfg, s) && Next(cfg, s, s') && GrantsOn(s, s', t, h)
    ensures !Leasing(s, h) && !Unacknowledged(s, h)
  {
    NextKeepsInv(cfg, s, s');
    assert PcEvolves(s, s', t, s.tasks[t], s'.tasks[t]);
    assert TaskAgrees(cfg, s', s'.tasks[t]);
    forall u | 0 <= u < |s.tasks| ensures !LeaseOn(s.tasks[u], h) {
      assert LeaseOn(s.tasks[u], h) ==> Owns(s.tasks[u]);
    }
    forall u | 0 <= u < |s.tasks| ensures s.tasks[u] != LeaseClosed(h, false) {
      assert PcEvolves(s, s', u, s.tasks[u], s'.tasks[u]);
      assert s.tasks[u] == LeaseClosed(h, false) ==> TaskAgrees(cfg, s', LeaseClosed(h, false));
    }
  }

  /** When a lease is granted on a cooperative process, its server is silent in that very state:
      nothing is queued, running or in hand, and no client may still submit. */
  lemma NoWorkLeftOver(cfg: GatewayConfig, h: Handle, run: seq<Joint>, i: nat, t: Task)
    requires IsJointRun(cfg, h, run) && i + 1 < |run| && GrantsOn(run[i].gateway, run[i + 1].gateway, t, h)
    ensures run[i].Silent() && run[i + 1].Silent()
  {
    WorkIsAccountedFor(cfg, h, run, i);
    RunStaysSane(cfg, h, run, i);
    assert JointStep(cfg, h, run, i);
    GrantMeansAcknowledged(cfg, run[i].gateway, run[i + 1].gateway, t, h);
  }
}
