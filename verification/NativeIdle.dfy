/** What an idle acknowledgement of the cooperative engine means: the native queue and its worker,
    the status report sampled from them, and the gateway's poll of that report. */
module NativeIdle {
  import opened Wrappers

  /** A queued or running generation. */
  type Job = nat

  function BusyCount(slots: seq<bool>): nat {
    if slots == [] then 0 else BusyCount(slots[..|slots| - 1]) + (if slots[|slots| - 1] then 1 else 0)
  }

  lemma {:induction false} NoneBusy(slots: seq<bool>)
    ensures BusyCount(slots) == 0 <==> forall i :: 0 <= i < |slots| ==> !slots[i]
  {
    if slots != [] {
      var front := slots[..|slots| - 1];
      NoneBusy(front);
      assert forall i :: 0 <= i < |front| ==> front[i] == slots[i];
    }
  }

  /** The two counters of a status report. */
  datatype Report = Report(active: int, queued: int)

  /** What one mutex-protected look at the server sees, with the job the worker holds. */
  datatype Snapshot = Snapshot(queue: seq<Job>, slots: seq<bool>, clients: int, inHand: Option<Job>)
  {
    /** The worker never holds a job without its slot being marked. */
    predicate Consistent() {
      |slots| > 0 && clients >= 0 && (inHand.Some? ==> slots[0])
    }

    predicate Quiet() {
      queue == [] && inHand == None && forall i :: 0 <= i < |slots| ==> !slots[i]
    }

    function Sample(): Report {
      var active, busy := clients - 1 - |queue|, BusyCount(slots);
      Report(if active < busy then busy else active, |queue|)
    }
  }

  /** Both counters are zero exactly when the server is quiet and only the asking client is left. */
  lemma ZeroReportMeansQuiet(s: Snapshot)
    requires s.Consistent()
    ensures s.Sample() == Report(0, 0) <==> s.Quiet() && s.clients <= 1
  {
    NoneBusy(s.slots);
  }

  // ----- the server as a state machine: its mutex-protected sections are its steps

  datatype ServerAction = Connect | Disconnect | Enqueue(job: Job) | Dequeue | Finish

  function ServerStep(s: Snapshot, a: ServerAction): Option<Snapshot> {
    match a
    case Connect => Some(s.(clients := s.clients + 1))
    case Disconnect => if s.clients > 0 then Some(s.(clients := s.clients - 1)) else None
    case Enqueue(job) => Some(s.(queue := s.queue + [job]))
    case Dequeue =>
      if s.queue != [] && s.inHand.None? && |s.slots| > 0
      then Some(s.(queue := s.queue[1..], slots := s.slots[0 := true], inHand := Some(s.queue[0]))) else None
    case Finish =>
      if s.inHand.Some? && |s.slots| > 0 then Some(s.(slots := s.slots[0 := false], inHand := None)) else None
  }

  predicate AtRest(s: Snapshot) {
    |s.slots| > 0 && s.clients == 0 && s.Quiet()
  }

  ghost predicate ServerNext(run: seq<Snapshot>, i: nat)
    requires i + 1 < |run|
  {
    exists a :: ServerStep(run[i], a) == Some(run[i + 1])
  }

  ghost predicate IsServerRun(run: seq<Snapshot>) {
    |run| > 0 && AtRest(run[0]) && forall i: nat :: i + 1 < |run| ==> ServerNext(run, i)
  }

  lemma {:induction false} ServerStaysConsistent(run: seq<Snapshot>, k: nat)
    requires IsServerRun(run) && k < |run|
    ensures run[k].Consistent()
  {
    if k > 0 {
      ServerStaysConsistent(run, k - 1);
      assert ServerNext(run, k - 1);
    }
  }

  class NativeServer {
    var queue: seq<Job>
    const slots: array<bool>
    var clients: int
    // the job the worker thread took off the queue and has not finished, housekeeping included
    ghost var inHand: Option<Job>

    ghost function View(): Snapshot
      reads this, slots
    {
      Snapshot(queue, slots[..], clients, inHand)
    }

    ghost predicate Valid()
      reads this, slots
    {
      View().Consistent()
    }

    constructor (slotCount: nat)
      requires slotCount > 0
      ensures Valid() && fresh(slots) && AtRest(View())
    {
      queue := [];
      slots := new bool[slotCount](_ => false);
      clients := 0;
      inHand := None;
    }

    method Connect()
      requires Valid()
      modifies this`clients
      ensures Valid() && clients == old(clients) + 1 && Some(View()) == ServerStep(old(View()), ServerAction.Connect)
    {
      clients := clients + 1;
    }

    /** A client thread ends, whatever became of its job. */
    method Disconnect()
      requires Valid() && clients > 0
      modifies this`clients
      ensures Valid() && clients == old(clients) - 1 && Some(View()) == ServerStep(old(View()), ServerAction.Disconnect)
    {
      clients := clients - 1;
    }

    method Enqueue(job: Job)
      requires Valid()
      modifies this`queue
      ensures Valid() && queue == old(queue) + [job] && Some(View()) == ServerStep(old(View()), ServerAction.Enqueue(job))
    {
      queue := queue + [job];
    }

    /** The worker takes the oldest job; the slot is marked in the same critical section. */
    method Dequeue() returns (job: Job)
      requires Valid() && queue != [] && inHand == None
      modifies this`queue, this`inHand, slots
      ensures Valid() && [job] + queue == old(queue) && inHand == Some(job)
      ensures slots[..] == old(slots[..])[0 := true] && Some(View()) == ServerStep(old(View()), ServerAction.Dequeue)
    {
      job := queue[0];
      queue := queue[1..];
      slots[0] := true;
      inHand := Some(job);
    }

    /** The worker is done with the job and its checkpoint housekeeping. */
    method Finish()
      requires Valid() && inHand.Some?
      modifies this`inHand, slots
      ensures Valid() && inHand == None && slots[..] == old(slots[..])[0 := false]
      ensures Some(View()) == ServerStep(old(View()), ServerAction.Finish)
    {
      inHand := None;
      slots[0] := false;
    }

    /** The status report, counted by two loops under the mutex. */
    method Status() returns (r: Report)
      requires Valid()
      ensures r == View().Sample()
    {
      var queued, busy := 0, 0;
      while queued < |queue|
        invariant queued <= |queue|
      {
        queued := queued + 1;
      }
      for i := 0 to slots.Length
        invariant busy == BusyCount(slots[..i])
      {
        assert slots[..i + 1][..i] == slots[..i];
        busy := busy + (if slots[i] then 1 else 0);
      }
      assert slots[..slots.Length] == slots[..];
      var active := clients - 1 - queued;
      if active < busy {
        active := busy;
      }
      r := Report(active, queued);
    }
  }

  /** One answer to the gateway's poll, and whether the process ran right after it. */
  datatype Poll =
    | Answer(statusOk: bool, active: Option<int>, queued: Option<int>, running: bool)
    | TransportError

  /** The poll goes on after this answer: well formed, and still busy. */
  predicate KeepsPolling(p: Poll) {
    && p.Answer? && p.statusOk && p.active.Some? && p.queued.Some? && p.active.value >= 0 && p.queued.value >= 0
    && !(p.active.value == 0 && p.queued.value == 0)
  }

  predicate Idle(p: Poll) {
    p == Answer(true, Some(0), Some(0), true)
  }

  /** Some answer reports a running, empty engine, and every answer before it was well formed and busy. */
  ghost predicate BecomesIdle(polls: seq<Poll>) {
    exists k :: 0 <= k < |polls| && Idle(polls[k]) && forall i :: 0 <= i < k ==> KeepsPolling(polls[i])
  }

  /** `wait_idle`.  The answers stop where the deadline strikes. */
  method WaitIdle(running: bool, hasUrl: bool, timeout: real, polls: seq<Poll>) returns (idle: bool)
    ensures idle <==> running && hasUrl && timeout > 0.0 && BecomesIdle(polls)
  {
    if !running || !hasUrl || timeout <= 0.0 {
      return false;
    }
    for k := 0 to |polls|
      invariant forall i :: 0 <= i < k ==> KeepsPolling(polls[i])
    {
      var p := polls[k];
      if p.TransportError? || !p.statusOk {
        return false;
      }
      if p.active.None? || p.queued.None? || p.active.value < 0 || p.queued.value < 0 {
        return false;
      }
      if p.active.value == 0 && p.queued.value == 0 {
        return p.running;
      }
    }
    return false;
  }

  /** `p` answers with what the server looked like at `s`. */
  predicate Reports(p: Poll, s: Snapshot) {
    p.Answer? ==> p.active == Some(s.Sample().active) && p.queued == Some(s.Sample().queued)
  }

  /** What a true `wait_idle` says about consistent states of the server its polls report: at the
      answering poll nothing was queued, no slot was busy, the worker held no job and at most the
      asking client was connected; and it was the first poll that could see that. */
  lemma AnswerMeansQuiet(polls: seq<Poll>, seen: seq<Snapshot>) returns (k: nat)
    requires |seen| == |polls| && BecomesIdle(polls)
    requires forall i :: 0 <= i < |polls| ==> seen[i].Consistent() && Reports(polls[i], seen[i])
    ensures k < |polls| && Idle(polls[k]) && seen[k].Quiet() && seen[k].clients <= 1
    ensures forall i :: 0 <= i < k ==> !(seen[i].Quiet() && seen[i].clients <= 1)
  {
    k :| 0 <= k < |polls| && Idle(polls[k]) && forall i :: 0 <= i < k ==> KeepsPolling(polls[i]);
    ZeroReportMeansQuiet(seen[k]);
    forall i | 0 <= i < k ensures !(seen[i].Quiet() && seen[i].clients <= 1) {
      ZeroReportMeansQuiet(seen[i]);
      assert KeepsPolling(polls[i]);
    }
  }

  /** The polls of one `wait_idle`, and the moments of the server's run they report. */
  datatype Watch = Watch(server: seq<Snapshot>, polls: seq<Poll>, at: seq<nat>)

  ghost predicate Observed(w: Watch) {
    && IsServerRun(w.server) && |w.at| == |w.polls|
    && (forall k :: 0 <= k < |w.at| ==> w.at[k] < |w.server| && Reports(w.polls[k], w.server[w.at[k]]))
    && (forall i, k :: 0 <= i < k < |w.at| ==> w.at[i] <= w.at[k])
  }

  /** At poll `k` the server had no work, and no client but the asking one was connected. */
  ghost predicate QuietAt(w: Watch, k: nat) {
    k < |w.at| && w.at[k] < |w.server| && w.server[w.at[k]].Quiet() && w.server[w.at[k]].clients <= 1
  }

  /** So it is in every run of the server. */
  lemma AcknowledgementMeansQuiet(w: Watch)
    requires Observed(w) && BecomesIdle(w.polls)
    ensures exists k :: 0 <= k < |w.polls| && QuietAt(w, k) && Idle(w.polls[k])
                        && forall i :: 0 <= i < k ==> !QuietAt(w, i)
  {
    var seen := seq(|w.polls|, i requires 0 <= i < |w.polls| => w.server[w.at[i]]);
    forall i | 0 <= i < |w.polls| ensures seen[i].Consistent() && Reports(w.polls[i], seen[i]) {
      ServerStaysConsistent(w.server, w.at[i]);
    }
    var k := AnswerMeansQuiet(w.polls, seen);
    assert QuietAt(w, k);
  }
}
