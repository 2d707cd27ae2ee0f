/** Which live processes belong to a running fetch or conversion: the seeds whose command names a
    plan path, their descendants, and their supervisors. */
module ProcessClosure {

  type Pid = int

  datatype Entry = Entry(parent: Pid, command: string)

  type Table = map<Pid, Entry>

  /** The processes whose own command names a plan path and a stage, litmoe itself excepted. */
  function Seeds(table: Table, own: Pid, matches: string -> bool): set<Pid> {
    set pid | pid in table && pid != own && matches(table[pid].command)
  }

  /** The parent chain of `pid` meets a seed within `n` steps, before it meets litmoe or leaves the table. */
  predicate MeetsSeed(table: Table, own: Pid, seeds: set<Pid>, pid: Pid, n: nat)
    decreases n
  {
    pid in table && (pid in seeds || (n > 0 && pid != own && MeetsSeed(table, own, seeds, table[pid].parent, n - 1)))
  }

  ghost predicate Descends(table: Table, own: Pid, seeds: set<Pid>, pid: Pid) {
    exists n: nat :: MeetsSeed(table, own, seeds, pid, n)
  }

  /** Walking up from `pid` may go on: a known process that is neither litmoe nor process 1. */
  predicate Climbs(table: Table, own: Pid, pid: Pid) {
    pid in table && pid != own && pid != 1
  }

  /** `above` is reached from `pid` by at most `n` parent steps, passing only processes that climb. */
  predicate ReachedUp(table: Table, own: Pid, pid: Pid, above: Pid, n: nat)
    decreases n
  {
    Climbs(table, own, pid) && (pid == above || (n > 0 && ReachedUp(table, own, table[pid].parent, above, n - 1)))
  }

  /** `above` is on the way up from `pid`, `pid` included. */
  ghost predicate Up(table: Table, own: Pid, pid: Pid, above: Pid) {
    exists n: nat :: ReachedUp(table, own, pid, above, n)
  }

  /** `above` is a supervisor of `seed`: on the way up from its parent. */
  ghost predicate Supervises(table: Table, own: Pid, seed: Pid, above: Pid)
    requires seed in table
  {
    Up(table, own, table[seed].parent, above)
  }

  /** `pid` and the `n` processes above it all climb: the climb from `pid` makes more than `n` steps. */
  predicate ClimbsOn(table: Table, own: Pid, pid: Pid, n: nat)
    decreases n
  {
    Climbs(table, own, pid) && (n == 0 || ClimbsOn(table, own, table[pid].parent, n - 1))
  }

  /** The climb from `pid` ends after some number of steps. */
  ghost predicate ClimbEnds(table: Table, own: Pid, pid: Pid) {
    exists n: nat :: !ClimbsOn(table, own, pid, n)
  }

  lemma {:induction false} UpFurther(table: Table, own: Pid, pid: Pid, p: Pid, n: nat)
    requires ReachedUp(table, own, pid, p, n) && p in table && Climbs(table, own, table[p].parent)
    ensures ReachedUp(table, own, pid, table[p].parent, n + 1)
    decreases n
  {
    if pid != p {
      UpFurther(table, own, table[pid].parent, p, n - 1);
    } else {
      assert ReachedUp(table, own, table[p].parent, table[p].parent, n);
    }
  }

  lemma UpToParent(table: Table, own: Pid, pid: Pid, p: Pid)
    requires Up(table, own, pid, p) && p in table && Climbs(table, own, table[p].parent)
    ensures Up(table, own, pid, table[p].parent)
  {
    var n: nat :| ReachedUp(table, own, pid, p, n);
    UpFurther(table, own, pid, p, n);
  }

  /** A climb below a process that is above itself goes on and on. */
  lemma {:induction false} CycleClimbsOn(table: Table, own: Pid, p: Pid, round: nat, pid: Pid, m: nat, n: nat)
    requires p in table && ReachedUp(table, own, table[p].parent, p, round) && ReachedUp(table, own, pid, p, m)
    ensures ClimbsOn(table, own, pid, n)
    decreases n
  {
    if n > 0 {
      if pid == p {
        CycleClimbsOn(table, own, p, round, table[p].parent, round, n - 1);
      } else {
        CycleClimbsOn(table, own, p, round, table[pid].parent, m - 1, n - 1);
      }
    }
  }

  /** `p` is above itself: a cycle of parents that avoids litmoe and process 1. */
  ghost predicate AboveItself(table: Table, own: Pid, p: Pid) {
    p in table && Up(table, own, table[p].parent, p)
  }

  /** A climb that makes as many steps as the table has processes left meets one it passed before. */
  lemma {:induction false} LongClimbFindsCycle(table: Table, own: Pid, start: Pid, walked: set<Pid>, pid: Pid, m: nat)
    returns (p: Pid)
    requires walked <= table.Keys && ClimbsOn(table, own, pid, m) && m >= |table.Keys - walked| && Up(table, own, start, pid)
    requires forall q :: q in walked ==> Up(table, own, table[q].parent, pid)
    ensures Up(table, own, start, p) && AboveItself(table, own, p)
    decreases m
  {
    if pid in walked {
      p := pid;
    } else {
      var further, above := walked + {pid}, table[pid].parent;
      assert pid in table.Keys - walked && table.Keys - walked == (table.Keys - further) + {pid};
      assert ClimbsOn(table, own, above, m - 1) && ReachedUp(table, own, above, above, 0);
      UpToParent(table, own, start, pid);
      forall q | q in further ensures Up(table, own, table[q].parent, above) {
        if q != pid {
          UpToParent(table, own, table[q].parent, pid);
        }
      }
      p := LongClimbFindsCycle(table, own, start, further, above, m - 1);
    }
  }

  /** The climb ends exactly when no process on the way up is above itself. */
  lemma ClimbEndsUnlessCycle(table: Table, own: Pid, pid: Pid)
    ensures ClimbEnds(table, own, pid) <==> !exists p :: Up(table, own, pid, p) && AboveItself(table, own, p)
  {
    if p :| Up(table, own, pid, p) && AboveItself(table, own, p) {
      var m: nat :| ReachedUp(table, own, pid, p, m);
      var round: nat :| ReachedUp(table, own, table[p].parent, p, round);
      forall n: nat ensures ClimbsOn(table, own, pid, n) {
        CycleClimbsOn(table, own, p, round, pid, m, n);
      }
    }
    if !ClimbEnds(table, own, pid) {
      var p := ClimbFindsCycle(table, own, pid);
    }
  }

  lemma ClimbFindsCycle(table: Table, own: Pid, pid: Pid) returns (p: Pid)
    requires ClimbsOn(table, own, pid, |table.Keys|)
    ensures Up(table, own, pid, p) && AboveItself(table, own, p)
  {
    assert ReachedUp(table, own, pid, pid, 0) && table.Keys - {} == table.Keys;
    p := LongClimbFindsCycle(table, own, pid, {}, pid, |table.Keys|);
  }

  /** The climb ends within the size of the table, or never. */
  lemma ClimbEndsSoon(table: Table, own: Pid, pid: Pid)
    ensures ClimbEnds(table, own, pid) <==> !ClimbsOn(table, own, pid, |table.Keys|)
  {
    ClimbEndsUnlessCycle(table, own, pid);
    if ClimbsOn(table, own, pid, |table.Keys|) {
      var p := ClimbFindsCycle(table, own, pid);
    }
  }

  ghost predicate Acyclic(table: Table, own: Pid) {
    forall p :: p in table ==> !AboveItself(table, own, p)
  }

  /** On an acyclic table every climb ends. */
  lemma AcyclicClimbsEnd(table: Table, own: Pid, pid: Pid)
    requires Acyclic(table, own)
    ensures ClimbEnds(table, own, pid)
  {
    ClimbEndsUnlessCycle(table, own, pid);
  }

  /** A table on which the climb from process 10 does not end: 11 and 12 are each other's parents. */
  lemma EndlessClimb(command: string)
    ensures var table := map[10 := Entry(11, command), 11 := Entry(12, command), 12 := Entry(11, command)];
            !ClimbEnds(table, 0, 10) && !Acyclic(table, 0)
  {
    var table := map[10 := Entry(11, command), 11 := Entry(12, command), 12 := Entry(11, command)];
    assert ReachedUp(table, 0, 11, 11, 0) && ReachedUp(table, 0, 12, 11, 1) && ReachedUp(table, 0, 10, 11, 1);
    assert AboveItself(table, 0, 11);
    ClimbEndsUnlessCycle(table, 0, 10);
  }

  // ----- the upward walk with a seen set

  /** A set of known non-seeds that is closed under parents holds no descendant of a seed. */
  lemma {:induction false} ClosedSetMeetsNothing(table: Table, own: Pid, seeds: set<Pid>, walked: set<Pid>, pid: Pid, n: nat)
    requires forall p :: p in walked ==> p in table && p !in seeds && table[p].parent in walked
    requires pid in walked
    ensures !MeetsSeed(table, own, seeds, pid, n)
    decreases n
  {
    if n > 0 {
      ClosedSetMeetsNothing(table, own, seeds, walked, table[pid].parent, n - 1);
    }
  }

  /** One step up does not change whether a seed is met. */
  lemma DescendsByParent(table: Table, own: Pid, seeds: set<Pid>, pid: Pid)
    requires pid in table && pid !in seeds && pid != own
    ensures Descends(table, own, seeds, pid) <==> Descends(table, own, seeds, table[pid].parent)
  {
    if n: nat :| MeetsSeed(table, own, seeds, pid, n) {
      assert MeetsSeed(table, own, seeds, table[pid].parent, n - 1);
    }
    if n: nat :| MeetsSeed(table, own, seeds, table[pid].parent, n) {
      assert MeetsSeed(table, own, seeds, pid, n + 1);
    }
  }

  /** The inner `related`: walk up until a seed, litmoe, the edge of the table or a repetition. */
  method Related(table: Table, own: Pid, seeds: set<Pid>, start: Pid) returns (related: bool)
    requires own !in seeds
    ensures related <==> Descends(table, own, seeds, start)
  {
    var seen: set<Pid> := {};
    var pid := start;
    while pid in table && pid !in seen
      invariant seen <= table.Keys
      invariant forall p :: p in seen ==> p !in seeds && p != own && (table[p].parent in seen || table[p].parent == pid)
      invariant Descends(table, own, seeds, start) <==> Descends(table, own, seeds, pid)
      decreases table.Keys - seen
    {
      if pid in seeds || pid == own {
        if pid in seeds {
          assert MeetsSeed(table, own, seeds, pid, 0);
        } else {
          forall n: nat ensures !MeetsSeed(table, own, seeds, pid, n) {}
        }
        return pid in seeds;
      }
      DescendsByParent(table, own, seeds, pid);
      seen := seen + {pid};
      pid := table[pid].parent;
    }
    if pid in table {
      forall n: nat ensures !MeetsSeed(table, own, seeds, pid, n) {
        ClosedSetMeetsNothing(table, own, seeds, seen, pid, n);
      }
    }
    return false;
  }

  // ----- the climb to the supervisors

  lemma UpByParent(table: Table, own: Pid, pid: Pid, above: Pid)
    requires Climbs(table, own, pid)
    ensures Up(table, own, pid, above) <==> pid == above || Up(table, own, table[pid].parent, above)
  {
    if pid == above {
      assert ReachedUp(table, own, pid, above, 0);
    }
    if n: nat :| ReachedUp(table, own, pid, above, n) {
      assert pid != above ==> ReachedUp(table, own, table[pid].parent, above, n - 1);
    }
    if n: nat :| ReachedUp(table, own, table[pid].parent, above, n) {
      assert ReachedUp(table, own, pid, above, n + 1);
    }
  }

  /** The last loop for one seed.  It has no repetition guard: it is defined exactly when the climb
      from this seed ends. */
  method Supervisors(table: Table, own: Pid, seed: Pid) returns (above: set<Pid>)
    requires seed in table && ClimbEnds(table, own, table[seed].parent)
    ensures forall pid :: pid in above <==> Supervises(table, own, seed, pid)
  {
    above := {};
    var pid := table[seed].parent;
    ghost var left: nat :| !ClimbsOn(table, own, pid, left);
    while pid in table && pid != own && pid != 1
      invariant forall p :: Supervises(table, own, seed, p) <==> p in above || Up(table, own, pid, p)
      invariant !ClimbsOn(table, own, pid, left)
      decreases left
    {
      forall p ensures Up(table, own, pid, p) <==> pid == p || Up(table, own, table[pid].parent, p) {
        UpByParent(table, own, pid, p);
      }
      above := above + {pid};
      pid := table[pid].parent;
      left := left - 1;
    }
    forall p ensures !Up(table, own, pid, p) {}
  }

  // ----- the snapshot

  /** The result, as the documentation describes it. */
  ghost predicate Counts(table: Table, own: Pid, seeds: set<Pid>, pid: Pid) {
    || pid in seeds
    || Descends(table, own, seeds, pid)
    || exists seed :: seed in seeds && seed in table && Supervises(table, own, seed, pid)
  }

  /** The loop over the table; `pids` lists its keys in iteration order. */
  method Descendants(table: Table, pids: seq<Pid>, own: Pid, seeds: set<Pid>) returns (matched: set<Pid>)
    requires own !in seeds && forall pid :: pid in pids <==> pid in table
    ensures forall pid :: pid in matched <==> pid in seeds || Descends(table, own, seeds, pid)
  {
    matched := seeds;
    for i := 0 to |pids|
      invariant forall pid :: pid in matched <==> pid in seeds || (pid in pids[..i] && Descends(table, own, seeds, pid))
    {
      var related := Related(table, own, seeds, pids[i]);
      if related {
        matched := matched + {pids[i]};
      }
      assert pids[..i + 1] == pids[..i] + [pids[i]];
    }
    assert pids[..|pids|] == pids;
    forall pid | Descends(table, own, seeds, pid) ensures pid in table {
      var n: nat :| MeetsSeed(table, own, seeds, pid, n);
    }
  }

  /** `_snapshot_live_processes`, before sorting: exactly the processes that count. */
  method SnapshotLiveProcesses(table: Table, pids: seq<Pid>, own: Pid, matches: string -> bool)
    returns (matched: set<Pid>)
    requires forall pid :: pid in pids <==> pid in table
    requires forall seed :: seed in Seeds(table, own, matches) ==> ClimbEnds(table, own, table[seed].parent)
    ensures forall pid :: pid in matched <==> Counts(table, own, Seeds(table, own, matches), pid)
    ensures forall pid :: pid in matched ==> pid in table && pid != own
    ensures forall pid :: pid in table && pid != own && matches(table[pid].command) ==> pid in matched
    ensures (forall pid :: pid in table && pid != own ==> !matches(table[pid].command)) ==> matched == {}
  {
    var seeds := Seeds(table, own, matches);
    matched := Descendants(table, pids, own, seeds);
    ghost var below := matched;
    for i := 0 to |pids|
      invariant forall pid :: pid in matched <==>
                  pid in below || exists seed :: seed in pids[..i] && seed in seeds && Supervises(table, own, seed, pid)
    {
      assert pids[..i + 1] == pids[..i] + [pids[i]];
      if pids[i] in seeds {
        var above := Supervisors(table, own, pids[i]);
        matched := matched + above;
      }
    }
    assert pids[..|pids|] == pids;
    forall pid ensures pid in matched <==> Counts(table, own, seeds, pid) {}
    OwnNeverCounts(table, own, seeds);
    if seeds == {} {
      NothingWithoutSeeds(table, own);
    }
  }

  lemma NothingWithoutSeeds(table: Table, own: Pid)
    ensures forall pid :: !Counts(table, own, {}, pid)
  {
    forall pid, n: nat ensures !MeetsSeed(table, own, {}, pid, n) {
      NoSeedIsMet(table, own, pid, n);
    }
  }

  lemma {:induction false} NoSeedIsMet(table: Table, own: Pid, pid: Pid, n: nat)
    ensures !MeetsSeed(table, own, {}, pid, n)
    decreases n
  {
    if n > 0 && pid in table {
      NoSeedIsMet(table, own, table[pid].parent, n - 1);
    }
  }

  /** litmoe itself is never reported, nor anything outside the table. */
  lemma OwnNeverCounts(table: Table, own: Pid, seeds: set<Pid>)
    requires own !in seeds && seeds <= table.Keys
    ensures forall pid :: Counts(table, own, seeds, pid) ==> pid != own && pid in table
  {
    forall pid | Counts(table, own, seeds, pid) ensures pid != own && pid in table {
      if Descends(table, own, seeds, pid) {
        var n: nat :| MeetsSeed(table, own, seeds, pid, n);
      } else if pid !in seeds {
        var seed :| seed in seeds && seed in table && Supervises(table, own, seed, pid);
        var n: nat :| ReachedUp(table, own, table[seed].parent, pid, n);
        ReachedClimbs(table, own, table[seed].parent, pid, n);
      }
    }
  }

  /** Neither litmoe nor process 1 is a supervisor, and a seed right below either has none. */
  lemma ClimbStopsBelow(table: Table, own: Pid, seed: Pid, above: Pid)
    requires seed in table && Supervises(table, own, seed, above)
    ensures above != 1 && above != own && above in table
    ensures table[seed].parent != 1 && table[seed].parent != own
  {
    var n: nat :| ReachedUp(table, own, table[seed].parent, above, n);
    ReachedClimbs(table, own, table[seed].parent, above, n);
  }

  lemma {:induction false} ReachedClimbs(table: Table, own: Pid, pid: Pid, above: Pid, n: nat)
    requires ReachedUp(table, own, pid, above, n)
    ensures Climbs(table, own, above)
    decreases n
  {
    if pid != above {
      ReachedClimbs(table, own, table[pid].parent, above, n - 1);
    }
  }
}
