/**
 The job distributor across NUMA nodes (`NumaJobDistributor` in `cpu_backend/worker_pool.{h,cpp}`): a
 constructor that spawns one worker per node and meets them at a barrier, then any sequence of `do_numa_job`
 calls.  Each worker creates its own status word before it arrives at the barrier; until then the word is a
 null pointer, and a step that follows it raises `fault`.
 */
module NumaDistributor {
  import opened Prelude
  import opened Sequences

  datatype Status = Working | Waiting

  datatype WorkerPc =
    | NotSpawned
    | Starting     // about to create its status word
    | Arriving     // about to arrive at ready_bar
    | AtBarrier
    | Polling      // about to load its status
    | Calling      // has seen WORKING, about to call compute_func
    | Storing      // the call has returned

  datatype MainPc =
    | Spawn(i: nat)
    | Arrive
    | MeetAtBarrier
    | Between        // no job under way
    | Store(i: nat)  // compute_func is written; handing out WORKING
    | WaitFor(i: nat)

  datatype State = State(
    n: nat, jobs: nat,                       // numa_count; number of do_numa_job calls
    main: MainPc, job: nat, func: int,       // caller's position, jobs completed, compute_func (as a job number)
    status: seq<Option<Status>>, workers: seq<WorkerPc>,
    arrived: nat,                            // the barrier's count
    who: set<nat>,                           // history: who has arrived; n stands for the constructor
    calls: multiset<(int, int)>,             // history: (function, NUMA index) of every call
    fault: bool, clobbered: bool)

  datatype Action = Main | Worker(i: nat)

  function Init(n: nat, jobs: nat): State {
    State(n, jobs, Spawn(0), 0, -1, seq(n, _ => None), seq(n, _ => NotSpawned), 0, {}, multiset{}, false, false)
  }

  predicate Opened(s: State) { s.arrived == s.n + 1 }

  /** Some worker is in a call of the previous function, or has been told to make one. */
  predicate SomeoneInside(s: State) {
    exists i :: 0 <= i < |s.workers| && (s.workers[i].Calling? || s.workers[i].Storing?
                                         || (i < |s.status| && s.status[i] == Some(Working)))
  }

  function WorkerStep(s: State, i: nat): State
    requires i < |s.workers| && i < |s.status|
  {
    match s.workers[i]
    case NotSpawned => s
    case Starting => s.(status := s.status[i := Some(Waiting)], workers := s.workers[i := Arriving])
    case Arriving => s.(arrived := s.arrived + 1, who := s.who + {i}, workers := s.workers[i := AtBarrier])
    case AtBarrier => if Opened(s) then s.(workers := s.workers[i := Polling]) else s
    case Polling =>
      if s.status[i].None? then s.(fault := true)
      else if s.status[i].value.Working? then s.(workers := s.workers[i := Calling])
      else s
    case Calling => s.(calls := s.calls + multiset{(s.func, i)}, workers := s.workers[i := Storing])
    case Storing =>
      if s.status[i].None? then s.(fault := true)
      else s.(status := s.status[i := Some(Waiting)], workers := s.workers[i := Polling])
  }

  function MainStep(s: State): State {
    match s.main
    case Spawn(i) =>
      if i < |s.workers| then s.(workers := s.workers[i := Starting], main := Spawn(i + 1)) else s.(main := Arrive)
    case Arrive => s.(arrived := s.arrived + 1, who := s.who + {s.n}, main := MeetAtBarrier)
    case MeetAtBarrier => if Opened(s) then s.(main := Between) else s
    case Between =>
      if s.job < s.jobs then s.(func := s.job, main := Store(0), clobbered := s.clobbered || SomeoneInside(s)) else s
    case Store(i) =>
      if i >= |s.status| then s.(main := WaitFor(0))
      else if s.status[i].None? then s.(fault := true)
      else s.(status := s.status[i := Some(Working)], main := Store(i + 1))
    case WaitFor(i) =>
      if i >= |s.status| then s.(main := Between, job := s.job + 1)
      else if s.status[i].None? then s.(fault := true)
      else if s.status[i].value.Working? then s
      else s.(main := WaitFor(i + 1))
  }

  predicate Enabled(s: State, a: Action) {
    a.Worker? ==> a.i < |s.workers| && a.i < |s.status|
  }

  function Apply(s: State, a: Action): State
    requires Enabled(s, a)
  {
    match a
    case Main => MainStep(s)
    case Worker(i) => WorkerStep(s, i)
  }

  ghost predicate IsRun(run: seq<State>, acts: seq<Action>) {
    && |run| == |acts| + 1
    && (exists n, jobs :: run[0] == Init(n, jobs))
    && forall k :: 0 <= k < |acts| ==> Enabled(run[k], acts[k]) && run[k + 1] == Apply(run[k], acts[k])
  }

  // ---- the invariant --------------------------------------------------------------------------

  predicate BeforeJobs(m: MainPc) { m.Spawn? || m.Arrive? || m.MeetAtBarrier? }

  /** The caller has told worker i to run the current job. */
  predicate Told(m: MainPc, i: nat) {
    (m.Store? && i < m.i) || m.WaitFor?
  }

  predicate WorkerInv(s: State, i: nat)
    requires i < |s.workers| && i < |s.status|
  {
    var pc := s.workers[i];
    && (s.status[i].None? <==> pc.NotSpawned? || pc.Starting?)
    && (i in s.who <==> pc.AtBarrier? || pc.Polling? || pc.Calling? || pc.Storing?)
    && (pc.NotSpawned? <==> s.main.Spawn? && s.main.i <= i)
    && (pc.Polling? || pc.Calling? || pc.Storing? ==> Opened(s))
    && (pc.Calling? || pc.Storing? ==> s.status[i] == Some(Working))
    && (s.status[i] == Some(Working) ==> Told(s.main, i) && (s.main.WaitFor? ==> s.main.i <= i))
    && (!BeforeJobs(s.main) ==> Opened(s))
  }

  ghost predicate WorkersInv(s: State) {
    && |s.workers| == |s.status| == s.n
    && forall i :: 0 <= i < s.n ==> WorkerInv(s, i)
  }

  predicate BarrierInv(s: State) {
    && s.arrived == |s.who|
    && (s.n in s.who <==> !s.main.Spawn? && !s.main.Arrive?)
    && (forall i :: i in s.who ==> i <= s.n)
  }

  /** How often function f has been called with NUMA index i. */
  function TimesCalled(s: State, f: int, i: int): nat {
    if !(0 <= i < |s.workers| && i < |s.status|) then 0
    else if 0 <= f < s.job then 1
    else if f == s.job && Told(s.main, i) && (s.status[i] != Some(Working) || s.workers[i].Storing?) then 1
    else 0
  }

  ghost predicate CallsInv(s: State) {
    forall f, i :: s.calls[(f, i)] == TimesCalled(s, f, i)
  }

  predicate ConfigInv(s: State) {
    && !s.fault && !s.clobbered
    && s.job <= s.jobs
    && (s.main.Store? || s.main.WaitFor? ==> s.func == s.job < s.jobs)
    && ((s.main.Spawn? || s.main.Store? || s.main.WaitFor?) ==> s.main.i <= s.n)
    && (BeforeJobs(s.main) ==> s.job == 0)
  }

  ghost predicate Inv(s: State) {
    WorkersInv(s) && BarrierInv(s) && CallsInv(s) && ConfigInv(s)
  }

  /** The barrier opens only when all have arrived; so every status word exists by then. */
  lemma {:induction false} OpenedMeansAll(s: State)
    requires BarrierInv(s) && Opened(s)
    ensures s.who == Below(s.n + 1)
  {
    assert s.who <= Below(s.n + 1);
    assert Below(s.n + 1) == s.who + (Below(s.n + 1) - s.who);
  }

  lemma {:induction false} OpenedMeansReady(s: State)
    requires WorkersInv(s) && BarrierInv(s) && Opened(s)
    ensures !s.main.Spawn? && !s.main.Arrive?
    ensures forall i :: 0 <= i < s.n ==> s.status[i].Some? && i in s.who
  {
    OpenedMeansAll(s);
    forall i | 0 <= i < s.n ensures s.status[i].Some? { assert WorkerInv(s, i); }
  }

  lemma {:induction false} WorkerStepInv(s: State, i: nat)
    requires Inv(s) && i < s.n
    ensures Inv(WorkerStep(s, i))
  {
    assert WorkerInv(s, i);
    if Opened(s) { OpenedMeansReady(s); }
    forall j | 0 <= j < s.n ensures WorkerInv(WorkerStep(s, i), j) { WorkerStepWorker(s, i, j); }
    WorkerStepCalls(s, i);
  }

  lemma {:induction false} WorkerStepWorker(s: State, i: nat, j: nat)
    requires Inv(s) && i < s.n && j < s.n
    ensures j < |WorkerStep(s, i).workers| && j < |WorkerStep(s, i).status| && WorkerInv(WorkerStep(s, i), j)
  {
    if Opened(s) { OpenedMeansReady(s); }
    assert WorkerInv(s, i) && WorkerInv(s, j);
  }

  lemma {:induction false} WorkerStepCalls(s: State, i: nat)
    requires WorkersInv(s) && CallsInv(s) && ConfigInv(s) && i < s.n
    ensures CallsInv(WorkerStep(s, i))
  {
    assert WorkerInv(s, i);
    var s' := WorkerStep(s, i);
    forall f, j ensures s'.calls[(f, j)] == TimesCalled(s', f, j) {
      assert s.calls[(f, j)] == TimesCalled(s, f, j);
    }
  }

  lemma {:induction false} MainStepInv(s: State)
    requires Inv(s)
    ensures Inv(MainStep(s))
  {
    var s' := MainStep(s);
    assert WorkersInv(s') && BarrierInv(s') by { MainStepWorkers(s); }
    assert ConfigInv(s') by {
      NobodyInsideBetween(s);
      if (s.main.Store? || s.main.WaitFor?) && s.main.i < s.n { assert WorkerInv(s, s.main.i); }
      if Opened(s) { OpenedMeansReady(s); }
    }
    MainStepCalls(s);
  }

  lemma {:induction false} MainStepWorkers(s: State)
    requires Inv(s)
    ensures WorkersInv(MainStep(s)) && BarrierInv(MainStep(s))
  {
    if Opened(s) { OpenedMeansReady(s); }
    if (s.main.Store? || s.main.WaitFor? || s.main.Spawn?) && s.main.i < s.n { assert WorkerInv(s, s.main.i); }
    forall j | 0 <= j < s.n ensures WorkerInv(MainStep(s), j) { MainStepWorker(s, j); }
  }

  lemma {:induction false} MainStepWorker(s: State, j: nat)
    requires Inv(s) && j < s.n
    ensures j < |MainStep(s).workers| && j < |MainStep(s).status| && WorkerInv(MainStep(s), j)
  {
    if Opened(s) { OpenedMeansReady(s); }
    assert WorkerInv(s, j);
    if (s.main.Store? || s.main.WaitFor? || s.main.Spawn?) && s.main.i < s.n { assert WorkerInv(s, s.main.i); }
  }

  /** The next function is written only when no worker is in, or about to make, a call of the last one. */
  lemma {:induction false} NobodyInsideBetween(s: State)
    requires WorkersInv(s)
    ensures s.main.Between? ==> !SomeoneInside(s)
  {
    if s.main.Between? {
      forall i | 0 <= i < |s.workers|
        ensures !s.workers[i].Calling? && !s.workers[i].Storing? && s.status[i] != Some(Working)
      {
        assert WorkerInv(s, i);
      }
    }
  }

  lemma {:induction false} MainStepCalls(s: State)
    requires WorkersInv(s) && CallsInv(s) && ConfigInv(s)
    ensures CallsInv(MainStep(s))
  {
    var s' := MainStep(s);
    forall f, j ensures s'.calls[(f, j)] == TimesCalled(s', f, j) {
      assert s.calls[(f, j)] == TimesCalled(s, f, j);
      if 0 <= j < s.n { assert WorkerInv(s, j); }
    }
  }

  lemma {:induction false} RunInv(run: seq<State>, acts: seq<Action>, k: nat)
    requires IsRun(run, acts) && k < |run|
    ensures Inv(run[k])
  {
    if k == 0 {
    } else {
      RunInv(run, acts, k - 1);
      match acts[k - 1] {
        case Main => MainStepInv(run[k - 1]);
        case Worker(i) => WorkerStepInv(run[k - 1], i);
      }
    }
  }

  // ---- what the distributor promises -----------------------------------------------------------

  /** No status word is followed before it exists, and compute_func is rewritten only when no worker is inside
      the previous job or has been told to go there. */
  lemma {:induction false} SafeReuse(run: seq<State>, acts: seq<Action>, k: nat)
    requires IsRun(run, acts) && k < |run|
    ensures !run[k].fault && !run[k].clobbered
    ensures Opened(run[k]) ==> forall i :: 0 <= i < |run[k].status| ==> run[k].status[i].Some?
  {
    RunInv(run, acts, k);
    if Opened(run[k]) { OpenedMeansReady(run[k]); }
  }

  /** A `do_numa_job` that has returned has called its function exactly once with each NUMA index, and with
      nothing else; the one under way, at most once. */
  lemma {:induction false} OncePerNode(run: seq<State>, acts: seq<Action>, k: nat, f: int, i: int)
    requires IsRun(run, acts) && k < |run|
    ensures 0 <= f < run[k].job ==> run[k].calls[(f, i)] == if 0 <= i < run[k].n then 1 else 0
    ensures run[k].calls[(f, i)] <= 1
    ensures run[k].calls[(f, i)] == 1 ==> 0 <= f <= run[k].job && 0 <= i < run[k].n
  {
    RunInv(run, acts, k);
    assert run[k].calls[(f, i)] == TimesCalled(run[k], f, i);
  }

  /** There is no deadlock: until all jobs have returned, some thread can do something other than spin. */
  lemma {:induction false} NeverStuck(s: State) returns (a: Action)
    requires Inv(s) && !(s.main.Between? && s.job == s.jobs)
    ensures Enabled(s, a) && Apply(s, a) != s
  {
    a := Main;
    if Opened(s) { OpenedMeansReady(s); }
    if s.main.MeetAtBarrier? && !Opened(s) {
      var i := Missing(s);
      assert WorkerInv(s, i);
      a := Worker(i);
    } else if s.main.WaitFor? && s.main.i < s.n && s.status[s.main.i] == Some(Working) {
      assert WorkerInv(s, s.main.i);
      a := Worker(s.main.i);
    }
  }

  lemma {:induction false} Missing(s: State) returns (i: nat)
    requires Inv(s) && s.main.MeetAtBarrier? && !Opened(s)
    ensures i < s.n && i !in s.who
  {
    assert s.who <= Below(s.n + 1) && s.who != Below(s.n + 1);
    i :| i in Below(s.n + 1) && i !in s.who;
  }

  // ---- how long it takes -----------------------------------------------------------------------

  /** Steps a worker has left, spinning aside: those of its start, and three for a call it has been told to make. */
  function Rank(pc: WorkerPc, status: Option<Status>): nat {
    match pc
    case NotSpawned => 3
    case Starting => 3
    case Arriving => 2 + ToldRank(status)
    case AtBarrier => 1 + ToldRank(status)
    case Polling => ToldRank(status)
    case Calling => 2
    case Storing => 1
  }

  function ToldRank(status: Option<Status>): nat {
    if status == Some(Working) then 3 else 0
  }

  function SumRank(workers: seq<WorkerPc>, status: seq<Option<Status>>): nat
    requires |workers| == |status|
  {
    if workers == [] then 0 else Rank(workers[0], status[0]) + SumRank(workers[1..], status[1..])
  }

  /** What one job costs: write the function, tell n workers, each of which takes three steps, and wait for them. */
  function JobCost(n: nat): nat { 5 * n + 3 }

  function JobsCost(k: int, n: nat): nat
    decreases k
  {
    if k <= 0 then 0 else JobCost(n) + JobsCost(k - 1, n)
  }

  function MainRank(s: State): int {
    match s.main
    case Spawn(i) => JobsCost(s.jobs - s.job, s.n) + s.n - i + 3
    case Arrive => JobsCost(s.jobs - s.job, s.n) + 2
    case MeetAtBarrier => JobsCost(s.jobs - s.job, s.n) + 1
    case Between => JobsCost(s.jobs - s.job, s.n)
    case Store(i) => JobsCost(s.jobs - s.job - 1, s.n) + 4 * (s.n - i) + s.n + 2
    case WaitFor(i) => JobsCost(s.jobs - s.job - 1, s.n) + s.n - i + 1
  }

  /** The steps left until all jobs have returned and all threads spin. */
  function Measure(s: State): int
    requires |s.workers| == |s.status|
  {
    SumRank(s.workers, s.status) + MainRank(s)
  }

  lemma {:induction false} SumRankUpdate(workers: seq<WorkerPc>, status: seq<Option<Status>>, i: nat,
                                         pc: WorkerPc, st: Option<Status>)
    requires i < |workers| == |status|
    ensures SumRank(workers[i := pc], status[i := st])
            == SumRank(workers, status) - Rank(workers[i], status[i]) + Rank(pc, st)
  {
    if i > 0 {
      assert workers[i := pc][1..] == workers[1..][i - 1 := pc] && status[i := st][1..] == status[1..][i - 1 := st];
      SumRankUpdate(workers[1..], status[1..], i - 1, pc, st);
    }
  }

  /** Every step either is a spin, which changes nothing, or is one of those that were left. */
  lemma {:induction false} StepCounts(s: State, a: Action)
    requires Inv(s) && Enabled(s, a)
    ensures var s' := Apply(s, a); |s'.workers| == |s'.status| && Measure(s') == Measure(s) - if s' == s then 0 else 1
  {
    match a
    case Worker(i) => WorkerCounts(s, i);
    case Main => MainCounts(s);
  }

  lemma {:induction false} WorkerCounts(s: State, i: nat)
    requires Inv(s) && i < s.n
    ensures var s' := WorkerStep(s, i);
            |s'.workers| == |s'.status| && Measure(s') == Measure(s) - if s' == s then 0 else 1
  {
    var s' := WorkerStep(s, i);
    OwnRank(s, i);
    SumRankUpdate(s.workers, s.status, i, s'.workers[i], s'.status[i]);
  }

  lemma {:induction false} OwnRank(s: State, i: nat)
    requires i < s.n && |s.workers| == |s.status| == s.n && WorkerInv(s, i)
    ensures var s' := WorkerStep(s, i);
            && |s'.workers| == |s'.status| == s.n && MainRank(s') == MainRank(s)
            && s'.workers == s.workers[i := s'.workers[i]] && s'.status == s.status[i := s'.status[i]]
            && Rank(s'.workers[i], s'.status[i]) == Rank(s.workers[i], s.status[i]) - if s' == s then 0 else 1
  {
  }

  lemma {:induction false} MainCounts(s: State)
    requires Inv(s)
    ensures var s' := MainStep(s);
            |s'.workers| == |s'.status| && Measure(s') == Measure(s) - if s' == s then 0 else 1
  {
    var s' := MainStep(s);
    MainStepInv(s);
    if (s.main.Spawn? || s.main.Store?) && s.main.i < s.n {
      var i := s.main.i;
      assert WorkerInv(s, i);
      SumRankUpdate(s.workers, s.status, i, s'.workers[i], s'.status[i]);
      assert s'.workers == s.workers[i := s'.workers[i]] && s'.status == s.status[i := s'.status[i]];
    }
  }

  /** However the threads interleave, each step that is not a spin is one of those that were left. */
  lemma {:induction false} MovesAreCounted(run: seq<State>, acts: seq<Action>, a: nat, b: nat)
    requires IsRun(run, acts) && a <= b < |run|
    ensures |run[a].workers| == |run[a].status| && |run[b].workers| == |run[b].status|
    ensures Moves(run, a, b) == Measure(run[a]) - Measure(run[b])
    decreases b - a
  {
    RunInv(run, acts, a);
    if a < b {
      StepCounts(run[a], acts[a]);
      MovesAreCounted(run, acts, a + 1, b);
    }
  }

  /** From its start to the return of all jobs the distributor takes at most 4 * n + 3 + jobs * (5 * n + 3) steps
      besides spinning, and exactly so many if it gets to where all threads spin. */
  lemma {:induction false} AllMoves(run: seq<State>, acts: seq<Action>, b: nat)
    requires IsRun(run, acts) && b < |run|
    ensures |run[b].workers| == |run[b].status| && 0 <= Measure(run[b])
    ensures Moves(run, 0, b) == 4 * run[0].n + 3 + run[0].jobs * (5 * run[0].n + 3) - Measure(run[b])
  {
    MovesAreCounted(run, acts, 0, b);
    StartMeasure(run[0]);
    RunInv(run, acts, b);
    MeasureBounds(run[b]);
  }

  lemma {:induction false} StartMeasure(s: State)
    requires s == Init(s.n, s.jobs)
    ensures Measure(s) == 4 * s.n + 3 + JobsCost(s.jobs, s.n) == 4 * s.n + 3 + s.jobs * (5 * s.n + 3)
  {
    StartRank(s.workers, s.status);
    JobsCostIs(s.jobs, s.n);
  }

  lemma {:induction false} JobsCostIs(k: nat, n: nat)
    ensures JobsCost(k, n) == k * (5 * n + 3)
  {
    if k > 0 {
      JobsCostIs(k - 1, n);
      assert k * (5 * n + 3) == (k - 1) * (5 * n + 3) + (5 * n + 3);
    }
  }

  lemma {:induction false} StartRank(workers: seq<WorkerPc>, status: seq<Option<Status>>)
    requires |workers| == |status| && forall i :: 0 <= i < |workers| ==> workers[i].NotSpawned?
    ensures SumRank(workers, status) == 3 * |workers|
  {
    if workers != [] { StartRank(workers[1..], status[1..]); }
  }

  /** Between jobs no worker has more to do than pass the barrier. */
  lemma {:induction false} RestingRank(workers: seq<WorkerPc>, status: seq<Option<Status>>)
    requires |workers| == |status| && forall i :: 0 <= i < |workers| ==> Rank(workers[i], status[i]) <= 1
    ensures SumRank(workers, status) <= |workers|
  {
    if workers != [] {
      assert forall i :: 0 <= i < |workers| - 1 ==>
               workers[1..][i] == workers[i + 1] && status[1..][i] == status[i + 1];
      RestingRank(workers[1..], status[1..]);
    }
  }

  lemma {:induction false} MeasureBounds(s: State)
    requires Inv(s)
    ensures JobsCost(s.jobs - s.job - 1, s.n) <= Measure(s)
    ensures BeforeJobs(s.main) ==> JobsCost(s.jobs, s.n) <= Measure(s)
    ensures s.main.Between? ==> Measure(s) <= JobsCost(s.jobs - s.job, s.n) + s.n
  {
    if s.main.Between? {
      forall i | 0 <= i < s.n ensures Rank(s.workers[i], s.status[i]) <= 1 {
        assert WorkerInv(s, i);
        OpenedMeansReady(s);
      }
      RestingRank(s.workers, s.status);
    }
  }

  /** The constructor returns within 4 * n + 3 steps besides spinning, all threads together; so, as some thread
      can always step, the barrier opens. */
  lemma {:induction false} ConstructorIsBounded(run: seq<State>, acts: seq<Action>, b: nat)
    requires IsRun(run, acts) && b < |run| && BeforeJobs(run[b].main)
    ensures Moves(run, 0, b) <= 4 * run[0].n + 3
  {
    AllMoves(run, acts, b);
    RunInv(run, acts, b);
    MeasureBounds(run[b]);
    SameSize(run, acts, b);
    JobsCostIs(run[0].jobs, run[0].n);
  }

  lemma {:induction false} SameSize(run: seq<State>, acts: seq<Action>, b: nat)
    requires IsRun(run, acts) && b < |run|
    ensures run[b].n == run[0].n && run[b].jobs == run[0].jobs
  {
    if b > 0 { SameSize(run, acts, b - 1); }
  }

  lemma {:induction false} JobSpan(s: State, t: State)
    requires Inv(s) && Inv(t) && s.main.Between? && t.job == s.job && t.n == s.n && t.jobs == s.jobs
    ensures Measure(s) - Measure(t) <= 6 * s.n + 3
  {
    MeasureBounds(s);
    MeasureBounds(t);
  }

  /** A `do_numa_job` returns within 6 * n + 3 steps besides spinning, all threads together. */
  lemma {:induction false} JobsAreBounded(run: seq<State>, acts: seq<Action>, a: nat, b: nat)
    requires IsRun(run, acts) && a <= b < |run| && run[a].main.Between? && run[b].job == run[a].job
    ensures Moves(run, a, b) <= 6 * run[a].n + 3
  {
    MovesAreCounted(run, acts, a, b);
    RunInv(run, acts, a);
    RunInv(run, acts, b);
    SameSize(run, acts, a);
    SameSize(run, acts, b);
    JobSpan(run[a], run[b]);
  }

  // ---- the distributor object -----------------------------------------------------------------

  /** The distributor as an object: its shared fields, where the constructor or caller and the workers stand, and
      history.  Each method performs one access in place and follows the status pointers unchecked; its contract
      is the step function above. */
  class NumaJobDistributor {
    const n: nat
    const jobs: nat
    var main: MainPc
    var job: nat
    var func: int
    var status: seq<Option<Status>>
    var workers: seq<WorkerPc>
    var arrived: nat
    ghost var who: set<nat>
    ghost var calls: multiset<(int, int)>

    ghost function View(): State
      reads this
    {
      State(n, jobs, main, job, func, status, workers, arrived, who, calls, false, false)
    }

    constructor (n: nat, jobs: nat)
      ensures View() == Init(n, jobs) && Inv(View())
    {
      this.n, this.jobs := n, jobs;
      main, job, func, arrived := Spawn(0), 0, -1, 0;
      status, workers := seq(n, _ => None), seq(n, _ => NotSpawned);
      who, calls := {}, multiset{};
    }

    /** init: start one worker thread, or leave the loop. */
    method SpawnNext()
      requires Inv(View()) && main.Spawn?
      modifies this
      ensures View() == MainStep(old(View())) && Inv(View())
    {
      MainStepInv(View());
      var i := main.i;
      if i < n {
        workers := workers[i := Starting];
        main := Spawn(i + 1);
      } else {
        main := Arrive;
      }
    }

    /** init: `ready_bar->arrive_and_wait()`, the arrival. */
    method ArriveAtBarrier()
      requires Inv(View()) && main.Arrive?
      modifies this
      ensures View() == MainStep(old(View())) && Inv(View())
    {
      MainStepInv(View());
      arrived := arrived + 1;
      who := who + {n};
      main := MeetAtBarrier;
    }

    /** init: the barrier opens. */
    method PassBarrier()
      requires Inv(View()) && main.MeetAtBarrier? && arrived == n + 1
      modifies this
      ensures View() == MainStep(old(View())) && Inv(View())
    {
      MainStepInv(View());
      main := Between;
    }

    /** do_numa_job: `this->compute_func = compute_func`. */
    method WriteFunction()
      requires Inv(View()) && main.Between? && job < jobs
      modifies this
      ensures View() == MainStep(old(View())) && Inv(View())
    {
      MainStepInv(View());
      func := job;
      main := Store(0);
    }

    /** do_numa_job: `status[i]->store(WORKING)`, or the end of that loop. */
    method StoreWorking()
      requires Inv(View()) && main.Store?
      modifies this
      ensures View() == MainStep(old(View())) && Inv(View())
    {
      MainStepInv(View());
      var i := main.i;
      if i < n {
        status := status[i := Some(Working)];
        main := Store(i + 1);
      } else {
        main := WaitFor(0);
      }
    }

    /** do_numa_job: one reading of a status word, or the end of the call. */
    method WaitNext()
      requires Inv(View()) && main.WaitFor?
      modifies this
      ensures View() == MainStep(old(View())) && Inv(View())
    {
      MainStepInv(View());
      var i := main.i;
      if i < n {
        assert WorkerInv(View(), i);
        if status[i].value != Working { main := WaitFor(i + 1); }
      } else {
        main, job := Between, job + 1;
      }
    }

    /** worker_thread: the worker creates its own status word. */
    method CreateStatus(i: nat)
      requires Inv(View()) && i < n && workers[i].Starting?
      modifies this
      ensures View() == WorkerStep(old(View()), i) && Inv(View())
    {
      WorkerStepInv(View(), i);
      status := status[i := Some(Waiting)];
      workers := workers[i := Arriving];
    }

    /** worker_thread: the arrival at the barrier. */
    method WorkerArrive(i: nat)
      requires Inv(View()) && i < n && workers[i].Arriving?
      modifies this
      ensures View() == WorkerStep(old(View()), i) && Inv(View())
    {
      WorkerStepInv(View(), i);
      arrived := arrived + 1;
      who := who + {i};
      workers := workers[i := AtBarrier];
    }

    /** worker_thread: the barrier opens for the worker. */
    method WorkerPass(i: nat)
      requires Inv(View()) && i < n && workers[i].AtBarrier? && arrived == n + 1
      modifies this
      ensures View() == WorkerStep(old(View()), i) && Inv(View())
    {
      WorkerStepInv(View(), i);
      workers := workers[i := Polling];
    }

    /** worker_thread: `status[numa_id]->load()`. */
    method WorkerPoll(i: nat)
      requires Inv(View()) && i < n && workers[i].Polling?
      modifies this
      ensures View() == WorkerStep(old(View()), i) && Inv(View())
    {
      WorkerStepInv(View(), i);
      assert WorkerInv(View(), i);
      if status[i].value == Working { workers := workers[i := Calling]; }
    }

    /** worker_thread: `compute_func(numa_id)`. */
    method WorkerCall(i: nat)
      requires Inv(View()) && i < n && workers[i].Calling?
      modifies this
      ensures View() == WorkerStep(old(View()), i) && Inv(View())
    {
      WorkerStepInv(View(), i);
      calls := calls + multiset{(func, i)};
      workers := workers[i := Storing];
    }

    /** worker_thread: `status[numa_id]->store(WAITING)`. */
    method WorkerStore(i: nat)
      requires Inv(View()) && i < n && workers[i].Storing?
      modifies this
      ensures View() == WorkerStep(old(View()), i) && Inv(View())
    {
      WorkerStepInv(View(), i);
      assert WorkerInv(View(), i);
      status := status[i := Some(Waiting)];
      workers := workers[i := Polling];
    }
  }
}
