/**
 Whole runs of the pipeline, for any list of calls: a program always gets through, within a bounded number of
 steps, and it can race exactly when a deferring call and the call after it share a slot.
 */
module PipelineRuns {
  import opened Pipeline

  // ---- a program gets through -----------------------------------------------------------------

  /** Steps that an operation costs: one, or the four of `enqueue` and six of the worker for a launch. */
  function OpCost(op: Op): nat {
    if op.Launch? then 10 else 1
  }

  function Cost(ops: seq<Op>): nat {
    if ops == [] then 0 else OpCost(ops[0]) + Cost(ops[1..])
  }

  /** How much of a launch's cost is no longer ahead of the stream; the six steps of the worker are by then part
      of the worker's lag. */
  function Progress(pc: TaskQueue.ProducerPc<Task>): nat {
    match pc
    case Idle => 0
    case Counted(_) => 7
    case Allocated(_, _) => 8
    case Exchanged(_, _, _) => 9
  }

  function LagOf(q: TaskQueue.State<Task>): int {
    if q.pending > 0 then TaskQueue.Lag(q) else 0
  }

  /** The steps left, if the worker only works while the stream waits for it. */
  function Budget(s: State): int {
    Cost(s.rest) - Progress(TaskQueue.Pc(s.q, STREAM)) + LagOf(s.q)
  }

  lemma {:induction false} BudgetBounds(calls: seq<Call>, s: State, i: nat, k: nat)
    requires PositionInv(calls, s, i, k)
    ensures 0 <= Budget(s)
  {
    if i < |calls| { Advance(calls, s.rest, i, k); }
  }

  /** Some step brings the program nearer to its end: the worker's while the stream waits for it, the stream's
      otherwise. */
  lemma {:induction false} Useful(calls: seq<Call>, s: State, i: nat, k: nat) returns (a: Action)
    requires PositionInv(calls, s, i, k) && s.rest != []
    ensures Enabled(s, a) && Budget(Apply(s, a)) < Budget(s)
    ensures a.Worker? <==> Blocked(s)
  {
    Advance(calls, s.rest, i, k);
    if Blocked(s) {
      a := Worker;
      WorkerHelps(s);
    } else {
      var addr := FreshAddress(s.q.heap);
      a := Stream(addr);
      if s.rest[0].Launch? { LaunchHelps(s, addr); } else { QuietStep(s, addr); }
    }
  }

  /** The stream's next operation is a wait that may not leave yet. */
  predicate Blocked(s: State) {
    s.rest != [] && s.rest[0].Wait? && s.q.pending > s.rest[0].allowPending
  }

  lemma {:induction false} WorkerHelps(s: State)
    requires QueueInv(s.q, s.launched) && !InFlight(s) && s.q.pending > 0
    ensures !s.q.worker.Exited? && Budget(WorkerStep(s)) < Budget(s)
  {
    assert forall p :: TaskQueue.Pc(s.q, p) == TaskQueue.Idle;
    TaskQueue.CatchUpStep(s.q);
    WorkKeepsQueue(s.q);
  }

  lemma {:induction false} LaunchHelps(s: State, addr: TaskQueue.Addr)
    requires s.rest != [] && s.rest[0].Launch? && s.q.pending >= 0
    ensures Budget(StreamStep(s, addr)) < Budget(s)
  {
    LaunchMoves(s, s.rest[0].task, addr);
  }

  lemma {:induction false} Extend(ops: seq<Op>, run: seq<State>, acts: seq<Action>, a: Action)
    requires IsRun(ops, run, acts) && Enabled(run[|acts|], a)
    ensures IsRun(ops, run + [Apply(run[|acts|], a)], acts + [a])
  {
    var run', acts' := run + [Apply(run[|acts|], a)], acts + [a];
    forall i | 0 <= i < |acts'| ensures Enabled(run'[i], acts'[i]) && run'[i + 1] == Apply(run'[i], acts'[i]) {
      if i < |acts| { assert run'[i] == run[i] && run'[i + 1] == run[i + 1]; }
    }
    assert run'[0] == run[0];
  }

  /** Every run can be continued until the program is through, by no more steps than its budget. */
  lemma {:induction false} EveryRunCanFinish(calls: seq<Call>, run: seq<State>, acts: seq<Action>)
    returns (run': seq<State>, acts': seq<Action>)
    requires IsRun(Program(calls), run, acts)
    ensures IsRun(Program(calls), run', acts') && run <= run' && run'[|acts'|].rest == []
    ensures |acts'| - |acts| <= Budget(run[|acts|])
    decreases Budget(run[|acts|])
  {
    var s := run[|acts|];
    var i, k := RunPosition(calls, run, acts, |acts|);
    BudgetBounds(calls, s, i, k);
    run', acts' := run, acts;
    if s.rest != [] {
      var a := Useful(calls, s, i, k);
      Extend(Program(calls), run, acts, a);
      run', acts' := EveryRunCanFinish(calls, run + [Apply(s, a)], acts + [a]);
    }
  }

  /** What a program costs in all: 15 steps a call, and 11 more for each call that defers. */
  function Work(calls: seq<Call>): nat {
    if calls == [] then 0 else 15 + 11 * Defers(calls[0]) + Work(calls[1..])
  }

  lemma {:induction false} CostSplit(a: seq<Op>, b: seq<Op>)
    ensures Cost(a + b) == Cost(a) + Cost(b)
  {
    if a == [] {
      assert a + b == b;
    } else {
      assert (a + b)[1..] == a[1..] + b;
      CostSplit(a[1..], b);
    }
  }

  lemma {:induction false} CostFrom(c: Call, k: nat)
    requires k < OpCount(c)
    ensures Cost(Ops(c, k, OpCount(c))) == OpCost(OpAt(c, k)) + Cost(Ops(c, k + 1, OpCount(c)))
  {
    FirstOp(c, k);
    assert Ops(c, k, OpCount(c))[1..] == Ops(c, k + 1, OpCount(c));
  }

  lemma {:induction false} CostOfTail(c: Call)
    ensures Cost(Ops(c, 4, OpCount(c))) == 2 + 11 * Defers(c)
  {
    CostFrom(c, 4);
    CostFrom(c, 5);
    if c.def.Some? {
      CostFrom(c, 6);
      CostFrom(c, 7);
    }
  }

  lemma {:induction false} CostOfCall(c: Call)
    ensures Cost(CallOps(c)) == 15 + 11 * Defers(c)
  {
    CostFrom(c, 0);
    CostFrom(c, 1);
    CostFrom(c, 2);
    CostFrom(c, 3);
    CostOfTail(c);
  }

  lemma {:induction false} CostOfProgram(calls: seq<Call>)
    ensures Cost(Program(calls)) == Work(calls)
  {
    if calls != [] {
      CostSplit(CallOps(calls[0]), Program(calls[1..]));
      CostOfCall(calls[0]);
      CostOfProgram(calls[1..]);
    }
  }

  /** So every program has a run that gets through, within 15 steps a call and 11 more for each that defers. */
  lemma {:induction false} GetsThrough(calls: seq<Call>) returns (run: seq<State>, acts: seq<Action>)
    ensures IsRun(Program(calls), run, acts) && run[|acts|].rest == [] && |acts| <= Work(calls)
  {
    var s := Init(0, Program(calls));
    run, acts := EveryRunCanFinish(calls, [s], []);
    CostOfProgram(calls);
  }

  // ---- when a program can race ----------------------------------------------------------------

  ghost predicate CanRace(calls: seq<Call>) {
    exists run: seq<State>, acts: seq<Action> :: IsRun(Program(calls), run, acts) && run[|acts|].race
  }

  /** Some interleaving races exactly when some deferring call is followed by a call on the same slot. */
  lemma {:induction false} RacesExactlyWhen(calls: seq<Call>)
    ensures CanRace(calls) <==> !SlotsApart(calls)
  {
    if SlotsApart(calls) {
      forall run: seq<State>, acts: seq<Action> | IsRun(Program(calls), run, acts) ensures !run[|acts|].race {
        NeverRaces(calls, run, acts, |acts|);
      }
    } else {
      var j :| 0 < j < |calls| && DeferredBefore(calls, j) && Slot(calls[j]) == Slot(calls[j - 1]);
      var run, acts := RacingRun(calls, j);
    }
  }

  lemma {:induction false} NeverRaces(calls: seq<Call>, run: seq<State>, acts: seq<Action>, n: nat)
    requires SlotsApart(calls) && IsRun(Program(calls), run, acts) && n < |run|
    ensures !run[n].race
  {
    if n > 0 {
      NeverRaces(calls, run, acts, n - 1);
      var i, k := RunPosition(calls, run, acts, n - 1);
      StepDoesNotRace(calls, run[n - 1], acts[n - 1], i, k);
    }
  }

  lemma {:induction false} StepDoesNotRace(calls: seq<Call>, s: State, a: Action, i: nat, k: nat)
    requires SlotsApart(calls) && PositionInv(calls, s, i, k) && Enabled(s, a) && !s.race
    ensures !Apply(s, a).race
  {
    if a.Stream? {
      Advance(calls, s.rest, i, k);
      NoConflict(calls, s, i, k);
      if s.rest[0].Launch? { LaunchMoves(s, s.rest[0].task, a.addr); }
    }
  }

  /** The worker is kept back: when the stream gets to call j, the task deferred by the call before has not run. */
  predicate KeptBack(calls: seq<Call>, j: nat, s: State, i: nat, k: nat)
    requires 0 < j < |calls|
  {
    || i < j - 1
    || (i == j - 1 && k < OpCount(calls[i]) - 2 && |s.q.ran| <= Base(calls, i))
    || (i == j - 1 && OpCount(calls[i]) - 2 <= k && |s.q.ran| < |s.launched|)
    || (i == j && k == 0 && |s.q.ran| < |s.launched|)
  }

  /** On with the program, the worker only working while the stream waits for it, up to the race. */
  lemma {:induction false} RunToRace(calls: seq<Call>, j: nat, run: seq<State>, acts: seq<Action>, i: nat, k: nat)
    returns (run': seq<State>, acts': seq<Action>)
    requires 0 < j < |calls| && DeferredBefore(calls, j) && Slot(calls[j]) == Slot(calls[j - 1])
    requires IsRun(Program(calls), run, acts)
    requires PositionInv(calls, run[|acts|], i, k) && KeptBack(calls, j, run[|acts|], i, k)
    ensures IsRun(Program(calls), run', acts') && run'[|acts'|].race
    decreases Budget(run[|acts|])
  {
    var s := run[|acts|];
    BudgetBounds(calls, s, i, k);
    if i == j {
      RaceStep(calls, j, s);
      Extend(Program(calls), run, acts, Stream(0));
      run', acts' := run + [StreamStep(s, 0)], acts + [Stream(0)];
    } else {
      var a, i', k' := OneStepOn(calls, j, s, i, k);
      Extend(Program(calls), run, acts, a);
      run', acts' := RunToRace(calls, j, run + [Apply(s, a)], acts + [a], i', k');
    }
  }

  lemma {:induction false} OneStepOn(calls: seq<Call>, j: nat, s: State, i: nat, k: nat)
    returns (a: Action, i': nat, k': nat)
    requires 0 < j < |calls| && DeferredBefore(calls, j) && i < j
    requires PositionInv(calls, s, i, k) && KeptBack(calls, j, s, i, k)
    ensures Enabled(s, a) && Budget(Apply(s, a)) < Budget(s)
    ensures PositionInv(calls, Apply(s, a), i', k') && KeptBack(calls, j, Apply(s, a), i', k')
  {
    Advance(calls, s.rest, i, k);
    a := Useful(calls, s, i, k);
    PositionStep(calls, s, a, i, k);
    var next := After(calls, s, a, i, k);
    i', k' := next.0, next.1;
    KeepsBack(calls, j, s, a, i, k, Apply(s, a), i', k');
  }

  /** Call j overwrites the input that the deferred task is still to read. */
  lemma {:induction false} RaceStep(calls: seq<Call>, j: nat, s: State)
    requires 0 < j < |calls| && DeferredBefore(calls, j) && Slot(calls[j]) == Slot(calls[j - 1])
    requires Positioned(calls, s, j, 0) && |s.q.ran| < |s.launched|
    ensures Enabled(s, Stream(0)) && StreamStep(s, 0).race
  {
    Advance(calls, s.rest, j, 0);
    var l := |s.launched| - 1 - |s.q.ran|;
    assert Unfinished(s)[l] == s.launched[Base(calls, j) - 1] == DefTask(calls[j - 1]);
    assert Conflicts(Unfinished(s)[l], s.rest[0]);
  }

  lemma {:induction false} RacingRun(calls: seq<Call>, j: nat) returns (run: seq<State>, acts: seq<Action>)
    requires 0 < j < |calls| && DeferredBefore(calls, j) && Slot(calls[j]) == Slot(calls[j - 1])
    ensures IsRun(Program(calls), run, acts) && run[|acts|].race
  {
    InitInv(calls, 0);
    run, acts := RunToRace(calls, j, [Init(0, Program(calls))], [], 0, 0);
  }

  lemma {:induction false} KeepsBack(calls: seq<Call>, j: nat, s: State, a: Action, i: nat, k: nat,
                                     s': State, i': nat, k': nat)
    requires 0 < j < |calls| && DeferredBefore(calls, j) && i < j
    requires PositionInv(calls, s, i, k) && KeptBack(calls, j, s, i, k)
    requires Enabled(s, a) && (a.Worker? <==> Blocked(s)) && s' == Apply(s, a)
    requires (i', k') == After(calls, s, a, i, k) && Positioned(calls, s', i', k')
    ensures KeptBack(calls, j, s', i', k')
  {
    if i == j - 1 && a.Worker? {
      WorkerKeepsBack(calls, j, s, k);
    } else {
      AfterMoves(calls, s, a, i, k, i', k');
      if a.Stream? { StreamRunsNothing(s, a.addr); }
      OthersKeepBack(calls, j, s, i, k, s', i', k');
    }
  }

  lemma {:induction false} OthersKeepBack(calls: seq<Call>, j: nat, s: State, i: nat, k: nat,
                                          s': State, i': nat, k': nat)
    requires 0 < j < |calls| && DeferredBefore(calls, j) && i < j && KeptBack(calls, j, s, i, k)
    requires Positioned(calls, s, i, k) && Positioned(calls, s', i', k') && (i == j - 1 ==> s'.q.ran == s.q.ran)
    requires (i' == i && k <= k' <= k + 1) || (i' == i + 1 && k' == 0 && k == OpCount(calls[i]) - 1)
    ensures KeptBack(calls, j, s', i', k')
  {
    if i < j - 1 { StillAhead(calls, j, s', i, i', k'); } else { StreamKeepsBack(calls, j, s, s', k, i', k'); }
  }

  lemma {:induction false} AfterMoves(calls: seq<Call>, s: State, a: Action, i: nat, k: nat, i': nat, k': nat)
    requires i < |calls| && k < OpCount(calls[i]) && (i', k') == After(calls, s, a, i, k)
    ensures (i' == i && k <= k' <= k + 1) || (i' == i + 1 && k' == 0 && k == OpCount(calls[i]) - 1)
  {
  }

  lemma {:induction false} BlockedAt(calls: seq<Call>, s: State, i: nat, k: nat)
    requires i < |calls| && calls[i].def.Some? && k < OpCount(calls[i]) && s.rest == RestOf(calls, i, k) && Blocked(s)
    ensures k == OpCount(calls[i]) - 2 && s.q.pending > 1
  {
    Advance(calls, s.rest, i, k);
  }

  lemma {:induction false} WorkerKeepsBack(calls: seq<Call>, j: nat, s: State, k: nat)
    requires 0 < j < |calls| && DeferredBefore(calls, j) && PositionInv(calls, s, j - 1, k)
    requires Blocked(s) && Enabled(s, Worker)
    ensures KeptBack(calls, j, WorkerStep(s), j - 1, k)
  {
    BlockedAt(calls, s, j - 1, k);
    WorkerLeavesOne(s);
  }

  lemma {:induction false} StillAhead(calls: seq<Call>, j: nat, s': State, i: nat, i': nat, k': nat)
    requires 0 < j < |calls| && i < j - 1 && Positioned(calls, s', i', k')
    requires i' == i || (i' == i + 1 && k' == 0)
    ensures KeptBack(calls, j, s', i', k')
  {
  }

  lemma {:induction false} StreamKeepsBack(calls: seq<Call>, j: nat, s: State, s': State, k: nat, i': nat, k': nat)
    requires 0 < j < |calls| && DeferredBefore(calls, j) && KeptBack(calls, j, s, j - 1, k)
    requires Positioned(calls, s, j - 1, k) && Positioned(calls, s', i', k') && s'.q.ran == s.q.ran
    requires (i' == j - 1 && k <= k' <= k + 1) || (i' == j && k' == 0 && k == OpCount(calls[j - 1]) - 1)
    ensures KeptBack(calls, j, s', i', k')
  {
  }

  /** A wait that allows one pending task does not outlast the last but one. */
  lemma {:induction false} WorkerLeavesOne(s: State)
    requires QueueInv(s.q, s.launched) && Enabled(s, Worker) && s.q.pending > 1
    ensures WorkerStep(s).launched == s.launched && |WorkerStep(s).q.ran| < |s.launched|
  {
    WorkerQueueInv(s);
    TaskQueue.PendingBounds(WorkerStep(s).q);
    if s.q.worker.AtSub? { TaskQueue.BetweenTasks(WorkerStep(s).q); }
  }

  lemma {:induction false} StreamRunsNothing(s: State, addr: TaskQueue.Addr)
    requires QueueInv(s.q, s.launched) && Enabled(s, Stream(addr))
    ensures StreamStep(s, addr).q.ran == s.q.ran
  {
    if s.rest[0].Launch? { LaunchQueueInv(s, s.rest[0].task, addr); } else { QuietStep(s, addr); }
  }
}
