/**
 The deferred-expert pipeline: `submit_forward` and `sync_forward` of `python/experts_base.py`, reached
 through `cpuinfer.h`, over the lock-free queue of module `TaskQueue`.

 Two processes run in any interleaving.  The CUDA stream executes, in order, the copies, host functions and
 waits that the Python code has put on it; a host function that enqueues takes the four steps of
 `TaskQueue.enqueue`.  The queue's worker takes the steps of `TaskQueue.worker`; a task reads its buffers when
 it runs, not when it is submitted.  Both share the pinned buffers, two slots per buffer set.
 */
module Pipeline {
  import opened Prelude
  import TaskQueue
  import Deferral
  import Sequences

  type Ids = Deferral.Ids
  type Row = seq<real>
  type Batch = seq<Row>
  type Weights = seq<seq<real>>

  /** One expert's share of one token's output: expert `expert` of layer `layer`, chosen at top-k position
      `pos` of token `token` with weight `weight`, applied to `x`. */
  datatype Contribution = Contribution(layer: nat, token: nat, pos: nat, expert: int, weight: real, x: Row)

  /** A slot of a buffer set: `buf` names the set that `get_buffer` returned, `slot` is 0 or 1. */
  datatype Place = Place(buf: nat, slot: nat)

  /** A `forward_task`: it reads input, weights and (immediate or deferred) ids at `at`, and writes the output
      slot `out`, adding to what is there when `incremental`. */
  datatype Task = Task(layer: nat, at: Place, deferred: bool, out: Place, incremental: bool)

  datatype Mem = Mem(input: map<Place, Batch>, weights: map<Place, Weights>,
                     imm: map<Place, Ids>, def: map<Place, Ids>, out: map<Place, seq<Contribution>>)

  /** What the Python code puts on the stream. */
  datatype Op =
    | CopyInput(at: Place, x: Batch)
    | CopyWeights(at: Place, w: Weights)
    | CopyImm(at: Place, ids: Ids)
    | CopyDef(at: Place, ids: Ids)
    | Launch(task: Task)
    | Wait(allowPending: nat)
    | CopyOut(at: Place)

  datatype State = State(q: TaskQueue.State<Task>, mem: Mem, rest: seq<Op>,
                         launched: seq<Task>, returned: seq<seq<Contribution>>, race: bool)

  /** The stream's next step (`addr` is what the allocator returns if that step is `new Node`), or the worker's. */
  datatype Action = Stream(addr: TaskQueue.Addr) | Worker

  const STREAM: TaskQueue.Tid := 0

  // ---- what a task computes -------------------------------------------------------------------

  function Lookup<K, V>(m: map<K, V>, k: K, default: V): V {
    if k in m then m[k] else default
  }

  /** The contributions of one token, from top-k position `pos` on; an id of -1 contributes nothing. */
  function RowForward(layer: nat, token: nat, pos: nat, ids: seq<int>, w: seq<real>, x: Row): seq<Contribution>
    decreases |ids| - pos
  {
    if pos >= |ids| || pos >= |w| then []
    else (if ids[pos] == -1 then [] else [Contribution(layer, token, pos, ids[pos], w[pos], x)])
         + RowForward(layer, token, pos + 1, ids, w, x)
  }

  /** The contributions of a batch, from token `token` on. */
  function Forward(layer: nat, token: nat, ids: Ids, w: Weights, x: Batch): seq<Contribution>
    decreases |ids| - token
  {
    if token >= |ids| || token >= |w| || token >= |x| then []
    else RowForward(layer, token, 0, ids[token], w[token], x[token]) + Forward(layer, token + 1, ids, w, x)
  }

  /** y is the share of one routed position: expert `ids[token][pos]`, unless that is -1, on `x[token]` with weight
      `w[token][pos]`. */
  predicate IsShare(layer: nat, ids: Ids, w: Weights, x: Batch, y: Contribution) {
    && y.layer == layer && y.token < |ids| && y.token < |w| && y.token < |x|
    && y.pos < |ids[y.token]| && y.pos < |w[y.token]|
    && y.expert == ids[y.token][y.pos] != -1
    && y.weight == w[y.token][y.pos] && y.x == x[y.token]
  }

  function Shares(layer: nat, ids: Ids, w: Weights, x: Batch, y: Contribution): nat {
    if IsShare(layer, ids, w, x, y) then 1 else 0
  }

  /** The same for one token, from top-k position `pos` on. */
  predicate IsRowShare(layer: nat, token: nat, pos: nat, ids: seq<int>, w: seq<real>, x: Row, y: Contribution) {
    && y.layer == layer && y.token == token && pos <= y.pos < |ids| && y.pos < |w|
    && y.expert == ids[y.pos] != -1 && y.weight == w[y.pos] && y.x == x
  }

  lemma {:induction false} RowForwardFrom(layer: nat, token: nat, pos: nat, ids: seq<int>, w: seq<real>, x: Row,
                                          y: Contribution)
    ensures Sequences.Occurrences(RowForward(layer, token, pos, ids, w, x), y)
            == if IsRowShare(layer, token, pos, ids, w, x, y) then 1 else 0
    decreases |ids| - pos
  {
    if pos < |ids| && pos < |w| {
      RowForwardFrom(layer, token, pos + 1, ids, w, x, y);
      var first := if ids[pos] == -1 then [] else [Contribution(layer, token, pos, ids[pos], w[pos], x)];
      Sequences.OccurrencesConcat(first, RowForward(layer, token, pos + 1, ids, w, x), y);
    }
  }

  lemma {:induction false} ForwardFrom(layer: nat, token: nat, ids: Ids, w: Weights, x: Batch, y: Contribution)
    ensures Sequences.Occurrences(Forward(layer, token, ids, w, x), y)
            == if y.token < token then 0 else Shares(layer, ids, w, x, y)
    decreases |ids| - token
  {
    if token < |ids| && token < |w| && token < |x| {
      RowForwardFrom(layer, token, 0, ids[token], w[token], x[token], y);
      ForwardFrom(layer, token + 1, ids, w, x, y);
      ShareOfRow(layer, token, ids, w, x, y);
      Sequences.OccurrencesConcat(RowForward(layer, token, 0, ids[token], w[token], x[token]),
                            Forward(layer, token + 1, ids, w, x), y);
    }
  }

  lemma {:induction false} ShareOfRow(layer: nat, token: nat, ids: Ids, w: Weights, x: Batch, y: Contribution)
    requires token < |ids| && token < |w| && token < |x|
    ensures IsRowShare(layer, token, 0, ids[token], w[token], x[token], y)
            <==> y.token == token && IsShare(layer, ids, w, x, y)
  {
  }

  /** A pass over a batch contributes the share of every routed position exactly once, and nothing else. */
  lemma {:induction false} ForwardIs(layer: nat, ids: Ids, w: Weights, x: Batch, y: Contribution)
    ensures multiset(Forward(layer, 0, ids, w, x))[y] == Shares(layer, ids, w, x, y)
  {
    ForwardFrom(layer, 0, ids, w, x, y);
    Sequences.OccurrencesAreMultiplicity(Forward(layer, 0, ids, w, x), y);
  }

  /** Executing a task on the buffers as they are. */
  function Execute(m: Mem, t: Task): Mem {
    var ids := Lookup(if t.deferred then m.def else m.imm, t.at, []);
    var y := Forward(t.layer, 0, ids, Lookup(m.weights, t.at, []), Lookup(m.input, t.at, []));
    m.(out := m.out[t.out := (if t.incremental then Lookup(m.out, t.out, []) else []) + y])
  }

  // ---- the two processes ----------------------------------------------------------------------

  /** Tasks submitted whose execution has not finished. */
  function Unfinished(s: State): seq<Task> {
    if |s.q.ran| <= |s.launched| then s.launched[|s.q.ran|..] else []
  }

  /** Some queued or running task still reads this buffer. */
  predicate InUse(s: State, op: Op) {
    exists i :: 0 <= i < |Unfinished(s)| && Conflicts(Unfinished(s)[i], op)
  }

  /** The task reads what the copy overwrites, or writes what the copy takes out. */
  predicate Conflicts(t: Task, op: Op) {
    match op
    case CopyInput(at, _) => t.at == at
    case CopyWeights(at, _) => t.at == at
    case CopyImm(at, _) => t.at == at && !t.deferred
    case CopyDef(at, _) => t.at == at && t.deferred
    case CopyOut(at) => t.out == at
    case _ => false
  }

  function CopyStep(s: State, op: Op): State {
    var m := s.mem;
    match op
    case CopyInput(at, x) => s.(mem := m.(input := m.input[at := x]))
    case CopyWeights(at, w) => s.(mem := m.(weights := m.weights[at := w]))
    case CopyImm(at, ids) => s.(mem := m.(imm := m.imm[at := ids]))
    case CopyDef(at, ids) => s.(mem := m.(def := m.def[at := ids]))
    case CopyOut(at) => s.(returned := s.returned + [Lookup(m.out, at, [])])
    case _ => s
  }

  /** The step of `enqueue` that the stream's host function is at. */
  ghost function LaunchStep(s: State, t: Task, addr: TaskQueue.Addr): State
    requires s.rest != []
  {
    match TaskQueue.Pc(s.q, STREAM)
    case Idle => s.(q := TaskQueue.BeginStep(s.q, STREAM, Some(t)), launched := s.launched + [t])
    case Counted(_) => s.(q := TaskQueue.AllocStep(s.q, STREAM, addr))
    case Allocated(_, _) => s.(q := TaskQueue.ExchangeStep(s.q, STREAM))
    case Exchanged(_, _, _) => s.(q := TaskQueue.LinkStep(s.q, STREAM), rest := s.rest[1..])
  }

  ghost predicate Enabled(s: State, a: Action) {
    match a
    case Worker => !s.q.worker.Exited?
    case Stream(addr) =>
      && s.rest != []
      && (match s.rest[0]
          case Launch(_) => TaskQueue.Pc(s.q, STREAM).Counted? ==> addr !in s.q.heap
          case Wait(n) => s.q.pending <= n
          case _ => true)
  }

  ghost function StreamStep(s: State, addr: TaskQueue.Addr): State
    requires s.rest != []
  {
    match s.rest[0]
    case Launch(t) => LaunchStep(s, t, addr)
    case Wait(n) => s.(rest := s.rest[1..])
    case op => CopyStep(s, op).(rest := s.rest[1..], race := s.race || InUse(s, op))
  }

  function WorkerStep(s: State): State
    requires !s.q.worker.Exited?
  {
    var q' := TaskQueue.WorkStep(s.q);
    if s.q.worker.Running? && s.q.worker.next in s.q.heap && s.q.heap[s.q.worker.next].task.Some? then
      s.(q := q', mem := Execute(s.mem, s.q.heap[s.q.worker.next].task.value))
    else
      s.(q := q')
  }

  ghost function Apply(s: State, a: Action): State
    requires Enabled(s, a)
  {
    match a
    case Stream(addr) => StreamStep(s, addr)
    case Worker => WorkerStep(s)
  }

  /** Every buffer starts out as zeros: nothing contributed. */
  function Init(dummy: TaskQueue.Addr, ops: seq<Op>): State {
    State(TaskQueue.Init(dummy), Mem(map[], map[], map[], map[], map[]), ops, [], [], false)
  }

  ghost predicate IsRun(ops: seq<Op>, run: seq<State>, acts: seq<Action>) {
    && |run| == |acts| + 1
    && (exists dummy :: run[0] == Init(dummy, ops))
    && forall i :: 0 <= i < |acts| ==> Enabled(run[i], acts[i]) && run[i + 1] == Apply(run[i], acts[i])
  }

  // ---- the program of the stream --------------------------------------------------------------

  /** One layer's submit and sync, as the Python code resolves them: which buffer set, the split ids, and the
      `incremental` flag it read from `_layer_has_pending_deferred`. */
  datatype Call = Call(layer: nat, buf: nat, x: Batch, w: Weights, imm: Ids, def: Option<Ids>, incremental: bool)

  function Slot(c: Call): Place { Place(c.buf, c.layer % 2) }

  function NextSlot(c: Call): Place { Place(c.buf, (c.layer % 2 + 1) % 2) }

  function ImmTask(c: Call): Task { Task(c.layer, Slot(c), false, Slot(c), c.incremental) }

  function DefTask(c: Call): Task { Task(c.layer, Slot(c), true, NextSlot(c), false) }

  function OpCount(c: Call): nat { if c.def.Some? then 8 else 6 }

  /** The k-th operation of a call: submit, then sync. */
  function OpAt(c: Call, k: nat): Op
    requires k < OpCount(c)
  {
    if k == 0 then CopyInput(Slot(c), c.x)
    else if k == 1 then CopyWeights(Slot(c), c.w)
    else if k == 2 then CopyImm(Slot(c), c.imm)
    else if k == 3 then Launch(ImmTask(c))
    else if c.def.None? then (if k == 4 then Wait(0) else CopyOut(Slot(c)))
    else if k == 4 then CopyDef(Slot(c), c.def.value)
    else if k == 5 then Launch(DefTask(c))
    else if k == 6 then Wait(1)
    else CopyOut(Slot(c))
  }

  /** Its operations from the a-th up to, not including, the b-th. */
  function Ops(c: Call, a: nat, b: nat): (r: seq<Op>)
    requires a <= b <= OpCount(c)
    ensures |r| == b - a && forall k :: 0 <= k < |r| ==> r[k] == OpAt(c, a + k)
  {
    seq(b - a, k requires 0 <= k < b - a => OpAt(c, a + k))
  }

  /** `submit_forward`: all but the last two. */
  function SubmitOps(c: Call): seq<Op> { Ops(c, 0, OpCount(c) - 2) }

  /** `sync_forward`: with a deferred task of its own, the layer lets one task stay pending. */
  function SyncOps(c: Call): seq<Op> { Ops(c, OpCount(c) - 2, OpCount(c)) }

  function CallOps(c: Call): seq<Op> { Ops(c, 0, OpCount(c)) }

  lemma {:induction false} OpsJoin(c: Call, a: nat, b: nat, d: nat)
    requires a <= b <= d <= OpCount(c)
    ensures Ops(c, a, d) == Ops(c, a, b) + Ops(c, b, d)
  {
  }

  /** A call's operations are those of `submit_forward` followed by those of `sync_forward`. */
  lemma {:induction false} SubmitThenSync(c: Call)
    ensures CallOps(c) == SubmitOps(c) + SyncOps(c)
    ensures SyncOps(c) == [Wait(Defers(c)), CopyOut(Slot(c))]
  {
    OpsJoin(c, 0, OpCount(c) - 2, OpCount(c));
    assert Ops(c, OpCount(c) - 1, OpCount(c)) == [CopyOut(Slot(c))];
  }

  function Program(calls: seq<Call>): seq<Op> {
    if calls == [] then [] else CallOps(calls[0]) + Program(calls[1..])
  }

  function NextCall(calls: seq<Call>, i: nat, k: nat): nat
    requires i < |calls|
  {
    if k + 1 < OpCount(calls[i]) then i else i + 1
  }

  function NextOp(calls: seq<Call>, i: nat, k: nat): nat
    requires i < |calls|
  {
    if k + 1 < OpCount(calls[i]) then k + 1 else 0
  }

  /** The operations from the k-th of call i on. */
  function RestOf(calls: seq<Call>, i: nat, k: nat): seq<Op>
    requires i < |calls| ==> k < OpCount(calls[i])
    decreases |calls| - i, if i < |calls| then OpCount(calls[i]) - k else 0
  {
    if i >= |calls| then []
    else [OpAt(calls[i], k)] + RestOf(calls, NextCall(calls, i, k), NextOp(calls, i, k))
  }

  lemma {:induction false} FirstOp(c: Call, k: nat)
    requires k < OpCount(c)
    ensures Ops(c, k, OpCount(c)) == [OpAt(c, k)] + Ops(c, k + 1, OpCount(c))
  {
  }

  lemma {:induction false} RestIsProgram(calls: seq<Call>, i: nat, k: nat)
    requires i < |calls| && k < OpCount(calls[i])
    ensures RestOf(calls, i, k) == Ops(calls[i], k, OpCount(calls[i])) + Program(calls[i + 1..])
    decreases |calls| - i, OpCount(calls[i]) - k
  {
    var n := OpCount(calls[i]);
    FirstOp(calls[i], k);
    if k + 1 < n {
      RestIsProgram(calls, i, k + 1);
    } else {
      assert Ops(calls[i], k + 1, n) == [];
      if i + 1 < |calls| { RestIsProgram(calls, i + 1, 0); }
      FirstProgram(calls[i + 1..]);
    }
    Associates([OpAt(calls[i], k)], Ops(calls[i], k + 1, n), Program(calls[i + 1..]));
  }

  lemma {:induction false} FirstProgram(calls: seq<Call>)
    ensures Program(calls) == if calls == [] then [] else Ops(calls[0], 0, OpCount(calls[0])) + Program(calls[1..])
  {
  }

  lemma {:induction false} Associates<T>(a: seq<T>, b: seq<T>, c: seq<T>)
    ensures a + (b + c) == a + b + c
    ensures b == [] ==> a + c == a + b + c
  {
  }

  /** A deferring call is followed, if at all, by the next layer on the same buffer set. */
  predicate Follows(c: Call, d: Call) {
    c.def.Some? ==> d.layer == c.layer + 1 && d.buf == c.buf
  }

  predicate DeferredBefore(calls: seq<Call>, i: nat)
    requires i < |calls|
  {
    i > 0 && calls[i - 1].def.Some?
  }

  /** The hypotheses of the pipeline: deferring calls are followed by the next layer on the same buffers, and
      a call is incremental exactly when the call before it deferred. */
  ghost predicate Chained(calls: seq<Call>) {
    && (forall i :: 0 < i < |calls| ==> Follows(calls[i - 1], calls[i]))
    && (forall i :: 0 <= i < |calls| ==> calls[i].incremental == DeferredBefore(calls, i))
  }

  /** A deferring call and the one after it use different slots. */
  ghost predicate SlotsApart(calls: seq<Call>) {
    forall i :: 0 < i < |calls| && DeferredBefore(calls, i) ==> Slot(calls[i]) != Slot(calls[i - 1])
  }

  lemma {:induction false} ChainedApart(calls: seq<Call>)
    requires Chained(calls)
    ensures SlotsApart(calls)
  {
    forall i | 0 < i < |calls| && DeferredBefore(calls, i) ensures Slot(calls[i]) != Slot(calls[i - 1]) {
      assert Follows(calls[i - 1], calls[i]);
    }
  }

  function Immediate(c: Call): seq<Contribution> {
    Forward(c.layer, 0, c.imm, c.w, c.x)
  }

  function Deferred(c: Call): seq<Contribution> {
    match c.def
    case None => []
    case Some(ids) => Forward(c.layer, 0, ids, c.w, c.x)
  }

  /** What call i is to return: its own immediate contributions after the ones its predecessor deferred. */
  function Expected(calls: seq<Call>, i: nat): seq<Contribution>
    requires i < |calls|
  {
    (if i > 0 then Deferred(calls[i - 1]) else []) + Immediate(calls[i])
  }

  // ---- the invariant --------------------------------------------------------------------------

  function Defers(c: Call): nat { if c.def.Some? then 1 else 0 }

  /** Number of tasks that the calls before call i submit. */
  function Base(calls: seq<Call>, i: nat): nat
    requires i <= |calls|
  {
    if i == 0 then 0 else Base(calls, i - 1) + 1 + Defers(calls[i - 1])
  }

  /** 1 if the call before call i left a deferred task behind. */
  function Carried(calls: seq<Call>, i: nat): nat
    requires i <= |calls|
  {
    if i == 0 then 0 else Defers(calls[i - 1])
  }

  /** How many of its own tasks a call has begun to enqueue when it is at operation k. */
  function Begun(c: Call, k: nat, inFlight: bool): nat {
    if k < 3 then 0
    else if k == 3 then (if inFlight then 1 else 0)
    else if c.def.None? || k == 4 then 1
    else if k == 5 then (if inFlight then 2 else 1)
    else 2
  }

  predicate InFlight(s: State) { !TaskQueue.Pc(s.q, STREAM).Idle? }

  /** The queue holds exactly the launched tasks, in order, and only the stream enqueues. */
  ghost predicate QueueInv(q: TaskQueue.State<Task>, launched: seq<Task>) {
    && TaskQueue.Inv(q) && q.owner.Alive?
    && (forall p :: p != STREAM ==> TaskQueue.Pc(q, p) == TaskQueue.Idle)
    && q.begun == |launched|
    && QueuedTasks(q.order, launched, TaskQueue.Pc(q, STREAM))
  }

  ghost predicate QueuedTasks(order: seq<TaskQueue.Ticket<Task>>, launched: seq<Task>, pc: TaskQueue.ProducerPc<Task>) {
    && (forall j :: 0 < j < |order| && j <= |launched| ==> order[j].task == Some(launched[j - 1]))
    && (match pc
        case Counted(task) => 0 < |launched| == |order| && task == Some(launched[|launched| - 1])
        case Allocated(_, task) => 0 < |launched| == |order| && task == Some(launched[|launched| - 1])
        case _ => |launched| + 1 == |order|)
  }

  /** The stream is at operation k of call i (or past the last call), having launched what precedes. */
  ghost predicate AtInv(calls: seq<Call>, s: State, i: nat, k: nat) {
    && i <= |calls|
    && (if i == |calls| then k == 0 && s.rest == [] && !InFlight(s)
        else
          && k < OpCount(calls[i]) && s.rest == RestOf(calls, i, k)
          && (InFlight(s) ==> OpAt(calls[i], k).Launch?))
    && LaunchedInv(calls, s.launched, i, if i == |calls| then 0 else Begun(calls[i], k, InFlight(s)))
  }

  ghost predicate LaunchedInv(calls: seq<Call>, launched: seq<Task>, i: nat, b: nat)
    requires i <= |calls|
  {
    && |launched| == Base(calls, i) + b
    && (Carried(calls, i) == 1 ==> launched[Base(calls, i) - 1] == DefTask(calls[i - 1]))
    && (i < |calls| && b >= 1 ==> launched[Base(calls, i)] == ImmTask(calls[i]))
    && (i < |calls| && b >= 2 ==> launched[Base(calls, i) + 1] == DefTask(calls[i]))
    && (i == |calls| || calls[i].def.None? ==> b <= 1)
  }

  /** Everything but the task carried over is finished; past the wait, everything but the call's own one. */
  ghost predicate DoneInv(calls: seq<Call>, done: nat, i: nat, k: nat)
    requires i <= |calls|
  {
    && done >= Base(calls, i) - Carried(calls, i)
    && (i < |calls| && k > OpCount(calls[i]) - 2 ==> done >= Base(calls, i) + 1)
  }

  /** What unfinished tasks will read is in their buffers. */
  ghost predicate DataInv(calls: seq<Call>, m: Mem, done: nat, i: nat, k: nat)
    requires i <= |calls|
  {
    && (Carried(calls, i) == 1 && done < Base(calls, i) ==>
          HasInput(m, calls[i - 1]) && HasWeights(m, calls[i - 1]) && HasDef(m, calls[i - 1]))
    && (i < |calls| && k >= 1 ==> HasInput(m, calls[i]))
    && (i < |calls| && k >= 2 ==> HasWeights(m, calls[i]))
    && (i < |calls| && k >= 3 ==> HasImm(m, calls[i]))
    && (i < |calls| && k >= 5 && calls[i].def.Some? ==> HasDef(m, calls[i]))
  }

  predicate HasInput(m: Mem, c: Call) { Lookup(m.input, Slot(c), []) == c.x }
  predicate HasWeights(m: Mem, c: Call) { Lookup(m.weights, Slot(c), []) == c.w }
  predicate HasImm(m: Mem, c: Call) { Lookup(m.imm, Slot(c), []) == c.imm }
  predicate HasDef(m: Mem, c: Call) { c.def.Some? && Lookup(m.def, Slot(c), []) == c.def.value }

  /** What finished tasks have left in the output slots. */
  ghost predicate OutInv(calls: seq<Call>, m: Mem, done: nat, i: nat)
    requires i <= |calls|
  {
    i < |calls| ==>
      && (Carried(calls, i) == 1 && done == Base(calls, i) ==>
            Lookup(m.out, Slot(calls[i]), []) == Deferred(calls[i - 1]))
      && (done >= Base(calls, i) + 1 ==> Lookup(m.out, Slot(calls[i]), []) == Expected(calls, i))
      && (calls[i].def.Some? && done >= Base(calls, i) + 2 ==>
            Lookup(m.out, NextSlot(calls[i]), []) == Deferred(calls[i]))
  }

  ghost predicate ReturnedInv(calls: seq<Call>, returned: seq<seq<Contribution>>, i: nat)
    requires i <= |calls|
  {
    |returned| == i && forall j :: 0 <= j < i ==> returned[j] == Expected(calls, j)
  }

  /** Where the stream stands and what has run, for any calls whatever. */
  ghost predicate PositionInv(calls: seq<Call>, s: State, i: nat, k: nat) {
    QueueInv(s.q, s.launched) && Positioned(calls, s, i, k)
  }

  /** The part that speaks of the queue only through how many tasks have run. */
  ghost predicate Positioned(calls: seq<Call>, s: State, i: nat, k: nat) {
    && |s.q.ran| <= |s.launched|
    && AtInv(calls, s, i, k)
    && DoneInv(calls, |s.q.ran|, i, k)
  }

  /** What the buffers hold and what has been returned, for chained calls. */
  ghost predicate ValuesInv(calls: seq<Call>, s: State, i: nat, k: nat)
    requires i <= |calls|
  {
    && DataInv(calls, s.mem, |s.q.ran|, i, k)
    && OutInv(calls, s.mem, |s.q.ran|, i)
    && ReturnedInv(calls, s.returned, i)
    && !s.race
  }

  ghost predicate Inv(calls: seq<Call>, s: State, i: nat, k: nat) {
    PositionInv(calls, s, i, k) && ValuesInv(calls, s, i, k)
  }

  // ---- the queue underneath -------------------------------------------------------------------

  /** The queue action behind the stream's position in `enqueue`. */
  ghost function EnqueueAction(s: State, t: Task, addr: TaskQueue.Addr): TaskQueue.Action<Task> {
    match TaskQueue.Pc(s.q, STREAM)
    case Idle => TaskQueue.Begin(STREAM, Some(t))
    case Counted(_) => TaskQueue.Alloc(STREAM, addr)
    case Allocated(_, _) => TaskQueue.Exchange(STREAM)
    case Exchanged(_, _, _) => TaskQueue.Link(STREAM)
  }

  lemma {:induction false} LaunchQueueInv(s: State, t: Task, addr: TaskQueue.Addr)
    requires QueueInv(s.q, s.launched) && s.rest != [] && s.rest[0] == Launch(t) && Enabled(s, Stream(addr))
    ensures var s' := LaunchStep(s, t, addr); QueueInv(s'.q, s'.launched) && s'.q.ran == s.q.ran
  {
    var s' := LaunchStep(s, t, addr);
    var a := EnqueueAction(s, t, addr);
    LaunchIsEnqueue(s, t, addr);
    assert TaskQueue.Inv(s'.q) by { TaskQueue.StepInv(s.q, a); }
    LaunchTasks(s, t, addr);
  }

  lemma {:induction false} LaunchIsEnqueue(s: State, t: Task, addr: TaskQueue.Addr)
    requires s.rest != [] && s.rest[0] == Launch(t) && Enabled(s, Stream(addr)) && s.q.owner.Alive?
    ensures TaskQueue.Enabled(s.q, EnqueueAction(s, t, addr))
    ensures var q' := LaunchStep(s, t, addr).q;
            && q' == TaskQueue.Apply(s.q, EnqueueAction(s, t, addr))
            && q'.ran == s.q.ran && q'.owner == s.q.owner
            && forall p :: p != STREAM ==> TaskQueue.Pc(q', p) == TaskQueue.Pc(s.q, p)
  {
  }

  lemma {:induction false} LaunchTasks(s: State, t: Task, addr: TaskQueue.Addr)
    requires TaskQueue.ProducersInv(s.q) && TaskQueue.ChainInv(s.q)
    requires QueuedTasks(s.q.order, s.launched, TaskQueue.Pc(s.q, STREAM)) && s.rest != []
    ensures var s' := LaunchStep(s, t, addr);
            QueuedTasks(s'.q.order, s'.launched, TaskQueue.Pc(s'.q, STREAM))
    ensures var s' := LaunchStep(s, t, addr);
            s'.q.begun - s.q.begun == |s'.launched| - |s.launched|
  {
    if TaskQueue.Pc(s.q, STREAM).Allocated? { ExchangeTasks(s, t, addr); }
    if TaskQueue.Pc(s.q, STREAM).Exchanged? { TaskQueue.LinkChain(s.q, STREAM); }
  }

  /** The closure that goes in at the exchange is the one `enqueue` was called with. */
  lemma {:induction false} ExchangeTasks(s: State, t: Task, addr: TaskQueue.Addr)
    requires TaskQueue.ProducersInv(s.q) && TaskQueue.Pc(s.q, STREAM).Allocated? && s.rest != []
    requires QueuedTasks(s.q.order, s.launched, TaskQueue.Pc(s.q, STREAM))
    ensures var s' := LaunchStep(s, t, addr);
            s'.launched == s.launched && QueuedTasks(s'.q.order, s.launched, TaskQueue.Pc(s'.q, STREAM))
  {
    assert TaskQueue.ProducerInv(s.q, STREAM);
  }

  /** A worker step executes the next launched task, or changes nothing the pipeline can see. */
  lemma {:induction false} WorkerQueueInv(s: State)
    requires QueueInv(s.q, s.launched) && Enabled(s, Worker)
    ensures QueueInv(WorkerStep(s).q, s.launched) && WorkerStep(s).launched == s.launched
    ensures var s' := WorkerStep(s);
            if s.q.worker.Running? then
              && |s.q.ran| < |s.launched| && |s'.q.ran| == |s.q.ran| + 1
              && s' == s.(q := s'.q, mem := Execute(s.mem, s.launched[|s.q.ran|]))
            else
              s'.q.ran == s.q.ran && s' == s.(q := s'.q)
    ensures TaskQueue.Pc(WorkerStep(s).q, STREAM) == TaskQueue.Pc(s.q, STREAM)
  {
    TaskQueue.StepInv(s.q, TaskQueue.Work);
    WorkKeepsQueue(s.q);
    WorkerExecutes(s);
  }

  lemma {:induction false} WorkerExecutes(s: State)
    requires QueueInv(s.q, s.launched) && Enabled(s, Worker)
    ensures var s' := WorkerStep(s);
            if s.q.worker.Running? then
              && |s.q.ran| < |s.launched| && |s'.q.ran| == |s.q.ran| + 1
              && s' == s.(q := s'.q, mem := Execute(s.mem, s.launched[|s.q.ran|]))
            else
              s'.q.ran == s.q.ran && s' == s.(q := s'.q)
  {
    TaskQueue.WorkRefines(s.q);
    TaskQueue.WorkReady(s.q);
    if s.q.worker.Running? {
      assert TaskQueue.NodeOk(s.q, TaskQueue.Base(s.q) + 1);
    }
  }

  lemma {:induction false} WorkKeepsQueue(q: TaskQueue.State<Task>)
    requires !q.worker.Exited?
    ensures var q' := TaskQueue.WorkStep(q);
            && q'.producers == q.producers && q'.order == q.order && q'.owner == q.owner && q'.begun == q.begun
            && forall p :: TaskQueue.Pc(q', p) == TaskQueue.Pc(q, p)
  {
  }

  // ---- each step keeps the position -----------------------------------------------------------

  /** Popping an operation moves to the next position of the program. */
  lemma {:induction false} Advance(calls: seq<Call>, rest: seq<Op>, i: nat, k: nat)
    requires i < |calls| && k < OpCount(calls[i]) && rest == RestOf(calls, i, k)
    ensures rest != [] && rest[0] == OpAt(calls[i], k)
    ensures rest[1..] == RestOf(calls, NextCall(calls, i, k), NextOp(calls, i, k))
  {
  }

  /** Where a step leaves the stream. */
  function After(calls: seq<Call>, s: State, a: Action, i: nat, k: nat): (nat, nat) {
    if a.Worker? || i >= |calls| || k >= OpCount(calls[i]) then (i, k)
    else if OpAt(calls[i], k).Launch? && !TaskQueue.Pc(s.q, STREAM).Exchanged? then (i, k)
    else (NextCall(calls, i, k), NextOp(calls, i, k))
  }

  lemma {:induction false} PositionStep(calls: seq<Call>, s: State, a: Action, i: nat, k: nat)
    requires PositionInv(calls, s, i, k) && Enabled(s, a)
    ensures var (i', k') := After(calls, s, a, i, k); PositionInv(calls, Apply(s, a), i', k')
  {
    match a
    case Worker =>
      WorkerQueueInv(s);
      KeepAt(calls, s, WorkerStep(s), i, k);
    case Stream(addr) =>
      Advance(calls, s.rest, i, k);
      if OpAt(calls[i], k).Launch? { LaunchStepPosition(calls, s, addr, i, k); }
      else { QuietStepPosition(calls, s, addr, i, k); }
  }

  lemma {:induction false} LaunchStepPosition(calls: seq<Call>, s: State, addr: TaskQueue.Addr, i: nat, k: nat)
    requires PositionInv(calls, s, i, k) && Enabled(s, Stream(addr)) && i < |calls| && k < OpCount(calls[i])
    requires s.rest[0] == OpAt(calls[i], k) && OpAt(calls[i], k).Launch?
    ensures k + 1 < OpCount(calls[i])
    ensures PositionInv(calls, StreamStep(s, addr), i, if TaskQueue.Pc(s.q, STREAM).Exchanged? then k + 1 else k)
  {
    LaunchQueueInv(s, OpAt(calls[i], k).task, addr);
    LaunchMoves(s, OpAt(calls[i], k).task, addr);
    LaunchIsNotLast(calls[i], k);
    if TaskQueue.Pc(s.q, STREAM).Exchanged? { LaunchEnds(calls, s, StreamStep(s, addr), i, k); }
    else { LaunchPosition(calls, s, StreamStep(s, addr), i, k); }
  }

  lemma {:induction false} QuietStepPosition(calls: seq<Call>, s: State, addr: TaskQueue.Addr, i: nat, k: nat)
    requires PositionInv(calls, s, i, k) && Enabled(s, Stream(addr)) && i < |calls| && k < OpCount(calls[i])
    requires s.rest[0] == OpAt(calls[i], k) && !OpAt(calls[i], k).Launch?
    ensures PositionInv(calls, StreamStep(s, addr), NextCall(calls, i, k), NextOp(calls, i, k))
  {
    QuietStep(s, addr);
    if OpAt(calls[i], k).Wait? { WaitLeaves(s, OpAt(calls[i], k).allowPending); }
    QuietPosition(calls, s, StreamStep(s, addr), i, k);
  }

  lemma {:induction false} LaunchPosition(calls: seq<Call>, s: State, s': State, i: nat, k: nat)
    requires Positioned(calls, s, i, k) && i < |calls| && k < OpCount(calls[i]) && OpAt(calls[i], k).Launch?
    requires s'.q.ran == s.q.ran && s'.rest == s.rest && InFlight(s')
    requires s'.launched == (if InFlight(s) then s.launched else s.launched + [OpAt(calls[i], k).task])
    ensures Positioned(calls, s', i, k)
  {
    if InFlight(s) { KeepAt(calls, s, s', i, k); }
    else { BeginAt(calls, s, s', i, k); }
  }

  lemma {:induction false} LaunchEnds(calls: seq<Call>, s: State, s': State, i: nat, k: nat)
    requires Positioned(calls, s, i, k) && i < |calls| && k + 1 < OpCount(calls[i]) && OpAt(calls[i], k).Launch?
    requires s'.q.ran == s.q.ran && s'.rest == s.rest[1..] && s'.launched == s.launched
    requires InFlight(s) && !InFlight(s')
    ensures Positioned(calls, s', i, k + 1)
  {
    Advance(calls, s.rest, i, k);
    EndAt(calls, s, s', i, k);
  }

  lemma {:induction false} LaunchIsNotLast(c: Call, k: nat)
    requires k < OpCount(c) && OpAt(c, k).Launch?
    ensures k + 1 < OpCount(c)
  {
  }

  /** The steps of `enqueue` as the stream sees them: the first launches the task, the last ends the operation. */
  lemma {:induction false} LaunchMoves(s: State, t: Task, addr: TaskQueue.Addr)
    requires s.rest != [] && s.rest[0] == Launch(t)
    ensures var s' := StreamStep(s, addr);
            && s' == s.(q := s'.q, launched := s'.launched, rest := s'.rest)
            && s'.launched == (if InFlight(s) then s.launched else s.launched + [t])
            && s'.rest == (if TaskQueue.Pc(s.q, STREAM).Exchanged? then s.rest[1..] else s.rest)
            && (InFlight(s') <==> !TaskQueue.Pc(s.q, STREAM).Exchanged?)
  {
  }

  lemma {:induction false} KeepAt(calls: seq<Call>, s: State, s': State, i: nat, k: nat)
    requires AtInv(calls, s, i, k)
    requires s'.rest == s.rest && s'.launched == s.launched && InFlight(s') == InFlight(s)
    ensures AtInv(calls, s', i, k)
  {
  }

  lemma {:induction false} BeginAt(calls: seq<Call>, s: State, s': State, i: nat, k: nat)
    requires AtInv(calls, s, i, k) && i < |calls| && OpAt(calls[i], k).Launch? && !InFlight(s) && InFlight(s')
    requires s'.rest == s.rest && s'.launched == s.launched + [OpAt(calls[i], k).task]
    ensures AtInv(calls, s', i, k)
  {
    BeginLaunched(calls, s.launched, i, k);
  }

  lemma {:induction false} BeginLaunched(calls: seq<Call>, launched: seq<Task>, i: nat, k: nat)
    requires i < |calls| && k < OpCount(calls[i]) && OpAt(calls[i], k).Launch?
    requires LaunchedInv(calls, launched, i, Begun(calls[i], k, false))
    ensures LaunchedInv(calls, launched + [OpAt(calls[i], k).task], i, Begun(calls[i], k, true))
  {
  }

  lemma {:induction false} EndAt(calls: seq<Call>, s: State, s': State, i: nat, k: nat)
    requires AtInv(calls, s, i, k) && i < |calls| && OpAt(calls[i], k).Launch? && InFlight(s) && !InFlight(s')
    requires s'.rest == RestOf(calls, NextCall(calls, i, k), NextOp(calls, i, k)) && s'.launched == s.launched
    ensures AtInv(calls, s', i, k + 1)
  {
  }

  /** Only a launch touches the queue. */
  lemma {:induction false} QuietStep(s: State, addr: TaskQueue.Addr)
    requires s.rest != [] && !s.rest[0].Launch?
    ensures var s' := StreamStep(s, addr); s'.q == s.q && s'.launched == s.launched && s'.rest == s.rest[1..]
  {
  }

  lemma {:induction false} QuietPosition(calls: seq<Call>, s: State, s': State, i: nat, k: nat)
    requires Positioned(calls, s, i, k) && i < |calls| && k < OpCount(calls[i]) && !OpAt(calls[i], k).Launch?
    requires OpAt(calls[i], k).Wait? ==> |s.q.ran| >= |s.launched| - OpAt(calls[i], k).allowPending
    requires s'.rest == s.rest[1..] && s'.launched == s.launched && s'.q == s.q
    ensures Positioned(calls, s', NextCall(calls, i, k), NextOp(calls, i, k))
  {
    Advance(calls, s.rest, i, k);
    match OpAt(calls[i], k)
    case Wait(_) => WaitAt(calls, s, s', i, k);
    case CopyOut(_) => CopyOutAt(calls, s, s', i, k);
    case _ => CopyInAt(calls, s, s', i, k);
  }

  lemma {:induction false} CopyInAt(calls: seq<Call>, s: State, s': State, i: nat, k: nat)
    requires Positioned(calls, s, i, k) && i < |calls| && (k < 3 || (k == 4 && calls[i].def.Some?))
    requires s'.rest == RestOf(calls, i, k + 1) && s'.launched == s.launched && s'.q == s.q
    ensures Positioned(calls, s', i, k + 1)
  {
  }

  /** What `sync` promises the pipeline: all but n of the launched tasks have finished. */
  lemma {:induction false} WaitLeaves(s: State, n: nat)
    requires QueueInv(s.q, s.launched) && s.q.pending <= n
    ensures |s.q.ran| >= |s.launched| - n
  {
    TaskQueue.PendingBounds(s.q);
  }

  /** Leaving the wait means that only the call's own deferred task may be unfinished. */
  lemma {:induction false} WaitAt(calls: seq<Call>, s: State, s': State, i: nat, k: nat)
    requires Positioned(calls, s, i, k) && i < |calls| && OpAt(calls[i], k).Wait?
    requires |s.q.ran| >= |s.launched| - Defers(calls[i])
    requires s'.rest == RestOf(calls, i, k + 1) && s'.launched == s.launched && s'.q == s.q
    ensures Positioned(calls, s', i, k + 1)
  {
  }

  lemma {:induction false} CopyOutAt(calls: seq<Call>, s: State, s': State, i: nat, k: nat)
    requires Positioned(calls, s, i, k) && i < |calls| && k < OpCount(calls[i]) && OpAt(calls[i], k).CopyOut?
    requires s'.rest == RestOf(calls, i + 1, 0) && s'.launched == s.launched && s'.q == s.q
    ensures Positioned(calls, s', i + 1, 0)
  {
    CopyOutIsLast(calls[i], k);
  }

  lemma {:induction false} CopyOutIsLast(c: Call, k: nat)
    requires k < OpCount(c) && OpAt(c, k).CopyOut?
    ensures k == OpCount(c) - 1 && OpAt(c, k) == CopyOut(Slot(c))
  {
  }

  lemma {:induction false} RunPosition(calls: seq<Call>, run: seq<State>, acts: seq<Action>, n: nat)
    returns (i: nat, k: nat)
    requires IsRun(Program(calls), run, acts) && n < |run|
    ensures PositionInv(calls, run[n], i, k)
  {
    if n == 0 {
      i, k := 0, 0;
      var dummy :| run[0] == Init(dummy, Program(calls));
      InitInv(calls, dummy);
    } else {
      i, k := RunPosition(calls, run, acts, n - 1);
      var next := After(calls, run[n - 1], acts[n - 1], i, k);
      PositionStep(calls, run[n - 1], acts[n - 1], i, k);
      i, k := next.0, next.1;
    }
  }

  lemma {:induction false} InitInv(calls: seq<Call>, dummy: TaskQueue.Addr)
    ensures Inv(calls, Init(dummy, Program(calls)), 0, 0)
  {
    var s := Init(dummy, Program(calls));
    assert QueueInv(s.q, s.launched) by { TaskQueue.InitInv<Task>(dummy); }
    StartsAtProgram(calls);
    assert Positioned(calls, s, 0, 0);
  }

  lemma {:induction false} StartsAtProgram(calls: seq<Call>)
    ensures RestOf(calls, 0, 0) == Program(calls)
  {
    if calls != [] { RestIsProgram(calls, 0, 0); }
  }

  // ---- each step keeps the values -------------------------------------------------------------

  /** The tasks that can still be unfinished while the stream is inside call i. */
  lemma {:induction false} UnfinishedAre(calls: seq<Call>, s: State, i: nat, k: nat, j: nat)
    requires Positioned(calls, s, i, k) && i < |calls| && |s.q.ran| <= j < |s.launched|
    ensures (Carried(calls, i) == 1 && j + 1 == Base(calls, i) && s.launched[j] == DefTask(calls[i - 1]))
            || (j == Base(calls, i) && s.launched[j] == ImmTask(calls[i]))
            || (calls[i].def.Some? && j == Base(calls, i) + 1 && s.launched[j] == DefTask(calls[i]))
  {
  }

  /** While call i prepares its slot, only the carried task is unfinished, and it lives in the other slot. */
  lemma {:induction false} NoConflict(calls: seq<Call>, s: State, i: nat, k: nat)
    requires SlotsApart(calls) && Positioned(calls, s, i, k) && i < |calls|
    ensures !InUse(s, OpAt(calls[i], k))
  {
    var op := OpAt(calls[i], k);
    forall l | 0 <= l < |Unfinished(s)| ensures !Conflicts(Unfinished(s)[l], op) {
      UnfinishedAre(calls, s, i, k, |s.q.ran| + l);
      if i > 0 && DeferredBefore(calls, i) { assert Slot(calls[i]) != Slot(calls[i - 1]); }
    }
  }

  lemma {:induction false} CopyInValues(calls: seq<Call>, s: State, addr: TaskQueue.Addr, i: nat, k: nat)
    requires Chained(calls) && i < |calls| && ValuesInv(calls, s, i, k) && (k < 3 || (k == 4 && calls[i].def.Some?))
    requires s.rest != [] && s.rest[0] == OpAt(calls[i], k) && !InUse(s, OpAt(calls[i], k))
    ensures ValuesInv(calls, StreamStep(s, addr), i, k + 1)
  {
    CopyInData(calls, s, |s.q.ran|, i, k);
    assert StreamStep(s, addr) == s.(mem := CopyStep(s, OpAt(calls[i], k)).mem, rest := s.rest[1..]);
  }

  /** A copy fills one more of the call's buffers; the carried task's buffers lie in the other slot. */
  lemma {:induction false} CopyInData(calls: seq<Call>, s: State, done: nat, i: nat, k: nat)
    requires Chained(calls) && i < |calls| && DataInv(calls, s.mem, done, i, k)
    requires k < 3 || (k == 4 && calls[i].def.Some?)
    ensures var s' := CopyStep(s, OpAt(calls[i], k));
            s' == s.(mem := s'.mem) && s'.mem.out == s.mem.out && DataInv(calls, s'.mem, done, i, k + 1)
  {
    if i > 0 { assert Follows(calls[i - 1], calls[i]); }
  }

  lemma {:induction false} LaunchValues(calls: seq<Call>, s: State, addr: TaskQueue.Addr, i: nat, k: nat)
    requires i < |calls| && k < OpCount(calls[i]) && OpAt(calls[i], k).Launch? && ValuesInv(calls, s, i, k)
    requires s.rest != [] && s.rest[0] == OpAt(calls[i], k) && StreamStep(s, addr).q.ran == s.q.ran
    ensures ValuesInv(calls, StreamStep(s, addr), i, k) && ValuesInv(calls, StreamStep(s, addr), i, k + 1)
  {
    LaunchMoves(s, OpAt(calls[i], k).task, addr);
    LaunchData(calls, s.mem, |s.q.ran|, i, k);
  }

  lemma {:induction false} LaunchData(calls: seq<Call>, m: Mem, done: nat, i: nat, k: nat)
    requires i < |calls| && k < OpCount(calls[i]) && OpAt(calls[i], k).Launch? && DataInv(calls, m, done, i, k)
    ensures DataInv(calls, m, done, i, k + 1)
  {
  }

  lemma {:induction false} WaitValues(calls: seq<Call>, s: State, addr: TaskQueue.Addr, i: nat, k: nat)
    requires i < |calls| && k < OpCount(calls[i]) && OpAt(calls[i], k).Wait? && ValuesInv(calls, s, i, k)
    requires s.rest != [] && s.rest[0] == OpAt(calls[i], k)
    ensures ValuesInv(calls, StreamStep(s, addr), i, k + 1)
  {
  }

  lemma {:induction false} CopyOutValues(calls: seq<Call>, s: State, addr: TaskQueue.Addr, i: nat, k: nat)
    requires Chained(calls) && Positioned(calls, s, i, k) && i < |calls| && OpAt(calls[i], k).CopyOut?
    requires ValuesInv(calls, s, i, k) && s.rest != [] && s.rest[0] == OpAt(calls[i], k)
    requires !InUse(s, OpAt(calls[i], k))
    ensures ValuesInv(calls, StreamStep(s, addr), i + 1, 0)
  {
    CopyOutIsLast(calls[i], k);
    CopyOutStep(s, Slot(calls[i]), addr);
    NextData(calls, s, i, k);
    NextOut(calls, s.mem, |s.q.ran|, i);
    OneMoreReturned(calls, s.returned, i);
  }

  lemma {:induction false} CopyOutStep(s: State, at: Place, addr: TaskQueue.Addr)
    requires s.rest != [] && s.rest[0] == CopyOut(at) && !InUse(s, CopyOut(at))
    ensures StreamStep(s, addr) == s.(rest := s.rest[1..], returned := s.returned + [Lookup(s.mem.out, at, [])])
  {
  }

  /** What the finished call leaves behind is what the next one starts from. */
  lemma {:induction false} NextData(calls: seq<Call>, s: State, i: nat, k: nat)
    requires Positioned(calls, s, i, k) && i < |calls| && k == OpCount(calls[i]) - 1
    requires DataInv(calls, s.mem, |s.q.ran|, i, k) && OutInv(calls, s.mem, |s.q.ran|, i)
    ensures |s.q.ran| <= Base(calls, i + 1) && DataInv(calls, s.mem, |s.q.ran|, i + 1, 0)
    ensures Lookup(s.mem.out, Slot(calls[i]), []) == Expected(calls, i)
  {
  }

  /** The slot the deferred task wrote is the next call's. */
  lemma {:induction false} NextOut(calls: seq<Call>, m: Mem, done: nat, i: nat)
    requires Chained(calls) && i < |calls| && done <= Base(calls, i + 1) && OutInv(calls, m, done, i)
    ensures OutInv(calls, m, done, i + 1)
  {
    if i + 1 < |calls| {
      assert Follows(calls[i], calls[i + 1]);
      if calls[i].def.Some? { assert NextSlot(calls[i]) == Slot(calls[i + 1]); }
    }
  }

  lemma {:induction false} OneMoreReturned(calls: seq<Call>, returned: seq<seq<Contribution>>, i: nat)
    requires i < |calls| && ReturnedInv(calls, returned, i)
    ensures ReturnedInv(calls, returned + [Expected(calls, i)], i + 1)
  {
  }

  /** A finished task has computed what was intended, because its buffers still held what was intended. */
  lemma {:induction false} ExecuteValues(calls: seq<Call>, s: State, q': TaskQueue.State<Task>, i: nat, k: nat)
    requires Chained(calls) && Positioned(calls, s, i, k) && ValuesInv(calls, s, i, k)
    requires |s.q.ran| < |s.launched| && |q'.ran| == |s.q.ran| + 1
    ensures ValuesInv(calls, s.(q := q', mem := Execute(s.mem, s.launched[|s.q.ran|])), i, k)
  {
    var done := |s.q.ran|;
    if i < |calls| {
      UnfinishedAre(calls, s, i, k, done);
      if done < Base(calls, i) { ExecuteCarried(calls, s.mem, i, k); }
      else if done == Base(calls, i) { ExecuteImm(calls, s.mem, i, k); }
      else { ExecuteDef(calls, s.mem, i, k); }
    }
  }

  lemma {:induction false} ExecuteCarried(calls: seq<Call>, m: Mem, i: nat, k: nat)
    requires Chained(calls) && i < |calls| && Carried(calls, i) == 1
    requires DataInv(calls, m, Base(calls, i) - 1, i, k)
    ensures var m' := Execute(m, DefTask(calls[i - 1]));
            DataInv(calls, m', Base(calls, i), i, k) && OutInv(calls, m', Base(calls, i), i)
  {
    assert Follows(calls[i - 1], calls[i]);
    assert HasDef(m, calls[i - 1]);
  }

  lemma {:induction false} ExecuteImm(calls: seq<Call>, m: Mem, i: nat, k: nat)
    requires Chained(calls) && i < |calls| && k >= 3
    requires DataInv(calls, m, Base(calls, i), i, k) && OutInv(calls, m, Base(calls, i), i)
    ensures var m' := Execute(m, ImmTask(calls[i]));
            DataInv(calls, m', Base(calls, i) + 1, i, k) && OutInv(calls, m', Base(calls, i) + 1, i)
  {
    assert calls[i].incremental == (i > 0 && calls[i - 1].def.Some?);
    assert HasInput(m, calls[i]) && HasWeights(m, calls[i]) && HasImm(m, calls[i]);
  }

  lemma {:induction false} ExecuteDef(calls: seq<Call>, m: Mem, i: nat, k: nat)
    requires Chained(calls) && i < |calls| && k >= 5 && calls[i].def.Some?
    requires DataInv(calls, m, Base(calls, i) + 1, i, k) && OutInv(calls, m, Base(calls, i) + 1, i)
    ensures var m' := Execute(m, DefTask(calls[i]));
            DataInv(calls, m', Base(calls, i) + 2, i, k) && OutInv(calls, m', Base(calls, i) + 2, i)
  {
    assert HasInput(m, calls[i]) && HasWeights(m, calls[i]) && HasDef(m, calls[i]);
  }

  lemma {:induction false} WorkerValues(calls: seq<Call>, s: State, i: nat, k: nat)
    requires Chained(calls) && Inv(calls, s, i, k) && Enabled(s, Worker)
    ensures ValuesInv(calls, WorkerStep(s), i, k)
  {
    WorkerQueueInv(s);
    if s.q.worker.Running? { ExecuteValues(calls, s, WorkerStep(s).q, i, k); }
  }

  lemma {:induction false} QuietValues(calls: seq<Call>, s: State, addr: TaskQueue.Addr, i: nat, k: nat)
    requires Chained(calls) && Positioned(calls, s, i, k) && ValuesInv(calls, s, i, k)
    requires i < |calls| && k < OpCount(calls[i]) && !OpAt(calls[i], k).Launch?
    requires s.rest != [] && s.rest[0] == OpAt(calls[i], k) && !InUse(s, OpAt(calls[i], k))
    ensures ValuesInv(calls, StreamStep(s, addr), NextCall(calls, i, k), NextOp(calls, i, k))
  {
    match OpAt(calls[i], k)
    case Wait(_) => WaitValues(calls, s, addr, i, k);
    case CopyOut(_) => CopyOutValues(calls, s, addr, i, k);
    case _ => CopyInValues(calls, s, addr, i, k);
  }

  lemma {:induction false} StepInv(calls: seq<Call>, s: State, a: Action, i: nat, k: nat)
    requires Chained(calls) && Inv(calls, s, i, k) && Enabled(s, a)
    ensures var (i', k') := After(calls, s, a, i, k); Inv(calls, Apply(s, a), i', k')
  {
    PositionStep(calls, s, a, i, k);
    match a
    case Worker => WorkerValues(calls, s, i, k);
    case Stream(addr) =>
      Advance(calls, s.rest, i, k);
      if OpAt(calls[i], k).Launch? { LaunchStepValues(calls, s, addr, i, k); }
      else { QuietStepValues(calls, s, addr, i, k); }
  }

  lemma {:induction false} LaunchStepValues(calls: seq<Call>, s: State, addr: TaskQueue.Addr, i: nat, k: nat)
    requires Inv(calls, s, i, k) && Enabled(s, Stream(addr)) && i < |calls| && k < OpCount(calls[i])
    requires s.rest[0] == OpAt(calls[i], k) && OpAt(calls[i], k).Launch?
    ensures ValuesInv(calls, StreamStep(s, addr), i, k) && ValuesInv(calls, StreamStep(s, addr), i, k + 1)
    ensures k + 1 < OpCount(calls[i])
  {
    LaunchQueueInv(s, OpAt(calls[i], k).task, addr);
    LaunchValues(calls, s, addr, i, k);
  }

  lemma {:induction false} QuietStepValues(calls: seq<Call>, s: State, addr: TaskQueue.Addr, i: nat, k: nat)
    requires Chained(calls) && Positioned(calls, s, i, k) && ValuesInv(calls, s, i, k)
    requires i < |calls| && k < OpCount(calls[i]) && !OpAt(calls[i], k).Launch?
    requires s.rest != [] && s.rest[0] == OpAt(calls[i], k)
    ensures ValuesInv(calls, StreamStep(s, addr), NextCall(calls, i, k), NextOp(calls, i, k))
  {
    ChainedApart(calls);
    NoConflict(calls, s, i, k);
    QuietValues(calls, s, addr, i, k);
  }

  lemma {:induction false} RunInv(calls: seq<Call>, run: seq<State>, acts: seq<Action>, n: nat) returns (i: nat, k: nat)
    requires Chained(calls) && IsRun(Program(calls), run, acts) && n < |run|
    ensures Inv(calls, run[n], i, k)
  {
    if n == 0 {
      i, k := 0, 0;
      var dummy :| run[0] == Init(dummy, Program(calls));
      InitInv(calls, dummy);
    } else {
      var i', k' := RunInv(calls, run, acts, n - 1);
      StepInv(calls, run[n - 1], acts[n - 1], i', k');
      var next := After(calls, run[n - 1], acts[n - 1], i', k');
      i, k := next.0, next.1;
    }
  }

  // ---- what the pipeline promises -------------------------------------------------------------

  /** Race freedom: in every interleaving, no copy into a slot's input, weights or ids happens while a queued
      or running task reads it, and no output slot is copied out while an unfinished task writes it -
      although a wait may leave one task pending. */
  lemma {:induction false} RaceFree(calls: seq<Call>, run: seq<State>, acts: seq<Action>, n: nat)
    requires Chained(calls) && IsRun(Program(calls), run, acts) && n < |run|
    ensures !run[n].race && !run[n].q.fault
  {
    var i, k := RunInv(calls, run, acts, n);
  }

  /** Values: whatever the interleaving, the layers return exactly what they should, in order; and when the
      program is through, every layer has. */
  lemma {:induction false} ReturnsExpected(calls: seq<Call>, run: seq<State>, acts: seq<Action>, n: nat)
    requires Chained(calls) && IsRun(Program(calls), run, acts) && n < |run|
    ensures |run[n].returned| <= |calls|
    ensures forall j :: 0 <= j < |run[n].returned| ==> run[n].returned[j] == Expected(calls, j)
    ensures forall j, y :: 0 <= j < |run[n].returned| ==>
              multiset(run[n].returned[j])[y] == PutOff(calls, j, y) + ImmediateShares(calls[j], y)
    ensures run[n].rest == [] ==> |run[n].returned| == |calls|
  {
    var i, k := RunInv(calls, run, acts, n);
    if i < |calls| { Advance(calls, run[n].rest, i, k); }
    forall j, y | 0 <= j < |run[n].returned|
      ensures multiset(run[n].returned[j])[y] == PutOff(calls, j, y) + ImmediateShares(calls[j], y)
    {
      ExpectedIs(calls, j, y);
    }
  }

  /** The worker on its own, n steps further. */
  function WorkerAlone(s: State, n: nat): State
    decreases n
  {
    if n == 0 || s.q.worker.Exited? then s else WorkerAlone(WorkerStep(s), n - 1)
  }

  lemma {:induction false} WorkerAloneQueue(s: State, n: nat)
    ensures WorkerAlone(s, n).q == TaskQueue.WorkerAlone(s.q, n) && WorkerAlone(s, n).rest == s.rest
    decreases n
  {
    if n > 0 && !s.q.worker.Exited? { WorkerAloneQueue(WorkerStep(s), n - 1); }
  }

  /** The stream is never stuck: wherever it stands, its next step is possible at once or after at most six
      worker steps for each pending task. */
  lemma {:induction false} NeverStuck(calls: seq<Call>, s: State, i: nat, k: nat) returns (n: nat, addr: TaskQueue.Addr)
    requires PositionInv(calls, s, i, k) && s.rest != []
    ensures n <= 6 * s.q.pending || n == 0
    ensures Enabled(WorkerAlone(s, n), Stream(addr))
  {
    Advance(calls, s.rest, i, k);
    addr := FreshAddress(s.q.heap);
    if s.rest[0].Wait? {
      assert forall p :: TaskQueue.Pc(s.q, p) == TaskQueue.Idle;
      n := TaskQueue.WorkerCatchesUp(s.q);
      WorkerAloneQueue(s, n);
    } else {
      n := 0;
    }
  }

  lemma {:induction false} FreshAddress<V>(m: map<TaskQueue.Addr, V>) returns (a: TaskQueue.Addr)
    ensures a !in m
  {
    a := Above(m.Keys);
    assert a !in m.Keys;
  }

  lemma {:induction false} Above(s: set<nat>) returns (a: nat)
    ensures forall b :: b in s ==> b < a
  {
    if s == {} {
      a := 0;
    } else {
      var b :| b in s;
      var c := Above(s - {b});
      assert forall x :: x in s ==> x == b || x in s - {b};
      a := if b < c then c else b + 1;
    }
  }

  // ---- conservation ---------------------------------------------------------------------------

  /** How often y is a share that the call runs at once. */
  function ImmediateShares(c: Call, y: Contribution): nat {
    Shares(c.layer, c.imm, c.w, c.x, y)
  }

  /** How often it is one that the call defers. */
  function DeferredShares(c: Call, y: Contribution): nat {
    match c.def
    case None => 0
    case Some(ids) => Shares(c.layer, ids, c.w, c.x, y)
  }

  /** How often some calls ask for y. */
  function TimesAsked(calls: seq<Call>, y: Contribution): nat
    decreases |calls|
  {
    if calls == [] then 0
    else
      var m := |calls| - 1;
      TimesAsked(calls[..m], y) + ImmediateShares(calls[m], y) + DeferredShares(calls[m], y)
  }

  /** How often y was put off by the call before the n-th. */
  function PutOff(calls: seq<Call>, n: nat, y: Contribution): nat
    requires n <= |calls|
  {
    if n == 0 then 0 else DeferredShares(calls[n - 1], y)
  }

  /** An output holds the shares that its own call runs at once and those that the call before deferred. */
  lemma {:induction false} ExpectedIs(calls: seq<Call>, i: nat, y: Contribution)
    requires i < |calls|
    ensures multiset(Expected(calls, i))[y] == PutOff(calls, i, y) + ImmediateShares(calls[i], y)
  {
    var c := calls[i];
    ForwardIs(c.layer, c.imm, c.w, c.x, y);
    if i > 0 { DeferredIs(calls[i - 1], y); }
  }

  lemma {:induction false} DeferredIs(c: Call, y: Contribution)
    ensures multiset(Deferred(c))[y] == DeferredShares(c, y)
  {
    if c.def.Some? { ForwardIs(c.layer, c.def.value, c.w, c.x, y); }
  }

  /** What the first n calls return is what they asked for, except what the n-th one deferred. */
  lemma {:induction false} ExpectedTotal(calls: seq<Call>, returned: seq<seq<Contribution>>, n: nat, y: Contribution)
    requires n <= |calls| && |returned| == n && forall j :: 0 <= j < n ==> returned[j] == Expected(calls, j)
    ensures multiset(Sequences.Concat(returned))[y] + PutOff(calls, n, y) == TimesAsked(calls[..n], y)
  {
    ExpectedCount(calls, returned, n, y);
    Sequences.OccurrencesAreMultiplicity(Sequences.Concat(returned), y);
  }

  lemma {:induction false} ExpectedCount(calls: seq<Call>, returned: seq<seq<Contribution>>, n: nat, y: Contribution)
    requires n <= |calls| && |returned| == n && forall j :: 0 <= j < n ==> returned[j] == Expected(calls, j)
    ensures Sequences.Occurrences(Sequences.Concat(returned), y) + PutOff(calls, n, y) == TimesAsked(calls[..n], y)
    decreases n
  {
    if n > 0 {
      var m := n - 1;
      ExpectedCount(calls, returned[..m], m, y);
      ExpectedIs(calls, m, y);
      Sequences.OccurrencesAreMultiplicity(Expected(calls, m), y);
      Sequences.OccurrencesConcat(Sequences.Concat(returned[..m]), returned[m], y);
      assert calls[..n][..m] == calls[..m];
    }
  }

  ghost predicate LeavesNothing(c: Call) {
    forall y :: DeferredShares(c, y) == 0
  }

  /** Every contribution is among the outputs as often as it was asked for. */
  ghost predicate AllReturned(calls: seq<Call>, returned: seq<seq<Contribution>>) {
    forall y :: multiset(Sequences.Concat(returned))[y] == TimesAsked(calls, y)
  }

  /** Over a whole run every contribution comes back as often as it was asked for - none lost, doubled or
      overwritten - if and only if the last call left nothing deferred behind. */
  lemma {:induction false} ConservedExactlyWhen(calls: seq<Call>, run: seq<State>, acts: seq<Action>, n: nat)
    requires Chained(calls) && IsRun(Program(calls), run, acts) && n < |run| && run[n].rest == []
    ensures AllReturned(calls, run[n].returned) <==> (calls == [] || LeavesNothing(calls[|calls| - 1]))
  {
    ReturnsExpected(calls, run, acts, n);
    ReturnedExactlyWhen(calls, run[n].returned);
  }

  lemma {:induction false} ReturnedExactlyWhen(calls: seq<Call>, returned: seq<seq<Contribution>>)
    requires |returned| == |calls| && forall j :: 0 <= j < |calls| ==> returned[j] == Expected(calls, j)
    ensures AllReturned(calls, returned) <==> (calls == [] || LeavesNothing(calls[|calls| - 1]))
  {
    var all := multiset(Sequences.Concat(returned));
    assert calls[..|calls|] == calls;
    forall y ensures all[y] + PutOff(calls, |calls|, y) == TimesAsked(calls, y) {
      ExpectedTotal(calls, returned, |calls|, y);
    }
    if calls != [] && AllReturned(calls, returned) {
      var last := calls[|calls| - 1];
      forall y ensures DeferredShares(last, y) == 0 { assert all[y] == TimesAsked(calls, y); }
    }
  }

  /** A sound split of the ids splits the shares. */
  lemma {:induction false} SplitShares(layer: nat, ids: Ids, imm: Ids, def: Ids, w: Weights, x: Batch, y: Contribution)
    requires Deferral.Partition(ids, imm, def)
    ensures Shares(layer, ids, w, x, y) == Shares(layer, imm, w, x, y) + Shares(layer, def, w, x, y)
  {
  }

  lemma {:induction false} ForwardSplit(layer: nat, token: nat, ids: Ids, imm: Ids, def: Ids, w: Weights, x: Batch)
    requires Deferral.Partition(ids, imm, def)
    ensures multiset(Forward(layer, token, ids, w, x))
            == multiset(Forward(layer, token, imm, w, x)) + multiset(Forward(layer, token, def, w, x))
  {
    var all := multiset(Forward(layer, token, ids, w, x));
    var parts := multiset(Forward(layer, token, imm, w, x)) + multiset(Forward(layer, token, def, w, x));
    forall y ensures all[y] == parts[y] {
      ForwardFrom(layer, token, ids, w, x, y);
      Sequences.OccurrencesAreMultiplicity(Forward(layer, token, ids, w, x), y);
      ForwardFrom(layer, token, imm, w, x, y);
      Sequences.OccurrencesAreMultiplicity(Forward(layer, token, imm, w, x), y);
      ForwardFrom(layer, token, def, w, x, y);
      Sequences.OccurrencesAreMultiplicity(Forward(layer, token, def, w, x), y);
      SplitShares(layer, ids, imm, def, w, x, y);
    }
  }
}
