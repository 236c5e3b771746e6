/**
 The lock-free task queue of `cpu_backend/task_queue.{h,cpp}`: any number of producers, one worker
 thread, and an owner that destroys the queue.

 Every access to an atomic field, every `new`, `delete` and task invocation is one step; the steps of
 different threads interleave in any order.  An address may be handed out again by `new` once it has been
 deleted.  A step that follows a pointer to a node that is no longer allocated is not ruled out by a guard:
 it raises `fault`, and the invariant shows that no reachable state has it raised.
 */
module TaskQueue {
  import opened Prelude

  type Addr = nat
  type Tid = nat

  /** A queue node: the closure (None for the empty `std::function`) and the link. */
  datatype Node<+T> = Node(task: Option<T>, next: Option<Addr>)

  /** Where a producer stands inside `enqueue`. */
  datatype ProducerPc<+T> =
    | Idle
    | Counted(task: Option<T>)                        // pending.fetch_add done
    | Allocated(node: Addr, ghost closure: Option<T>)       // new Node(task) done
    | Exchanged(node: Addr, prev: Addr, ghost ticket: nat)  // tail.exchange done; its place in exchange order

  /** Where the worker stands inside `worker`. */
  datatype WorkerPc =
    | AtDone             // about to load done
    | AtNext             // about to load curr->next
    | Running(next: Addr)   // next->task() is executing
    | Deleting(next: Addr)  // the task has returned
    | AtHead             // about to store head
    | AtSub              // about to decrement pending
    | Exited

  /** Where the owner stands inside the destructor. */
  datatype OwnerPc = Alive | Joining | Walking(node: Option<Addr>) | Destroyed

  /** History of one `tail.exchange`: which node went in, with what closure, by whom, and whether the
      predecessor's link has been stored. */
  datatype Ticket<+T> = Ticket(node: Addr, task: Option<T>, who: Tid, linked: bool)

  datatype State<+T> = State(
    // shared memory
    heap: map<Addr, Node<T>>, head: Addr, tail: Addr, done: bool, pending: int,
    // threads
    producers: map<Tid, ProducerPc<T>>, worker: WorkerPc, curr: Addr, owner: OwnerPc,
    // history
    order: seq<Ticket<T>>, ran: seq<Option<T>>, begun: nat, finished: nat, news: nat, frees: nat,
    fault: bool)

  datatype Action<+T> =
    | Begin(p: Tid, task: Option<T>)
    | Alloc(p: Tid, addr: Addr)
    | Exchange(p: Tid)
    | Link(p: Tid)
    | Work
    | StoreDone
    | Join
    | Walk

  function Pc<T>(s: State<T>, p: Tid): ProducerPc<T> {
    if p in s.producers then s.producers[p] else Idle
  }

  ghost predicate AllIdle<T>(s: State<T>) {
    forall p :: Pc(s, p) == Idle
  }

  function Init<T>(dummy: Addr): State<T> {
    State(map[dummy := Node(None, None)], dummy, dummy, false, 0,
          map[], AtDone, dummy, Alive,
          [Ticket(dummy, None, 0, true)], [], 0, 0, 1, 0, false)
  }

  // ---- the steps ----------------------------------------------------------------------------

  function BeginStep<T>(s: State<T>, p: Tid, task: Option<T>): State<T> {
    s.(pending := s.pending + 1, begun := s.begun + 1, producers := s.producers[p := Counted(task)])
  }

  function AllocStep<T>(s: State<T>, p: Tid, a: Addr): State<T>
    requires Pc(s, p).Counted?
  {
    s.(heap := s.heap[a := Node(Pc(s, p).task, None)], news := s.news + 1,
       producers := s.producers[p := Allocated(a, Pc(s, p).task)])
  }

  function ExchangeStep<T>(s: State<T>, p: Tid): State<T>
    requires Pc(s, p).Allocated?
  {
    var n := Pc(s, p).node;
    var task := if n in s.heap then s.heap[n].task else None;
    s.(tail := n, producers := s.producers[p := Exchanged(n, s.tail, |s.order|)],
       order := s.order + [Ticket(n, task, p, false)])
  }

  ghost function LinkStep<T>(s: State<T>, p: Tid): State<T>
    requires Pc(s, p).Exchanged?
  {
    var Exchanged(n, prev, k) := Pc(s, p);
    var s' := s.(producers := s.producers[p := Idle],
                 order := if k < |s.order| then s.order[k := s.order[k].(linked := true)] else s.order);
    if prev in s.heap then s'.(heap := s.heap[prev := s.heap[prev].(next := Some(n))])
    else s'.(fault := true)
  }

  function WorkStep<T>(s: State<T>): State<T>
    requires !s.worker.Exited?
  {
    match s.worker
    case AtDone => s.(worker := if s.done then Exited else AtNext)
    case AtNext =>
      if s.curr !in s.heap then s.(fault := true)
      else (match s.heap[s.curr].next
            case None => s.(worker := AtDone)
            case Some(n) => s.(worker := Running(n)))
    case Running(n) =>
      if n !in s.heap then s.(fault := true)
      else s.(worker := Deleting(n), ran := s.ran + [s.heap[n].task])
    case Deleting(n) =>
      if s.curr !in s.heap then s.(fault := true)
      else s.(heap := s.heap - {s.curr}, curr := n, frees := s.frees + 1, worker := AtHead)
    case AtHead => s.(head := s.curr, worker := AtSub)
    case AtSub => s.(pending := s.pending - 1, finished := s.finished + 1, worker := AtDone)
  }

  function WalkStep<T>(s: State<T>): State<T>
    requires s.owner.Walking?
  {
    match s.owner.node
    case None => s.(owner := Destroyed)
    case Some(n) =>
      if n !in s.heap then s.(fault := true)
      else s.(owner := Walking(s.heap[n].next), heap := s.heap - {n}, frees := s.frees + 1)
  }

  /** The destructor may only be entered when no `enqueue` is in flight, and no `enqueue` may start once it
      has been entered (the C++ rule for destroying an object).  Nothing else restricts a thread. */
  ghost predicate Enabled<T>(s: State<T>, a: Action<T>) {
    match a
    case Begin(p, _) => Pc(s, p).Idle? && s.owner.Alive?
    case Alloc(p, addr) => Pc(s, p).Counted? && addr !in s.heap
    case Exchange(p) => Pc(s, p).Allocated?
    case Link(p) => Pc(s, p).Exchanged?
    case Work => !s.worker.Exited?
    case StoreDone => s.owner.Alive? && AllIdle(s)
    case Join => s.owner.Joining? && s.worker.Exited?
    case Walk => s.owner.Walking?
  }

  ghost function Apply<T>(s: State<T>, a: Action<T>): State<T>
    requires Enabled(s, a)
  {
    match a
    case Begin(p, task) => BeginStep(s, p, task)
    case Alloc(p, addr) => AllocStep(s, p, addr)
    case Exchange(p) => ExchangeStep(s, p)
    case Link(p) => LinkStep(s, p)
    case Work => WorkStep(s)
    case StoreDone => s.(done := true, owner := Joining)
    case Join => s.(owner := Walking(Some(s.head)))
    case Walk => WalkStep(s)
  }

  ghost predicate IsRun<T>(run: seq<State<T>>, acts: seq<Action<T>>) {
    && |run| == |acts| + 1
    && (exists dummy :: run[0] == Init(dummy))
    && forall i :: 0 <= i < |acts| ==> Enabled(run[i], acts[i]) && run[i + 1] == Apply(run[i], acts[i])
  }

  // ---- the invariant ------------------------------------------------------------------------

  /** Number of nodes the worker and the destructor have left behind; order[Base(s)] is the oldest live node. */
  function Base<T>(s: State<T>): nat {
    s.frees
  }

  /** The live nodes of the chain are pairwise different, and their links are exactly the stored ones. */
  ghost predicate ChainInv<T>(s: State<T>) {
    && 1 <= |s.order|
    && Base(s) <= |s.order|
    && s.order[0].task == None
    && s.order[0].linked
    && s.tail == s.order[|s.order| - 1].node
    && (forall i, j :: Base(s) <= i < j < |s.order| ==> s.order[i].node != s.order[j].node)
    && (forall i :: Base(s) <= i < |s.order| ==> NodeOk(s, i))
  }

  /** Ticket i's node is allocated and holds its closure and the link stored so far. */
  ghost predicate NodeOk<T>(s: State<T>, i: nat)
    requires i < |s.order|
  {
    && s.order[i].node in s.heap
    && s.heap[s.order[i].node] == Node(s.order[i].task, LinkAfter(s, i))
  }

  /** The link that the node of ticket i holds. */
  function LinkAfter<T>(s: State<T>, i: nat): Option<Addr> {
    if i + 1 < |s.order| && s.order[i + 1].linked then Some(s.order[i + 1].node) else None
  }

  /** Every in-flight producer and what it still owns. */
  ghost predicate ProducerInv<T>(s: State<T>, p: Tid) {
    match Pc(s, p)
    case Idle => true
    case Counted(_) => true
    case Allocated(n, task) =>
      && n in s.heap && s.heap[n] == Node(task, None)
      && forall i :: Base(s) <= i < |s.order| ==> s.order[i].node != n
    case Exchanged(n, prev, k) =>
      && Base(s) < k < |s.order|
      && s.order[k].node == n && s.order[k - 1].node == prev
      && s.order[k].who == p && !s.order[k].linked
  }

  ghost predicate ProducersInv<T>(s: State<T>) {
    && (forall p :: ProducerInv(s, p))
    && (forall p, q :: p != q && Pc(s, p).Allocated? && Pc(s, q).Allocated? ==> Pc(s, p).node != Pc(s, q).node)
    && (forall k :: 0 < k < |s.order| && !s.order[k].linked ==>
          var pc := Pc(s, s.order[k].who); pc.Exchanged? && pc.ticket == k)
    && (!s.owner.Alive? ==> AllIdle(s))
  }

  /** Nothing is allocated besides the chain and the nodes that producers are about to insert. */
  ghost predicate HeapInv<T>(s: State<T>) {
    forall a :: a in s.heap ==> InChain(s, a) || OwnedByProducer(s, a)
  }

  ghost predicate InChain<T>(s: State<T>, a: Addr) {
    exists i :: Base(s) <= i < |s.order| && s.order[i].node == a
  }

  ghost predicate OwnedByProducer<T>(s: State<T>, a: Addr) {
    exists p :: OwnsNode(s, p, a)
  }

  predicate OwnsNode<T>(s: State<T>, p: Tid, a: Addr) {
    Pc(s, p).Allocated? && Pc(s, p).node == a
  }

  ghost predicate WorkerInv<T>(s: State<T>) {
    && (s.owner.Alive? ==> !s.done)
    && (!s.owner.Alive? ==> s.done)
    && (s.owner.Walking? || s.owner.Destroyed? ==> s.worker.Exited?)
    && (s.worker.Exited? ==> s.done)
    && (if s.owner.Walking? || s.owner.Destroyed? then
          |s.ran| <= Base(s) && s.finished == |s.ran|
        else
          && Base(s) < |s.order|
          && s.curr == s.order[Base(s)].node
          && (match s.worker
              case Running(n) =>
                && Base(s) + 1 < |s.order| && s.order[Base(s) + 1].linked && n == s.order[Base(s) + 1].node
                && |s.ran| == Base(s) && s.finished == Base(s) && s.head == s.curr
              case Deleting(n) =>
                && Base(s) + 1 < |s.order| && s.order[Base(s) + 1].linked && n == s.order[Base(s) + 1].node
                && |s.ran| == Base(s) + 1 && s.finished == Base(s) && s.head == s.curr
              case AtHead => |s.ran| == Base(s) && s.finished + 1 == Base(s)
              case AtSub => |s.ran| == Base(s) && s.finished + 1 == Base(s) && s.head == s.curr
              case _ => |s.ran| == Base(s) && s.finished == Base(s) && s.head == s.curr))
    && (match s.owner
        case Walking(node) => node == if Base(s) < |s.order| then Some(s.order[Base(s)].node) else None
        case Destroyed => Base(s) == |s.order|
        case _ => true)
  }

  /** The producers that have counted their task but not yet swung the tail. */
  function Entering<T>(s: State<T>): set<Tid> {
    set p | p in s.producers && (s.producers[p].Counted? || s.producers[p].Allocated?)
  }

  ghost predicate HistoryInv<T>(s: State<T>) {
    && |s.ran| < |s.order|
    && (forall i :: 0 <= i < |s.ran| ==> RanOk(s, i))
    && s.pending == s.begun - s.finished
    && s.begun == |s.order| - 1 + |Entering(s)|
    && s.news == s.frees + |s.heap|
    && !s.fault
  }

  /** The i-th closure that ran is the one of the i-th exchange after the dummy's. */
  ghost predicate RanOk<T>(s: State<T>, i: nat)
    requires i < |s.ran| < |s.order|
  {
    s.ran[i] == s.order[i + 1].task && s.order[i + 1].linked
  }

  ghost predicate Inv<T>(s: State<T>) {
    ChainInv(s) && ProducersInv(s) && HeapInv(s) && WorkerInv(s) && HistoryInv(s)
  }

  lemma {:induction false} InitInv<T>(dummy: Addr)
    ensures Inv(Init<T>(dummy))
  {
    var s := Init<T>(dummy);
    assert InChain(s, dummy) by { assert s.order[0].node == dummy; }
  }

  // ---- each part of the invariant survives each step -----------------------------------------

  /** A step that keeps the tickets and the surviving nodes of the chain keeps the chain well-formed. */
  lemma {:induction false} KeepChain<T>(s: State<T>, s': State<T>)
    requires ChainInv(s) && s'.order == s.order && s'.tail == s.tail && Base(s) <= Base(s') <= |s.order|
    requires forall i :: Base(s') <= i < |s.order| && s.order[i].node in s.heap ==>
               s.order[i].node in s'.heap && s'.heap[s.order[i].node] == s.heap[s.order[i].node]
    ensures ChainInv(s')
  {
    forall i | Base(s') <= i < |s'.order| ensures NodeOk(s', i) { assert NodeOk(s, i); }
  }

  /** Ownership of an address carries over when the chain and its producer are as before. */
  lemma {:induction false} KeepOwner<T>(s: State<T>, s': State<T>, a: Addr)
    requires InChain(s, a) || OwnedByProducer(s, a)
    requires forall q :: OwnsNode(s, q, a) ==> OwnsNode(s', q, a)
    requires forall i :: Base(s) <= i < |s.order| && s.order[i].node == a ==>
               Base(s') <= i < |s'.order| && s'.order[i].node == a
    ensures InChain(s', a) || OwnedByProducer(s', a)
  {
  }

  /** Producers' steps do not touch what the worker and the owner rely on. */
  lemma {:induction false} KeepWorker<T>(s: State<T>, s': State<T>)
    requires WorkerInv(s) && s.owner.Alive? && |s.order| <= |s'.order|
    requires s' == s.(heap := s'.heap, tail := s'.tail, pending := s'.pending, producers := s'.producers,
                      order := s'.order, begun := s'.begun, news := s'.news)
    requires forall i :: 0 <= i < |s.order| ==>
               s'.order[i].node == s.order[i].node && (s.order[i].linked ==> s'.order[i].linked)
    ensures WorkerInv(s')
  {
  }

  lemma {:induction false} KeepRan<T>(s: State<T>, s': State<T>)
    requires |s.ran| < |s.order| <= |s'.order| && s'.ran == s.ran
    requires forall i :: 0 <= i < |s.ran| ==> RanOk(s, i)
    requires forall i :: 0 <= i < |s.order| ==>
               s'.order[i].task == s.order[i].task && (s.order[i].linked ==> s'.order[i].linked)
    ensures forall i :: 0 <= i < |s'.ran| ==> RanOk(s', i)
  {
    forall i | 0 <= i < |s'.ran| ensures RanOk(s', i) { assert RanOk(s, i); }
  }

  /** Worker and owner steps leave all producers where they are. */
  lemma {:induction false} KeepProducers<T>(s: State<T>, s': State<T>)
    requires ProducersInv(s) && s'.producers == s.producers && s'.order == s.order && Base(s) <= Base(s')
    requires !s'.owner.Alive? ==> AllIdle(s)
    requires forall p :: Pc(s, p).Allocated? && Pc(s, p).node in s.heap ==>
               Pc(s, p).node in s'.heap && s'.heap[Pc(s, p).node] == s.heap[Pc(s, p).node]
    requires forall p :: Pc(s, p).Exchanged? ==> Base(s') < Pc(s, p).ticket
    ensures ProducersInv(s')
  {
    assert forall q :: Pc(s', q) == Pc(s, q);
    forall q ensures ProducerInv(s', q) { assert ProducerInv(s, q); }
  }

  lemma {:induction false} BeginInv<T>(s: State<T>, p: Tid, task: Option<T>)
    requires Inv(s) && Enabled(s, Begin(p, task))
    ensures Inv(BeginStep(s, p, task))
  {
    var s' := BeginStep(s, p, task);
    assert ChainInv(s') by { KeepChain(s, s'); }
    assert ProducersInv(s') by { BeginProducers(s, p, task); }
    assert HeapInv(s') by { BeginHeap(s, p, task); }
    assert WorkerInv(s') by { KeepWorker(s, s'); }
    assert HistoryInv(s') by { BeginHistory(s, p, task); }
  }

  lemma {:induction false} BeginHistory<T>(s: State<T>, p: Tid, task: Option<T>)
    requires HistoryInv(s) && Enabled(s, Begin(p, task))
    ensures HistoryInv(BeginStep(s, p, task))
  {
    var s' := BeginStep(s, p, task);
    KeepRan(s, s');
    EnteringGrows(s, s', p);
  }

  lemma {:induction false} EnteringGrows<T>(s: State<T>, s': State<T>, p: Tid)
    requires Pc(s, p).Idle? && Pc(s', p).Counted? && s'.producers == s.producers[p := Pc(s', p)]
    ensures |Entering(s')| == |Entering(s)| + 1
  {
    assert p !in Entering(s);
    assert Entering(s') == Entering(s) + {p};
  }

  lemma {:induction false} BeginProducers<T>(s: State<T>, p: Tid, task: Option<T>)
    requires ProducersInv(s) && Enabled(s, Begin(p, task))
    ensures ProducersInv(BeginStep(s, p, task))
  {
    var s' := BeginStep(s, p, task);
    assert forall q :: q != p ==> Pc(s', q) == Pc(s, q);
    forall q ensures ProducerInv(s', q) { assert ProducerInv(s, q); }
  }

  lemma {:induction false} BeginHeap<T>(s: State<T>, p: Tid, task: Option<T>)
    requires HeapInv(s) && Enabled(s, Begin(p, task))
    ensures HeapInv(BeginStep(s, p, task))
  {
    var s' := BeginStep(s, p, task);
    assert forall q :: q != p ==> Pc(s', q) == Pc(s, q);
    forall a | a in s'.heap ensures InChain(s', a) || OwnedByProducer(s', a) { KeepOwner(s, s', a); }
  }

  lemma {:induction false} AllocInv<T>(s: State<T>, p: Tid, a: Addr)
    requires Inv(s) && Enabled(s, Alloc(p, a))
    ensures Inv(AllocStep(s, p, a))
  {
    var s' := AllocStep(s, p, a);
    KeepChain(s, s');
    AllocProducers(s, p, a);
    AllocHeap(s, p, a);
    KeepWorker(s, s') by { assert ProducersInv(s); }
    KeepRan(s, s');
    assert Entering(s') == Entering(s);
  }

  lemma {:induction false} AllocProducers<T>(s: State<T>, p: Tid, a: Addr)
    requires ChainInv(s) && ProducersInv(s) && Enabled(s, Alloc(p, a))
    ensures ProducersInv(AllocStep(s, p, a)) && s.owner.Alive?
  {
    var s' := AllocStep(s, p, a);
    assert forall q :: q != p ==> Pc(s', q) == Pc(s, q);
    forall i | Base(s) <= i < |s.order| ensures s.order[i].node != a { assert NodeOk(s, i); }
    forall q ensures ProducerInv(s', q) { assert ProducerInv(s, q); }
    forall q | q != p && Pc(s', q).Allocated? ensures Pc(s', q).node != a { assert ProducerInv(s, q); }
  }

  lemma {:induction false} AllocHeap<T>(s: State<T>, p: Tid, a: Addr)
    requires HeapInv(s) && Enabled(s, Alloc(p, a))
    ensures HeapInv(AllocStep(s, p, a))
  {
    var s' := AllocStep(s, p, a);
    assert forall q :: q != p ==> Pc(s', q) == Pc(s, q);
    forall b | b in s'.heap ensures InChain(s', b) || OwnedByProducer(s', b) {
      if b == a { assert OwnsNode(s', p, a); } else { KeepOwner(s, s', b); }
    }
  }

  lemma {:induction false} ExchangeInv<T>(s: State<T>, p: Tid)
    requires Inv(s) && Enabled(s, Exchange(p))
    ensures Inv(ExchangeStep(s, p))
  {
    var s' := ExchangeStep(s, p);
    ExchangeChain(s, p);
    ExchangeProducers(s, p);
    ExchangeHeap(s, p);
    KeepWorker(s, s');
    KeepRan(s, s');
    assert Entering(s') == Entering(s) - {p};
  }

  lemma {:induction false} ExchangeChain<T>(s: State<T>, p: Tid)
    requires ChainInv(s) && ProducersInv(s) && Enabled(s, Exchange(p))
    ensures ChainInv(ExchangeStep(s, p))
  {
    var s' := ExchangeStep(s, p);
    assert ProducerInv(s, p);
    forall i | Base(s') <= i < |s'.order| ensures NodeOk(s', i) {
      if i < |s.order| { assert NodeOk(s, i); }
    }
  }

  lemma {:induction false} ExchangeProducers<T>(s: State<T>, p: Tid)
    requires ChainInv(s) && ProducersInv(s) && WorkerInv(s) && Enabled(s, Exchange(p))
    ensures ProducersInv(ExchangeStep(s, p)) && s.owner.Alive?
  {
    var s' := ExchangeStep(s, p);
    assert s.owner.Alive?;
    assert forall q :: q != p ==> Pc(s', q) == Pc(s, q);
    forall q ensures ProducerInv(s', q) {
      assert ProducerInv(s, q);
      if q != p && Pc(s, q).Allocated? { assert Pc(s, q).node != Pc(s, p).node; }
    }
  }

  lemma {:induction false} ExchangeHeap<T>(s: State<T>, p: Tid)
    requires HeapInv(s) && Enabled(s, Exchange(p)) && Base(s) <= |s.order|
    ensures HeapInv(ExchangeStep(s, p))
  {
    var s' := ExchangeStep(s, p);
    assert forall q :: q != p ==> Pc(s', q) == Pc(s, q);
    forall b | b in s'.heap ensures InChain(s', b) || OwnedByProducer(s', b) {
      if b == Pc(s, p).node { assert s'.order[|s.order|].node == b; } else { KeepOwner(s, s', b); }
    }
  }

  lemma {:induction false} LinkInv<T>(s: State<T>, p: Tid)
    requires Inv(s) && Enabled(s, Link(p))
    ensures Inv(LinkStep(s, p))
  {
    var s' := LinkStep(s, p);
    LinkChain(s, p);
    LinkProducers(s, p);
    assert HeapInv(s') by { LinkHeap(s, p); }
    assert WorkerInv(s') by { KeepWorker(s, s'); }
    assert HistoryInv(s') by { LinkHistory(s, p); }
  }

  lemma {:induction false} LinkHistory<T>(s: State<T>, p: Tid)
    requires HistoryInv(s) && Enabled(s, Link(p)) && Pc(s, p).prev in s.heap && Pc(s, p).ticket < |s.order|
    ensures HistoryInv(LinkStep(s, p))
  {
    var s' := LinkStep(s, p);
    KeepRan(s, s');
    assert |s'.heap| == |s.heap| by { assert s'.heap.Keys == s.heap.Keys; }
    assert Entering(s') == Entering(s);
  }

  lemma {:induction false} LinkChain<T>(s: State<T>, p: Tid)
    requires ChainInv(s) && ProducersInv(s) && Enabled(s, Link(p))
    ensures ChainInv(LinkStep(s, p)) && Pc(s, p).prev in s.heap && Pc(s, p).ticket < |s.order|
  {
    var s' := LinkStep(s, p);
    var Exchanged(n, prev, k) := Pc(s, p);
    assert ProducerInv(s, p);
    assert NodeOk(s, k - 1);
    forall i | Base(s') <= i < |s'.order| ensures NodeOk(s', i) {
      assert NodeOk(s, i);
      if i != k - 1 { assert s.order[i].node != prev; }
    }
  }

  lemma {:induction false} LinkProducers<T>(s: State<T>, p: Tid)
    requires ChainInv(s) && ProducersInv(s) && Enabled(s, Link(p))
    ensures ProducersInv(LinkStep(s, p)) && s.owner.Alive?
  {
    var s' := LinkStep(s, p);
    assert ProducerInv(s, p);
    assert forall q :: q != p ==> Pc(s', q) == Pc(s, q);
    forall q ensures ProducerInv(s', q) { LinkProducer(s, p, q); }
    forall k | 0 < k < |s'.order| && !s'.order[k].linked
      ensures var pc := Pc(s', s'.order[k].who); pc.Exchanged? && pc.ticket == k
    {
      assert !s.order[k].linked && s'.order[k].who == s.order[k].who;
    }
  }

  lemma {:induction false} LinkProducer<T>(s: State<T>, p: Tid, q: Tid)
    requires ChainInv(s) && ProducersInv(s) && Enabled(s, Link(p))
    ensures ProducerInv(LinkStep(s, p), q)
  {
    assert ProducerInv(s, p) && ProducerInv(s, q);
    assert NodeOk(s, Pc(s, p).ticket - 1);
    if q != p { assert Pc(LinkStep(s, p), q) == Pc(s, q); }
  }

  lemma {:induction false} LinkHeap<T>(s: State<T>, p: Tid)
    requires HeapInv(s) && Enabled(s, Link(p)) && Pc(s, p).prev in s.heap
    ensures HeapInv(LinkStep(s, p))
  {
    var s' := LinkStep(s, p);
    assert forall q :: q != p ==> Pc(s', q) == Pc(s, q);
    forall b | b in s'.heap ensures InChain(s', b) || OwnedByProducer(s', b) { KeepOwner(s, s', b); }
  }

  lemma {:induction false} WorkInv<T>(s: State<T>)
    requires Inv(s) && Enabled(s, Work)
    ensures Inv(WorkStep(s))
  {
    WorkWorker(s);
    if s.worker.Deleting? {
      DeleteStepInv(s);
    } else {
      WorkFrame(s);
      WorkHistory(s);
      KeepMemory(s, WorkStep(s));
    }
  }

  /** Only `delete` changes which nodes exist. */
  lemma {:induction false} WorkFrame<T>(s: State<T>)
    requires !s.worker.Exited? && !s.worker.Deleting?
    ensures var s' := WorkStep(s);
            && s'.heap == s.heap && s'.producers == s.producers && s'.order == s.order
            && s'.frees == s.frees && s'.owner == s.owner && s'.tail == s.tail
  {
  }

  lemma {:induction false} KeepMemory<T>(s: State<T>, s': State<T>)
    requires ChainInv(s) && ProducersInv(s) && HeapInv(s)
    requires s'.heap == s.heap && s'.producers == s.producers && s'.order == s.order
    requires s'.frees == s.frees && s'.tail == s.tail && (s'.owner.Alive? || AllIdle(s))
    ensures ChainInv(s') && ProducersInv(s') && HeapInv(s')
  {
    KeepChain(s, s');
    forall p ensures Pc(s, p).Exchanged? ==> Base(s') < Pc(s, p).ticket { assert ProducerInv(s, p); }
    KeepProducers(s, s');
    KeepHeap(s, s');
  }

  lemma {:induction false} KeepHeap<T>(s: State<T>, s': State<T>)
    requires HeapInv(s) && s'.heap == s.heap && s'.producers == s.producers && s'.order == s.order
    requires Base(s') == Base(s)
    ensures HeapInv(s')
  {
    assert forall q :: Pc(s', q) == Pc(s, q);
    forall b | b in s'.heap ensures InChain(s', b) || OwnedByProducer(s', b) { KeepOwner(s, s', b); }
  }

  lemma {:induction false} WorkWorker<T>(s: State<T>)
    requires ChainInv(s) && WorkerInv(s) && Enabled(s, Work)
    ensures WorkerInv(WorkStep(s)) && WorkStep(s).fault == s.fault
  {
    assert NodeOk(s, Base(s));
    assert Base(s) + 1 < |s.order| ==> NodeOk(s, Base(s) + 1);
    assert s.owner.Alive? || s.owner.Joining?;
  }

  lemma {:induction false} WorkHistory<T>(s: State<T>)
    requires ChainInv(s) && WorkerInv(s) && HistoryInv(s) && Enabled(s, Work) && !s.worker.Deleting?
    ensures HistoryInv(WorkStep(s))
  {
    WorkWorker(s);
    if s.worker.Running? { RunHistory(s); } else { KeepRan(s, WorkStep(s)); }
  }

  lemma {:induction false} RunHistory<T>(s: State<T>)
    requires ChainInv(s) && WorkerInv(s) && HistoryInv(s) && Enabled(s, Work) && s.worker.Running?
    ensures HistoryInv(WorkStep(s))
  {
    var s' := WorkStep(s);
    WorkWorker(s);
    assert NodeOk(s, Base(s) + 1);
    forall i | 0 <= i < |s'.ran| ensures RanOk(s', i) { if i < |s.ran| { assert RanOk(s, i); } }
  }

  /** `delete curr`: the oldest node goes, and no producer and no link refers to it any more. */
  lemma {:induction false} DeleteStepInv<T>(s: State<T>)
    requires Inv(s) && s.worker.Deleting?
    ensures ChainInv(WorkStep(s)) && ProducersInv(WorkStep(s)) && HeapInv(WorkStep(s)) && HistoryInv(WorkStep(s))
  {
    var s' := WorkStep(s);
    assert NodeOk(s, Base(s));
    RemoveSize(s.heap, s.curr);
    FreeOldest(s, s', s.curr);
    KeepRan(s, s');
  }

  /** Freeing the oldest chain node, once its successor is linked in (or there is none and all is quiet). */
  lemma {:induction false} FreeOldest<T>(s: State<T>, s': State<T>, a: Addr)
    requires ChainInv(s) && ProducersInv(s) && HeapInv(s)
    requires Base(s) < |s.order| && a == s.order[Base(s)].node
    requires Base(s) + 1 < |s.order| ==> s.order[Base(s) + 1].linked
    requires Base(s) + 1 == |s.order| ==> AllIdle(s)
    requires s'.heap == s.heap - {a} && s'.frees == s.frees + 1
    requires s'.order == s.order && s'.tail == s.tail && s'.producers == s.producers
    requires s'.owner.Alive? == s.owner.Alive?
    ensures ChainInv(s') && ProducersInv(s') && HeapInv(s')
  {
    assert ChainInv(s') by { KeepChain(s, s'); }
    assert ProducersInv(s') by { FreeKeepsProducers(s, s', a); }
    assert HeapInv(s') by { FreeKeepsHeap(s, s', a); }
  }

  lemma {:induction false} FreeKeepsProducers<T>(s: State<T>, s': State<T>, a: Addr)
    requires ChainInv(s) && ProducersInv(s) && Base(s) < |s.order| && a == s.order[Base(s)].node
    requires Base(s) + 1 < |s.order| ==> s.order[Base(s) + 1].linked
    requires Base(s) + 1 == |s.order| ==> AllIdle(s)
    requires s'.heap == s.heap - {a} && s'.frees == s.frees + 1
    requires s'.order == s.order && s'.producers == s.producers && s'.owner.Alive? == s.owner.Alive?
    ensures ProducersInv(s')
  {
    forall p | Pc(s, p).Exchanged? ensures Base(s') < Pc(s, p).ticket { assert ProducerInv(s, p); }
    forall p | Pc(s, p).Allocated? ensures Pc(s, p).node != a { assert ProducerInv(s, p); }
    KeepProducers(s, s');
  }

  lemma {:induction false} FreeKeepsHeap<T>(s: State<T>, s': State<T>, a: Addr)
    requires HeapInv(s) && Base(s) < |s.order| && a == s.order[Base(s)].node
    requires s'.heap == s.heap - {a} && s'.frees == s.frees + 1
    requires s'.order == s.order && s'.producers == s.producers
    ensures HeapInv(s')
  {
    assert forall q :: Pc(s', q) == Pc(s, q);
    forall b | b in s'.heap ensures InChain(s', b) || OwnedByProducer(s', b) { KeepOwner(s, s', b); }
  }

  lemma {:induction false} RemoveSize<K, V>(m: map<K, V>, k: K)
    requires k in m
    ensures |m - {k}| == |m| - 1
  {
    assert (m - {k}).Keys == m.Keys - {k};
  }

  lemma {:induction false} OwnerInv<T>(s: State<T>, a: Action<T>)
    requires Inv(s) && Enabled(s, a) && (a.StoreDone? || a.Join? || a.Walk?)
    ensures Inv(Apply(s, a))
  {
    var s' := Apply(s, a);
    assert AllIdle(s);
    if a.Walk? && s.owner.node.Some? {
      WalkInv(s);
    } else {
      KeepMemory(s, s');
      KeepRan(s, s');
    }
  }

  /** The destructor frees the node at the front of what is left. */
  lemma {:induction false} WalkInv<T>(s: State<T>)
    requires Inv(s) && s.owner.Walking? && s.owner.node.Some?
    ensures Inv(WalkStep(s))
  {
    var s' := WalkStep(s);
    var a := s.owner.node.value;
    assert NodeOk(s, Base(s));
    RemoveSize(s.heap, a);
    assert AllIdle(s);
    FreeOldest(s, s', a);
    KeepRan(s, s');
  }

  lemma {:induction false} StepInv<T>(s: State<T>, a: Action<T>)
    requires Inv(s) && Enabled(s, a)
    ensures Inv(Apply(s, a))
  {
    match a
    case Begin(p, task) => BeginInv(s, p, task);
    case Alloc(p, addr) => AllocInv(s, p, addr);
    case Exchange(p) => ExchangeInv(s, p);
    case Link(p) => LinkInv(s, p);
    case Work => WorkInv(s);
    case _ => OwnerInv(s, a);
  }

  lemma {:induction false} RunInv<T>(run: seq<State<T>>, acts: seq<Action<T>>, i: nat)
    requires IsRun(run, acts) && i < |run|
    ensures Inv(run[i])
  {
    if i == 0 {
      var dummy :| run[0] == Init(dummy);
      InitInv<T>(dummy);
    } else {
      RunInv(run, acts, i - 1);
      StepInv(run[i - 1], acts[i - 1]);
    }
  }

  // ---- what the queue promises ----------------------------------------------------------------

  /** The node a producer is about to link from is live, not linked yet, and its own predecessor in exchange order. */
  ghost predicate LinkIsSafe<T>(s: State<T>, p: Tid)
    requires Pc(s, p).Exchanged?
  {
    var Exchanged(node, prev, k) := Pc(s, p);
    && prev in s.heap && s.heap[prev].next == None
    && s.frees < k < |s.order|
    && s.order[k - 1].node == prev && s.order[k].node == node
  }

  /** No thread ever follows a pointer to a deleted node, deletes one twice, or drives `pending` below zero;
      and the node a producer is about to link from is still the one that preceded it in exchange order. */
  lemma {:induction false} MemorySafety<T>(run: seq<State<T>>, acts: seq<Action<T>>, i: nat)
    requires IsRun(run, acts) && i < |run|
    ensures !run[i].fault && 0 <= run[i].pending
    ensures forall p :: Pc(run[i], p).Exchanged? ==> LinkIsSafe(run[i], p)
  {
    RunInv(run, acts, i);
    forall p | Pc(run[i], p).Exchanged? ensures LinkIsSafe(run[i], p) { ExchangedIsSafe(run[i], p); }
    PendingBounds(run[i]);
  }

  lemma {:induction false} ExchangedIsSafe<T>(s: State<T>, p: Tid)
    requires Inv(s) && Pc(s, p).Exchanged?
    ensures LinkIsSafe(s, p)
  {
    assert ProducerInv(s, p);
    assert NodeOk(s, Pc(s, p).ticket - 1);
  }

  lemma {:induction false} PendingBounds<T>(s: State<T>)
    requires Inv(s)
    ensures 0 <= s.pending && s.finished <= |s.ran| <= s.finished + 1
  {
  }

  /** The closures in exchange order, the dummy left out. */
  function Closures<T>(order: seq<Ticket<T>>): (r: seq<Option<T>>)
    ensures |r| == if order == [] then 0 else |order| - 1
    ensures forall i :: 0 <= i < |r| ==> r[i] == order[i + 1].task
  {
    if order == [] then [] else seq(|order| - 1, i requires 0 <= i < |order| - 1 => order[i + 1].task)
  }

  /** First-in first-out, exactly once: what has run is the start of the exchange order, in that order;
      everything after it has not run. */
  lemma {:induction false} RunsInExchangeOrder<T>(run: seq<State<T>>, acts: seq<Action<T>>, i: nat)
    requires IsRun(run, acts) && i < |run|
    ensures var s := run[i]; |s.ran| < |s.order| && s.ran == Closures(s.order)[..|s.ran|]
  {
    RunInv(run, acts, i);
    RanIsPrefix(run[i]);
  }

  lemma {:induction false} RanIsPrefix<T>(s: State<T>)
    requires Inv(s)
    ensures |s.ran| < |s.order| && s.ran == Closures(s.order)[..|s.ran|]
  {
    forall i | 0 <= i < |s.ran| ensures s.ran[i] == Closures(s.order)[i] { assert RanOk(s, i); }
  }

  /** The simple queue that the linked one refines. */
  datatype Fifo<+T> = Fifo(items: seq<Option<T>>, taken: nat)

  function Abstract<T>(s: State<T>): Fifo<T> {
    Fifo(Closures(s.order), |s.ran|)
  }

  /** One step of the simple queue: add at the end, take the next one out, or nothing. */
  ghost predicate FifoStep<T>(f: Fifo<T>, f': Fifo<T>, a: Action<T>, before: State<T>) {
    match a
    case Exchange(p) => Pc(before, p).Allocated? && f' == f.(items := f.items + [Pc(before, p).closure])
    case Work => f' == f || (before.worker.Running? && f.taken < |f.items| && f' == f.(taken := f.taken + 1))
    case _ => f' == f
  }

  /** Every step of every thread is a step of the simple queue; the closure that goes in at the exchange is
      the one `enqueue` was called with, and the closure the worker runs is the next one out. */
  lemma {:induction false} RefinesFifo<T>(s: State<T>, a: Action<T>)
    requires Inv(s) && Enabled(s, a)
    ensures FifoStep(Abstract(s), Abstract(Apply(s, a)), a, s)
    ensures a.Work? && s.worker.Running? ==>
              Apply(s, a).ran == s.ran + [Abstract(s).items[Abstract(s).taken]]
  {
    match a
    case Exchange(p) => ExchangeRefines(s, p);
    case Link(p) => LinkRefines(s, p);
    case Work => WorkRefines(s);
    case _ => assert Apply(s, a).order == s.order && Apply(s, a).ran == s.ran;
  }

  lemma {:induction false} ExchangeRefines<T>(s: State<T>, p: Tid)
    requires ChainInv(s) && ProducerInv(s, p) && Enabled(s, Exchange(p))
    ensures Abstract(ExchangeStep(s, p)).items == Abstract(s).items + [Pc(s, p).closure]
  {
    var s' := ExchangeStep(s, p);
    assert Closures(s'.order) == Closures(s.order) + [Pc(s, p).closure];
  }

  lemma {:induction false} LinkRefines<T>(s: State<T>, p: Tid)
    requires Enabled(s, Link(p))
    ensures Abstract(LinkStep(s, p)) == Abstract(s)
  {
    var s' := LinkStep(s, p);
    assert Closures(s'.order) == Closures(s.order);
  }

  lemma {:induction false} WorkRefines<T>(s: State<T>)
    requires ChainInv(s) && WorkerInv(s) && Enabled(s, Work)
    ensures WorkStep(s).order == s.order
    ensures s.worker.Running? ==>
              |s.ran| < |Closures(s.order)| && WorkStep(s).ran == s.ran + [Closures(s.order)[|s.ran|]]
    ensures !s.worker.Running? ==> WorkStep(s).ran == s.ran
  {
    assert NodeOk(s, Base(s));
    assert s.worker.Running? ==> NodeOk(s, Base(s) + 1);
  }

  /** `sync(n)` returns when it reads `pending <= n`.  At that moment all but at most n of the tasks whose
      `enqueue` has begun are complete, and the complete ones are the first in exchange order.  `pending`
      counts exactly the tasks begun whose completion has not been published. */
  lemma {:induction false} SyncMeansPrefix<T>(run: seq<State<T>>, acts: seq<Action<T>>, i: nat, n: nat)
    requires IsRun(run, acts) && i < |run|
    ensures run[i].pending == run[i].begun - run[i].finished
    ensures run[i].begun == |Closures(run[i].order)| + |Entering(run[i])|
    ensures run[i].pending <= n ==> |run[i].ran| >= run[i].begun - n
    ensures |run[i].ran| < |run[i].order|
    ensures run[i].ran == Closures(run[i].order)[..|run[i].ran|]
  {
    RunInv(run, acts, i);
    PendingBounds(run[i]);
    RanIsPrefix(run[i]);
  }

  /** Between tasks every completion has been published. */
  lemma {:induction false} BetweenTasks<T>(s: State<T>)
    requires Inv(s) && (s.worker.AtDone? || s.worker.AtNext?)
    ensures |s.ran| == s.finished && s.pending == s.begun - |s.ran|
  {
  }

  /** The converse: once at most n begun tasks lack their published completion, `sync(n)` gets through. */
  lemma {:induction false} SyncExactlyWhen<T>(run: seq<State<T>>, acts: seq<Action<T>>, i: nat, n: nat)
    requires IsRun(run, acts) && i < |run| && (run[i].worker.AtDone? || run[i].worker.AtNext?)
    ensures run[i].pending <= n <==> |run[i].ran| >= run[i].begun - n
  {
    RunInv(run, acts, i);
    BetweenTasks(run[i]);
  }

  /** After the destructor nothing is left allocated, and there have been as many deletes as news: with
      `MemorySafety` (no delete of a node that is not allocated), each node was freed exactly once. */
  lemma {:induction false} DestroyedIsClean<T>(run: seq<State<T>>, acts: seq<Action<T>>, i: nat)
    requires IsRun(run, acts) && i < |run| && run[i].owner.Destroyed?
    ensures run[i].heap == map[] && run[i].news == run[i].frees && run[i].news == |run[i].order|
  {
    RunInv(run, acts, i);
    DestroyedHeap(run[i]);
  }

  lemma {:induction false} DestroyedHeap<T>(s: State<T>)
    requires Inv(s) && s.owner.Destroyed?
    ensures s.heap == map[] && s.news == s.frees && s.news == |s.order|
  {
    forall a ensures a !in s.heap {
      assert forall p :: Pc(s, p) == Idle;
      assert !InChain(s, a) && !OwnedByProducer(s, a);
    }
    assert s.heap.Keys == {};
  }

  /** The worker on its own, k steps further. */
  function WorkerAlone<T>(s: State<T>, k: nat): State<T>
    decreases k
  {
    if k == 0 || s.worker.Exited? then s else WorkerAlone(WorkStep(s), k - 1)
  }

  /** Worker steps left until `pending` reaches zero, if nothing else arrives. */
  function Lag<T>(s: State<T>): int {
    6 * (s.pending - 1) + (match s.worker
                           case AtDone => 6
                           case AtNext => 5
                           case Running(_) => 4
                           case Deleting(_) => 3
                           case AtHead => 2
                           case AtSub => 1
                           case Exited => 0)
  }

  lemma {:induction false} IdleMeansQueued<T>(s: State<T>)
    requires Inv(s) && AllIdle(s)
    ensures s.begun == |s.order| - 1
    ensures forall k :: 0 < k < |s.order| ==> s.order[k].linked
  {
    forall p ensures p !in Entering(s) { assert Pc(s, p) == Idle; }
    assert Entering(s) == {};
  }

  lemma {:induction false} WorkLag<T>(s: State<T>)
    requires Inv(s) && s.owner.Alive? && AllIdle(s) && s.pending > 0
    ensures !s.worker.Exited?
    ensures var s' := WorkStep(s); (s'.pending == 0 || Lag(s') == Lag(s) - 1) && Lag(s) > 0
    ensures var s' := WorkStep(s); s'.owner.Alive? && AllIdle(s') && s'.order == s.order
  {
    IdleMeansQueued(s);
    assert NodeOk(s, Base(s));
    assert s.worker.Running? ==> NodeOk(s, Base(s) + 1);
    var s' := WorkStep(s);
    assert forall p :: Pc(s', p) == Pc(s, p);
  }

  lemma {:induction false} CatchUpStep<T>(s: State<T>)
    requires Inv(s) && s.owner.Alive? && AllIdle(s) && s.pending > 0
    ensures !s.worker.Exited? && 0 < Lag(s) <= 6 * s.pending
    ensures var s' := WorkStep(s);
            && Inv(s') && s'.owner.Alive? && AllIdle(s') && s'.order == s.order && s'.pending >= 0
            && (s'.pending > 0 ==> Lag(s') < Lag(s))
  {
    WorkLag(s);
    StepInv(s, Work);
    PendingBounds(WorkStep(s));
  }

  lemma {:induction false} OneMoreStep<T>(s: State<T>, k: nat)
    requires !s.worker.Exited?
    ensures WorkerAlone(s, k + 1) == WorkerAlone(WorkStep(s), k)
  {
  }

  lemma {:induction false} CaughtUp<T>(s: State<T>)
    requires Inv(s) && AllIdle(s) && s.pending == 0
    ensures s.ran == Closures(s.order)
  {
    PendingBounds(s);
    IdleMeansQueued(s);
    RanIsPrefix(s);
  }

  /** After `lag` worker steps or fewer there is nothing pending. */
  lemma {:induction false} CatchUp<T>(s: State<T>, lag: nat) returns (k: nat)
    requires Inv(s) && s.owner.Alive? && AllIdle(s) && s.pending > 0 && Lag(s) <= lag
    ensures k <= lag && Inv(WorkerAlone(s, k)) && AllIdle(WorkerAlone(s, k))
    ensures WorkerAlone(s, k).pending == 0 && WorkerAlone(s, k).order == s.order
    decreases lag
  {
    CatchUpStep(s);
    var s' := WorkStep(s);
    k := 0;
    if s'.pending > 0 { k := CatchUp(s', lag - 1); }
    OneMoreStep(s, k);
    k := k + 1;
  }

  /** With no `enqueue` in flight, a worker that keeps stepping brings `pending` down to zero within six steps
      a task, so a spinning `sync(n)` returns for every n; and all tasks have then run. */
  lemma {:induction false} WorkerCatchesUp<T>(s: State<T>) returns (k: nat)
    requires Inv(s) && s.owner.Alive? && AllIdle(s)
    ensures k <= 6 * s.pending && (s.pending > 0 ==> k <= Lag(s))
    ensures WorkerAlone(s, k).pending == 0 && WorkerAlone(s, k).order == s.order
    ensures WorkerAlone(s, k).ran == Closures(s.order)
  {
    PendingBounds(s);
    k := 0;
    if s.pending > 0 {
      CatchUpStep(s);
      k := CatchUp(s, Lag(s));
    }
    CaughtUp(WorkerAlone(s, k));
  }

  /** The pointers the worker and the destructor are about to follow. */
  lemma {:induction false} WorkReady<T>(s: State<T>)
    requires Inv(s)
    ensures !s.owner.Walking? && !s.owner.Destroyed? ==> s.curr in s.heap
    ensures s.worker.Running? ==> s.worker.next in s.heap
  {
    assert Base(s) < |s.order| ==> NodeOk(s, Base(s));
    assert Base(s) + 1 < |s.order| ==> NodeOk(s, Base(s) + 1);
  }

  lemma {:induction false} DeleteEffect<T>(s: State<T>)
    requires Inv(s) && s.worker.Deleting?
    ensures Inv(WorkStep(s))
    ensures WorkStep(s) == s.(heap := s.heap - {s.curr}, curr := s.worker.next, frees := s.frees + 1, worker := AtHead)
  {
    WorkInv(s);
    WorkReady(s);
  }

  lemma {:induction false} WalkReady<T>(s: State<T>)
    requires Inv(s) && s.owner.Walking? && s.owner.node.Some?
    ensures s.owner.node.value in s.heap
  {
    assert NodeOk(s, Base(s));
  }

  // ---- the queue object -----------------------------------------------------------------------

  /** The queue as an object: its atomic fields and nodes, the local variables of the threads inside its
      methods, and history.  Each method performs one access, in place and without checking the pointers it
      follows; its contract is the step function above, and that it may be called at all rests on `Inv`. */
  class LinkedTaskQueue<T> {
    var heap: map<Addr, Node<T>>
    var head: Addr
    var tail: Addr
    var done: bool
    var pending: int
    var producers: map<Tid, ProducerPc<T>>
    var worker: WorkerPc
    var curr: Addr
    var owner: OwnerPc
    ghost var order: seq<Ticket<T>>
    ghost var ran: seq<Option<T>>
    ghost var begun: nat
    ghost var finished: nat
    ghost var news: nat
    ghost var frees: nat

    ghost function View(): State<T>
      reads this
    {
      State(heap, head, tail, done, pending, producers, worker, curr, owner,
            order, ran, begun, finished, news, frees, false)
    }

    constructor (dummy: Addr)
      ensures View() == Init(dummy) && Inv(View())
    {
      heap := map[dummy := Node(None, None)];
      head, tail, curr := dummy, dummy, dummy;
      done, pending := false, 0;
      producers, worker, owner := map[], AtDone, Alive;
      order, ran := [Ticket(dummy, None, 0, true)], [];
      begun, finished, news, frees := 0, 0, 1, 0;
      InitInv<T>(dummy);
    }

    /** enqueue: `pending.fetch_add(1)`. */
    method EnqueueCount(p: Tid, task: Option<T>)
      requires Inv(View()) && Enabled(View(), Begin(p, task))
      modifies this
      ensures View() == BeginStep(old(View()), p, task) && Inv(View())
    {
      BeginInv(View(), p, task);
      pending := pending + 1;
      producers := producers[p := Counted(task)];
      begun := begun + 1;
    }

    /** enqueue: `new Node(task)` at an address the allocator picks among those not in use. */
    method EnqueueNew(p: Tid, addr: Addr)
      requires Inv(View()) && Enabled(View(), Alloc(p, addr))
      modifies this
      ensures View() == AllocStep(old(View()), p, addr) && Inv(View())
    {
      AllocInv(View(), p, addr);
      var task := producers[p].task;
      heap := heap[addr := Node(task, None)];
      producers := producers[p := Allocated(addr, task)];
      news := news + 1;
    }

    /** enqueue: `prev = tail.exchange(node)`. */
    method EnqueueExchange(p: Tid)
      requires Inv(View()) && Enabled(View(), Exchange(p))
      modifies this
      ensures View() == ExchangeStep(old(View()), p) && Inv(View())
    {
      ExchangeInv(View(), p);
      assert ProducerInv(View(), p);
      var node := producers[p].node;
      producers := producers[p := Exchanged(node, tail, |order|)];
      order := order + [Ticket(node, heap[node].task, p, false)];
      tail := node;
    }

    /** enqueue: `prev->next.store(node)`. */
    method EnqueueLink(p: Tid)
      requires Inv(View()) && Enabled(View(), Link(p))
      modifies this
      ensures View() == LinkStep(old(View()), p) && Inv(View())
    {
      LinkInv(View(), p);
      LinkChain(View(), p);
      var Exchanged(node, prev, k) := producers[p];
      heap := heap[prev := heap[prev].(next := Some(node))];
      producers := producers[p := Idle];
      order := order[k := order[k].(linked := true)];
    }

    /** sync: one reading of `pending`; the caller spins until it may leave. */
    method SyncPoll(allowPending: nat) returns (leave: bool)
      requires Inv(View())
      ensures leave <==> View().pending <= allowPending
      ensures leave ==> |View().ran| >= View().begun - allowPending
      ensures |View().ran| < |View().order| && View().ran == Closures(View().order)[..|View().ran|]
    {
      PendingBounds(View());
      RanIsPrefix(View());
      leave := !(pending > allowPending);
    }

    /** worker: the loop condition reads `done`. */
    method WorkerLoadDone()
      requires Inv(View()) && worker.AtDone?
      modifies this
      ensures View() == WorkStep(old(View())) && Inv(View())
    {
      WorkInv(View());
      worker := if done then Exited else AtNext;
    }

    /** worker: `next = curr->next`. */
    method WorkerLoadNext()
      requires Inv(View()) && worker.AtNext?
      modifies this
      ensures View() == WorkStep(old(View())) && Inv(View())
    {
      WorkInv(View());
      WorkReady(View());
      match heap[curr].next {
        case None => worker := AtDone;
        case Some(next) => worker := Running(next);
      }
    }

    /** worker: `next->task()` has returned. */
    method WorkerRun()
      requires Inv(View()) && worker.Running?
      modifies this
      ensures View() == WorkStep(old(View())) && Inv(View())
    {
      WorkInv(View());
      WorkReady(View());
      ran := ran + [heap[worker.next].task];
      worker := Deleting(worker.next);
    }

    /** worker: `delete curr; curr = next`. */
    method WorkerDelete()
      requires Inv(View()) && worker.Deleting?
      modifies this
      ensures View() == WorkStep(old(View())) && Inv(View())
    {
      DeleteEffect(View());
      heap := heap - {curr};
      curr := worker.next;
      frees := frees + 1;
      worker := AtHead;
    }

    /** worker: `head.store(curr)`. */
    method WorkerStoreHead()
      requires Inv(View()) && worker.AtHead?
      modifies this
      ensures View() == WorkStep(old(View())) && Inv(View())
    {
      WorkInv(View());
      head := curr;
      worker := AtSub;
    }

    /** worker: `pending.fetch_sub(1)`. */
    method WorkerDecrement()
      requires Inv(View()) && worker.AtSub?
      modifies this
      ensures View() == WorkStep(old(View())) && Inv(View())
    {
      WorkInv(View());
      pending := pending - 1;
      finished := finished + 1;
      worker := AtDone;
    }

    /** Destructor: `done.store(true)`. */
    method DestroyBegin()
      requires Inv(View()) && Enabled(View(), StoreDone)
      modifies this
      ensures View() == Apply(old(View()), StoreDone) && Inv(View())
    {
      OwnerInv(View(), StoreDone);
      done := true;
      owner := Joining;
    }

    /** Destructor: one round of the loop that deletes what is left. */
    method DestroyNode()
      requires Inv(View()) && owner.Walking? && owner.node.Some?
      modifies this
      ensures View() == WalkStep(old(View())) && Inv(View()) && |heap| < old(|heap|)
      ensures owner.Walking? && order == old(order) && ran == old(ran)
    {
      WalkInv(View());
      WalkReady(View());
      var node := owner.node.value;
      RemoveSize(heap, node);
      owner := Walking(heap[node].next);
      heap := heap - {node};
      frees := frees + 1;
    }

    /** Destructor, after the worker has been joined. */
    method DestroyRest()
      requires Inv(View()) && Enabled(View(), Join)
      modifies this
      ensures Inv(View()) && owner.Destroyed? && heap == map[] && news == frees
      ensures order == old(order) && ran == old(ran)
    {
      OwnerInv(View(), Join);
      owner := Walking(Some(head));
      while owner != Walking(None)
        invariant Inv(View()) && owner.Walking?
        invariant order == old(order) && ran == old(ran)
        decreases |heap|
      {
        DestroyNode();
      }
      OwnerInv(View(), Walk);
      owner := Destroyed;
      DestroyedHeap(View());
    }
  }
}
