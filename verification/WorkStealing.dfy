/**
 The work-stealing pool of one NUMA node (`InNumaPool` in `cpu_backend/worker_pool.{h,cpp}`): thread 0 is the
 caller of `do_work_stealing_job`, the others poll their status word.  The caller goes through any sequence of
 jobs; every write of a shared field, every load, `fetch_add`, task invocation and status store is one step,
 and the steps interleave in any order.

 The relaxed load of `curr_` may be stale: it returns any value between what the thread last saw and the
 current one.  The block size is computed from that value, so claims may be too large and run past the end.

 Nothing is assumed of the configuration: the pool may have no threads at all, and restricted_worker_count may be
 any number of workers.  A division by a worker count of zero and a status word beyond the end of thread_state_
 are faults; a run stops there.  What the pool promises holds up to a first fault, and which configurations
 fault is settled exactly.
 */
module WorkStealing {
  import opened Sequences

  /** Where a thread stands: outside, or inside `process_tasks`. */
  datatype Pc =
    | Polling
    | Round                       // about to load curr_
    | Loaded(block: int)          // about to fetch_add
    | Computing(pos: int, hi: int)  // running tasks pos, pos + 1, ... of its block
    | Leaving                     // about to store WAITING

  /** `working` is the status word; `seen` the latest value of curr_ the thread knows of. */
  datatype Thread = Thread(working: bool, pc: Pc, seen: int)

  /** Where the caller stands inside `do_work_stealing_job`. */
  datatype MainPc = Idle | SetCount | ResetCurr | SetEnd | Mark(i: nat) | Enter | Running | WaitFor(i: nat)

  datatype State = State(
    slots: nat,                                       // length of thread_state_
    jobs: seq<int>, restricted: nat,                  // task_num of each job; restricted_worker_count
    main: MainPc, job: nat,                           // the caller's position; number of jobs completed
    func: int, count: int, end: int, curr: int,       // compute_func_ (as a job number), worker_count, end_, curr_
    threads: seq<Thread>,                             // the caller first; it is there even without slots
    computed: multiset<(int, int)>,                   // history: (function, task id) of every invocation
    crossed: set<nat>,                                // history: threads that claimed up to end_ or beyond
    clobbered: bool, divByZero: bool, outOfRange: bool)

  datatype Action = Main(v: int) | Worker(t: nat, v: int)

  function Min(a: int, b: int): int { if a < b then a else b }

  function Max(a: int, b: int): int { if a < b then b else a }

  /** A job field is about to be written: is some thread inside, or told to go inside? */
  predicate SomeoneInside(ts: seq<Thread>) {
    exists t :: 0 <= t < |ts| && (ts[t].working || !ts[t].pc.Polling?)
  }

  /** Thread t is about to divide by a worker count of zero. */
  predicate Divides(s: State, t: nat, v: int)
    requires t < |s.threads|
  {
    s.threads[t].pc.Round? && s.end - v > 0 && s.count == 0
  }

  /** Thread t is about to store to a status word that is not there. */
  predicate Strays(s: State, t: nat)
    requires t < |s.threads|
  {
    s.threads[t].pc.Leaving? && t >= s.slots
  }

  /** One step of `process_tasks(t)`; `v` is what the load of curr_ returns. */
  function ProcessStep(s: State, t: nat, v: int): State
    requires t < |s.threads| && !s.threads[t].pc.Polling?
  {
    if Divides(s, t, v) then s.(divByZero := true)
    else if Strays(s, t) then s.(outOfRange := true)
    else Proceed(s, t, v)
  }

  function Proceed(s: State, t: nat, v: int): State
    requires t < |s.threads| && !s.threads[t].pc.Polling? && !Divides(s, t, v)
  {
    var th := s.threads[t];
    match th.pc
    case Polling => s
    case Round =>
      var rem := s.end - v;
      s.(threads := s.threads[t := th.(pc := if rem <= 0 then Leaving else Loaded((rem + s.count - 1) / s.count),
                                      seen := v)])
    case Loaded(block) =>
      var id := s.curr;
      s.(curr := id + block,
         crossed := if id + block >= s.end then s.crossed + {t} else s.crossed,
         threads := s.threads[t := th.(pc := if id >= s.end then Leaving else Computing(id, id + block),
                                       seen := id + block)])
    case Computing(pos, hi) =>
      if pos < hi && pos < s.end then
        s.(computed := s.computed + multiset{(s.func, pos)},
           threads := s.threads[t := th.(pc := Computing(pos + 1, hi))])
      else s.(threads := s.threads[t := th.(pc := Round)])
    case Leaving => s.(threads := s.threads[t := th.(working := false, pc := Polling)])
  }

  function MainStep(s: State, v: int): State
    requires 0 < |s.threads| && s.slots <= |s.threads| && s.job < |s.jobs|
  {
    var hit := s.clobbered || SomeoneInside(s.threads);
    match s.main
    case Idle => s.(func := s.job, main := SetCount, clobbered := hit)
    case SetCount => s.(count := Min(s.restricted, s.jobs[s.job]), main := ResetCurr, clobbered := hit)
    case ResetCurr => s.(curr := 0, crossed := {}, main := SetEnd, clobbered := hit)
    case SetEnd => s.(end := s.jobs[s.job], main := Mark(0), clobbered := hit)
    case Mark(i) =>
      if i >= s.count then s.(main := Enter)
      else if i >= s.slots then s.(outOfRange := true)
      else s.(threads := s.threads[i := s.threads[i].(working := true)], main := Mark(i + 1))
    case Enter => s.(threads := s.threads[0 := s.threads[0].(pc := Round, seen := 0)], main := Running)
    case Running =>
      if s.threads[0].pc.Polling? then s.(main := WaitFor(0)) else ProcessStep(s, 0, v)
    case WaitFor(i) =>
      if i >= s.count then s.(main := Idle, job := s.job + 1)
      else if i >= s.slots then s.(outOfRange := true)
      else if s.threads[i].working then s
      else s.(main := WaitFor(i + 1))
  }

  function WorkerStep(s: State, t: nat, v: int): State
    requires 0 < t < |s.threads|
  {
    if s.threads[t].pc.Polling? then
      (if s.threads[t].working then s.(threads := s.threads[t := s.threads[t].(pc := Round, seen := 0)]) else s)
    else ProcessStep(s, t, v)
  }

  predicate Faulted(s: State) {
    s.divByZero || s.outOfRange
  }

  /** A load must respect what the thread has already seen; otherwise any thread may step at any time, until
      something has gone wrong. */
  predicate Enabled(s: State, a: Action) {
    && !Faulted(s)
    && match a
       case Main(v) => 0 < |s.threads| && s.slots <= |s.threads| && s.job < |s.jobs| && LoadOk(s, 0, v)
       case Worker(t, v) => 0 < t < |s.threads| && LoadOk(s, t, v)
  }

  predicate LoadOk(s: State, t: nat, v: int)
    requires t < |s.threads|
  {
    s.threads[t].pc.Round? ==> s.threads[t].seen <= v <= s.curr
  }

  function Apply(s: State, a: Action): State
    requires Enabled(s, a)
  {
    match a
    case Main(v) => MainStep(s, v)
    case Worker(t, v) => WorkerStep(s, t, v)
  }

  /** A pool of n threads about to be given some jobs; the constructor sets restricted_worker_count to n, and
      a caller may change it.  The caller's own place is there even when the pool has no thread. */
  function Init(n: nat, restricted: nat, jobs: seq<int>): State {
    State(n, jobs, restricted, Idle, 0, -1, 0, 0, 0, seq(if n == 0 then 1 else n, _ => Thread(false, Polling, 0)),
          multiset{}, {}, false, false, false)
  }

  ghost predicate Steps(run: seq<State>, acts: seq<Action>) {
    && |run| == |acts| + 1
    && forall i :: 0 <= i < |acts| ==> Enabled(run[i], acts[i]) && run[i + 1] == Apply(run[i], acts[i])
  }

  ghost predicate RunOf(n: nat, restricted: nat, jobs: seq<int>, run: seq<State>, acts: seq<Action>) {
    Steps(run, acts) && run[0] == Init(n, restricted, jobs)
  }

  ghost predicate IsRun(run: seq<State>, acts: seq<Action>) {
    exists n: nat, restricted: nat, jobs :: RunOf(n, restricted, jobs, run, acts)
  }

  /** A job of `task` tasks that a pool of n threads can do without a fault. */
  predicate JobOk(n: nat, restricted: nat, task: int) {
    1 <= n && (task <= 0 || (1 <= restricted && Min(restricted, task) <= n))
  }

  predicate AllOk(n: nat, restricted: nat, jobs: seq<int>) {
    forall j :: 0 <= j < |jobs| ==> JobOk(n, restricted, jobs[j])
  }

  // ---- the invariant --------------------------------------------------------------------------

  /** The caller has finished writing the job fields and has not yet finished the job. */
  predicate InJob(m: MainPc) {
    m.Mark? || m.Enter? || m.Running? || m.WaitFor?
  }

  /** Threads that may be inside: those marked so far, or not yet waited for. */
  predicate MayWork(s: State, t: nat) {
    && t < Max(s.count, 0)
    && (s.main.Mark? ==> t < s.main.i)
    && (s.main.WaitFor? ==> s.main.i <= t && t > 0)
    && InJob(s.main)
  }

  predicate ThreadInv(s: State, t: nat)
    requires t < |s.threads|
  {
    var th := s.threads[t];
    && (th.working || (t > 0 && !th.pc.Polling?) ==> MayWork(s, t))
    && (t > 0 && !th.pc.Polling? ==> th.working)
    && (t == 0 ==> (s.main.Mark? || s.main.Enter? ==> th.pc.Polling?))
    && (t == 0 && !th.pc.Polling? ==> s.main.Running?)
    && (t == 0 && th.working ==> !s.main.WaitFor? && (s.main.Running? ==> !th.pc.Polling?))
  }

  ghost predicate ThreadsInv(s: State) {
    forall t :: 0 <= t < |s.threads| ==> ThreadInv(s, t)
  }

  predicate ConfigInv(s: State) {
    && 1 <= |s.threads|
    && s.job <= |s.jobs| && (s.main.Idle? || s.job < |s.jobs|)
    && (s.main.Idle? || s.func == s.job)
    && (!s.main.Idle? && !s.main.SetCount? ==> s.count == Min(s.restricted, s.jobs[s.job]))
    && (s.main.SetEnd? ==> s.curr == 0 && s.crossed == {})
    && (!s.main.Idle? && InJob(s.main) ==> s.end == s.jobs[s.job] && 0 <= s.curr)
    && (s.main.Mark? ==> s.main.i <= Max(s.count, 0))
    && !s.clobbered
  }

  /** Once the marking is over every thread wanted is there, and whoever stores WAITING has a status word. */
  predicate SlotsInv(s: State) {
    && s.slots <= |s.threads|
    && (s.main.Mark? ==> s.main.i <= s.slots)
    && (InJob(s.main) && !s.main.Mark? ==> s.count <= s.slots)
    && (s.main.WaitFor? || (s.main.Running? && s.threads != [] && s.threads[0].pc.Polling?) ==> 1 <= s.slots)
  }

  /** Every job done so far was one that the pool can do. */
  ghost predicate DoneInv(s: State) {
    s.job <= |s.jobs| && AllOk(s.slots, s.restricted, s.jobs[..s.job])
  }

  /** A division by zero means that no worker may be used for a job that has a task; an index out of range that
      more workers are wanted than there are, or that even the caller has no status word. */
  predicate FaultInv(s: State) {
    Faulted(s) ==>
      && s.job < |s.jobs|
      && (s.divByZero ==> s.restricted == 0 && s.jobs[s.job] > 0)
      && (s.outOfRange ==> Min(s.restricted, s.jobs[s.job]) > s.slots || (s.slots == 0 && s.jobs[s.job] <= 0))
  }

  /** The largest block a thread can compute in this job. */
  function MaxBlock(s: State): int {
    if s.count >= 1 && s.end >= 1 then (s.end + s.count - 1) / s.count else 0
  }

  /** What a thread inside the job holds. */
  predicate ClaimInv(s: State, t: nat)
    requires t < |s.threads|
  {
    var th := s.threads[t];
    && (th.pc.Polling? && th.working ==> t !in s.crossed)
    && (t == 0 && (s.main.Mark? || s.main.Enter?) ==> t !in s.crossed)
    && (!th.pc.Polling? ==>
      && 0 <= th.seen <= s.curr
      && (t in s.crossed ==> th.seen >= s.end)
      && (match th.pc
          case Loaded(block) => 1 <= block <= MaxBlock(s) && t !in s.crossed && s.end >= 1
          case Computing(pos, hi) => 0 <= pos <= Min(hi, s.end) && hi <= s.curr
          case Leaving => s.curr >= s.end
          case _ => true))
  }

  ghost predicate ClaimsInv(s: State) {
    InJob(s.main) ==>
      && (forall t :: 0 <= t < |s.threads| ==> ClaimInv(s, t))
      && (forall t, u :: 0 <= t < |s.threads| && 0 <= u < |s.threads| && t != u ==>
            Apart(s.threads[t].pc, s.threads[u].pc))
      && (forall t :: t in s.crossed ==> MayHaveWorked(s, t))
      && (s.main.WaitFor? ==> s.curr >= s.end)
      && (s.main.Running? && s.threads != [] && s.threads[0].pc.Polling? ==> s.curr >= s.end)
  }

  predicate MayHaveWorked(s: State, t: nat) {
    t < s.count && (s.main.Mark? ==> t < s.main.i)
  }

  /** Two threads never hold the same task. */
  predicate Apart(p: Pc, q: Pc) {
    p.Computing? && q.Computing? ==> p.hi <= q.pos || q.hi <= p.pos
  }

  /** Some thread still holds this task. */
  predicate Held(s: State, id: int) {
    exists t :: 0 <= t < |s.threads| && Holds(s.threads[t].pc, id)
  }

  predicate Holds(p: Pc, id: int) {
    p.Computing? && p.pos <= id < p.hi
  }

  /** How often task `id` of job f has been computed: once if it has been claimed and is no longer held. */
  ghost predicate ComputedInv(s: State) {
    forall f, id :: s.computed[(f, id)] == TimesComputed(s, f, id)
  }

  function TimesComputed(s: State, f: int, id: int): nat {
    if 0 <= f < s.job && f < |s.jobs| then (if 0 <= id < s.jobs[f] then 1 else 0)
    else if f == s.job && InJob(s.main) && 0 <= id < Min(s.curr, s.end) && !Held(s, id) then 1
    else 0
  }

  ghost predicate BoundInv(s: State) {
    InJob(s.main) ==>
      && (s.curr < s.end || s.end <= 0 ==> s.crossed == {})
      && (s.end <= 0 ==> s.curr == 0)
      && (s.curr >= s.end >= 1 ==> s.curr <= s.end - 1 + MaxBlock(s) * |s.crossed|)
  }

  ghost predicate Inv(s: State) {
    && ConfigInv(s) && SlotsInv(s) && DoneInv(s) && FaultInv(s)
    && ThreadsInv(s) && ClaimsInv(s) && ComputedInv(s) && BoundInv(s)
  }

  lemma {:induction false} InitInv(n: nat, restricted: nat, jobs: seq<int>)
    ensures Inv(Init(n, restricted, jobs))
  {
  }

  // ---- a step of process_tasks keeps the invariant ---------------------------------------------

  /** Rounding up is monotone, and c blocks of the rounded-up size exceed the whole by less than c. */
  lemma {:induction false} CeilBounds(rem: int, end: int, c: int)
    requires 1 <= rem <= end && 1 <= c
    ensures 1 <= (rem + c - 1) / c <= (end + c - 1) / c
    ensures c * ((end + c - 1) / c) <= end + c - 1
  {
    var q := (rem + c - 1) / c;
    var r := (end + c - 1) / c;
    assert c * q <= rem + c - 1 < c * q + c;
    assert c * r <= end + c - 1 < c * r + c;
    assert q >= 1;
    assert q <= r by { if r < q { CeilStrict(c, r, q); } }
  }

  lemma {:induction false} CeilStrict(c: int, r: int, q: int)
    requires 1 <= c && r < q
    ensures c * r + c <= c * q
  {
    var d := q - r - 1;
    assert c * q == c * r + c + c * d;
    assert 0 <= c * d;
  }

  /** Only the thread's own place changes, besides curr_ and the history. */
  lemma {:induction false} ProceedFrame(s: State, t: nat, v: int)
    requires t < |s.threads| && !s.threads[t].pc.Polling? && !Divides(s, t, v)
    ensures var s' := Proceed(s, t, v);
            && |s'.threads| == |s.threads| && s'.threads == s.threads[t := s'.threads[t]]
            && s'.main == s.main && s'.end == s.end && s'.count == s.count && s'.slots == s.slots
  {
  }

  lemma {:induction false} ProcessThreads(s: State, t: nat, v: int)
    requires ThreadsInv(s) && ConfigInv(s)
    requires t < |s.threads| && !s.threads[t].pc.Polling? && !Divides(s, t, v) && LoadOk(s, t, v)
    ensures ThreadsInv(Proceed(s, t, v)) && (t > 0 ==> s.threads[t].working)
    ensures InJob(s.main) && (t < s.count || (t == 0 && s.main.Running?))
  {
    assert ThreadInv(s, t);
    var s' := Proceed(s, t, v);
    forall u | 0 <= u < |s'.threads| ensures ThreadInv(s', u) { assert ThreadInv(s, u); }
  }

  lemma {:induction false} ProcessConfig(s: State, t: nat, v: int)
    requires ThreadsInv(s) && ConfigInv(s) && ClaimsInv(s)
    requires t < |s.threads| && !s.threads[t].pc.Polling? && !Divides(s, t, v) && LoadOk(s, t, v)
    ensures ConfigInv(Proceed(s, t, v))
  {
    ProcessThreads(s, t, v);
    assert ClaimInv(s, t);
  }

  lemma {:induction false} ProcessClaims(s: State, t: nat, v: int)
    requires ThreadsInv(s) && ConfigInv(s) && ClaimsInv(s) && BoundInv(s)
    requires t < |s.threads| && !s.threads[t].pc.Polling? && !Divides(s, t, v) && LoadOk(s, t, v)
    ensures ClaimsInv(Proceed(s, t, v))
  {
    ProcessThreads(s, t, v);
    var s' := Proceed(s, t, v);
    forall u | 0 <= u < |s'.threads| ensures ClaimInv(s', u) {
      if u == t { ProcessOwnClaim(s, t, v); } else { ProcessOtherClaim(s, t, v, u); }
    }
    forall u, w | 0 <= u < |s'.threads| && 0 <= w < |s'.threads| && u != w
      ensures Apart(s'.threads[u].pc, s'.threads[w].pc)
    {
      ProcessApart(s, t, v, u, w);
    }
    ProcessCrossed(s, t, v);
  }

  /** Whoever crossed the end may have worked, and whoever leaves knows that all has been claimed. */
  lemma {:induction false} ProcessCrossed(s: State, t: nat, v: int)
    requires ThreadsInv(s) && ConfigInv(s) && ClaimsInv(s) && BoundInv(s)
    requires t < |s.threads| && !s.threads[t].pc.Polling? && !Divides(s, t, v) && LoadOk(s, t, v)
    ensures var s' := Proceed(s, t, v);
            && (forall u :: u in s'.crossed ==> MayHaveWorked(s', u))
            && (s'.main.WaitFor? ==> s'.curr >= s'.end)
            && (s'.main.Running? && s'.threads != [] && s'.threads[0].pc.Polling? ==> s'.curr >= s'.end)
  {
    ProcessThreads(s, t, v);
    assert ClaimInv(s, t) && ThreadInv(s, t);
    var s' := Proceed(s, t, v);
    forall u | u in s'.crossed ensures MayHaveWorked(s', u) {
      if u in s.crossed { assert MayHaveWorked(s, u); }
    }
  }

  lemma {:induction false} ProcessOwnClaim(s: State, t: nat, v: int)
    requires ConfigInv(s) && InJob(s.main) && t < |s.threads| && ClaimInv(s, t) && ThreadInv(s, t)
    requires !s.threads[t].pc.Polling? && !Divides(s, t, v) && LoadOk(s, t, v)
    ensures ClaimInv(Proceed(s, t, v), t)
  {
    if s.threads[t].pc.Round? { RoundClaim(s, t, v); }
  }

  /** A block is at least one task and at most what a full view of the job would give. */
  lemma {:induction false} RoundClaim(s: State, t: nat, v: int)
    requires ConfigInv(s) && InJob(s.main) && t < |s.threads| && ClaimInv(s, t)
    requires s.threads[t].pc.Round? && !Divides(s, t, v) && LoadOk(s, t, v)
    ensures ClaimInv(Proceed(s, t, v), t)
  {
    if s.end - v >= 1 { CeilBounds(s.end - v, s.end, s.count); }
  }

  lemma {:induction false} ProcessOtherClaim(s: State, t: nat, v: int, u: nat)
    requires ConfigInv(s) && InJob(s.main) && t < |s.threads| && ClaimInv(s, t)
    requires !s.threads[t].pc.Polling? && !Divides(s, t, v)
    requires u < |s.threads| && u != t && ClaimInv(s, u)
    ensures ClaimInv(Proceed(s, t, v), u)
  {
  }

  lemma {:induction false} ProcessApart(s: State, t: nat, v: int, u: nat, w: nat)
    requires ClaimsInv(s) && InJob(s.main) && t < |s.threads| && !s.threads[t].pc.Polling? && !Divides(s, t, v)
    requires u < |s.threads| && w < |s.threads| && u != w
    ensures Apart(Proceed(s, t, v).threads[u].pc, Proceed(s, t, v).threads[w].pc)
  {
    assert Apart(s.threads[u].pc, s.threads[w].pc);
    if u == t { OwnApart(s, t, v, w); }
    if w == t { OwnApart(s, t, v, u); }
  }

  /** What a thread claims lies beyond everything claimed before. */
  lemma {:induction false} OwnApart(s: State, t: nat, v: int, u: nat)
    requires ClaimsInv(s) && InJob(s.main) && t < |s.threads| && !s.threads[t].pc.Polling? && !Divides(s, t, v)
    requires u < |s.threads| && u != t
    ensures Apart(Proceed(s, t, v).threads[t].pc, s.threads[u].pc)
  {
    assert Apart(s.threads[t].pc, s.threads[u].pc);
    assert ClaimInv(s, u);
  }

  lemma {:induction false} ProcessComputed(s: State, t: nat, v: int)
    requires ThreadsInv(s) && ConfigInv(s) && ClaimsInv(s) && ComputedInv(s)
    requires t < |s.threads| && !s.threads[t].pc.Polling? && !Divides(s, t, v) && LoadOk(s, t, v)
    ensures ComputedInv(Proceed(s, t, v))
  {
    ProcessThreads(s, t, v);
    assert ClaimInv(s, t);
    var s' := Proceed(s, t, v);
    forall f, id ensures s'.computed[(f, id)] == TimesComputed(s', f, id) {
      assert s.computed[(f, id)] == TimesComputed(s, f, id);
      if f == s.job { ProcessHeld(s, t, v, id); }
    }
  }

  /** Which tasks are held after the step. */
  lemma {:induction false} ProcessHeld(s: State, t: nat, v: int, id: int)
    requires ThreadsInv(s) && ConfigInv(s) && ClaimsInv(s)
    requires t < |s.threads| && !s.threads[t].pc.Polling? && !Divides(s, t, v) && LoadOk(s, t, v)
    ensures var s' := Proceed(s, t, v);
            match s.threads[t].pc
            case Loaded(block) =>
              Held(s', id) <==> Held(s, id) || (s.curr < s.end && s.curr <= id < s.curr + block)
            case Computing(pos, hi) =>
              && (pos < hi && pos < s.end ==> (Held(s', id) <==> Held(s, id) && id != pos) && Held(s, pos))
              && (!(pos < hi && pos < s.end) && id < s.end ==> (Held(s', id) <==> Held(s, id)))
            case _ => Held(s', id) <==> Held(s, id)
  {
    ProcessThreads(s, t, v);
    var s' := Proceed(s, t, v);
    assert forall u :: 0 <= u < |s.threads| && u != t ==> s'.threads[u] == s.threads[u];
    assert Holds(s.threads[t].pc, id) ==> Held(s, id);
    assert Holds(s'.threads[t].pc, id) ==> Held(s', id);
    if Held(s, id) {
      var u :| 0 <= u < |s.threads| && Holds(s.threads[u].pc, id);
      if u != t {
        assert Holds(s'.threads[u].pc, id);
        assert Apart(s.threads[u].pc, s.threads[t].pc);
        assert ClaimInv(s, u);
      }
    }
    if Held(s', id) {
      var u :| 0 <= u < |s.threads| && Holds(s'.threads[u].pc, id);
      if u != t { assert Holds(s.threads[u].pc, id); assert Apart(s.threads[u].pc, s.threads[t].pc); }
    }
    if s.threads[t].pc.Computing? {
      assert Holds(s.threads[t].pc, s.threads[t].pc.pos) ==> Held(s, s.threads[t].pc.pos);
    }
  }

  lemma {:induction false} ProcessBound(s: State, t: nat, v: int)
    requires ThreadsInv(s) && ConfigInv(s) && ClaimsInv(s) && BoundInv(s)
    requires t < |s.threads| && !s.threads[t].pc.Polling? && !Divides(s, t, v) && LoadOk(s, t, v)
    ensures BoundInv(Proceed(s, t, v))
  {
    ProcessThreads(s, t, v);
    assert ClaimInv(s, t);
    var s' := Proceed(s, t, v);
    if s.threads[t].pc.Loaded? {
      ClaimBound(s, t, s.threads[t].pc.block, s');
    } else {
      assert s'.curr == s.curr && s'.end == s.end && s'.count == s.count && s'.crossed == s.crossed;
      assert s'.main == s.main;
    }
  }

  lemma {:induction false} ClaimBound(s: State, t: nat, block: int, s': State)
    requires BoundInv(s) && InJob(s.main) && t !in s.crossed && s.end >= 1 && 1 <= block <= MaxBlock(s)
    requires s'.curr == s.curr + block && s'.end == s.end && s'.count == s.count
    requires s'.crossed == if s'.curr >= s.end then s.crossed + {t} else s.crossed
    ensures BoundInv(s')
  {
    CrossingBound(s.curr, s.end, block, MaxBlock(s), |s.crossed|);
    if s'.curr >= s'.end {
      assert |s'.crossed| == |s.crossed| + 1;
      assert MaxBlock(s') == MaxBlock(s);
    }
  }

  lemma {:induction false} CrossingBound(curr: int, end: int, block: int, b: int, n: nat)
    requires 1 <= block <= b && (curr < end ==> n == 0) && (curr >= end ==> curr <= end - 1 + b * n)
    ensures curr + block <= end - 1 + b * (n + 1)
  {
    assert b * (n + 1) == b * n + b;
    if n == 0 { assert b * n == 0; }
  }

  /** Why a step of `process_tasks` fails. */
  lemma {:induction false} ProcessFault(s: State, t: nat, v: int)
    requires Inv(s) && t < |s.threads| && !s.threads[t].pc.Polling? && LoadOk(s, t, v)
    ensures s.job < |s.jobs| && s.end == s.jobs[s.job]
    ensures Divides(s, t, v) ==> s.restricted == 0 && s.end > 0
    ensures Strays(s, t) ==> s.slots == 0 && s.end <= 0
  {
    assert ThreadInv(s, t);
    assert InJob(s.main);
    assert ClaimInv(s, t);
  }

  lemma {:induction false} ProcessSlots(s: State, t: nat, v: int)
    requires SlotsInv(s) && t < |s.threads| && !s.threads[t].pc.Polling? && !Divides(s, t, v) && !Strays(s, t)
    ensures SlotsInv(Proceed(s, t, v))
  {
    ProceedFrame(s, t, v);
  }

  /** A fault changes nothing else. */
  lemma {:induction false} FlagInv(s: State, s': State)
    requires Inv(s) && s' == s.(divByZero := s'.divByZero, outOfRange := s'.outOfRange) && FaultInv(s')
    ensures Inv(s')
  {
    forall t | 0 <= t < |s'.threads| ensures ThreadInv(s', t) { assert ThreadInv(s, t); }
    if InJob(s.main) {
      forall t | 0 <= t < |s'.threads| ensures ClaimInv(s', t) { assert ClaimInv(s, t); }
      forall t | t in s'.crossed ensures MayHaveWorked(s', t) { assert MayHaveWorked(s, t); }
    }
    forall f, id ensures s'.computed[(f, id)] == TimesComputed(s', f, id) {
      assert s.computed[(f, id)] == TimesComputed(s, f, id);
      SameHeld(s, s', id);
    }
  }

  lemma {:induction false} ProcessInv(s: State, t: nat, v: int)
    requires Inv(s) && !Faulted(s) && t < |s.threads| && !s.threads[t].pc.Polling? && LoadOk(s, t, v)
    ensures Inv(ProcessStep(s, t, v))
  {
    if Divides(s, t, v) || Strays(s, t) {
      ProcessFault(s, t, v);
      FlagInv(s, ProcessStep(s, t, v));
    } else {
      ProcessThreads(s, t, v);
      ProcessConfig(s, t, v);
      ProcessSlots(s, t, v);
      ProcessClaims(s, t, v);
      ProcessComputed(s, t, v);
      ProcessBound(s, t, v);
    }
  }

  // ---- the other steps -------------------------------------------------------------------------

  /** A worker notices that it has been told to work. */
  lemma {:induction false} EnterInv(s: State, t: nat)
    requires Inv(s) && !Faulted(s) && 0 < t < |s.threads| && s.threads[t].pc.Polling? && s.threads[t].working
    ensures Inv(WorkerStep(s, t, 0))
  {
    var s' := WorkerStep(s, t, 0);
    assert ThreadInv(s, t) && ClaimInv(s, t) && ClaimInv(s, 0);
    forall u | 0 <= u < |s'.threads| ensures ThreadInv(s', u) { assert ThreadInv(s, u); }
    SamePcs(s, s', t);
  }

  /** Changing one thread from outside to the start of a round leaves claims and history as they are. */
  lemma {:induction false} SamePcs(s: State, s': State, t: nat)
    requires ClaimsInv(s) && ComputedInv(s) && InJob(s.main) && InJob(s'.main) && t < |s.threads| && 0 <= s.curr
    requires s' == s.(threads := s'.threads, main := s'.main, outOfRange := s'.outOfRange)
    requires |s'.threads| == |s.threads|
    requires s.threads[t].pc.Polling? && t !in s.crossed
    requires s'.threads[t].pc.Polling? || (s'.threads[t].pc.Round? && s'.threads[t].seen == 0)
    requires forall u :: 0 <= u < |s.threads| && u != t ==> s'.threads[u] == s.threads[u]
    requires forall u :: u in s.crossed ==> MayHaveWorked(s', u)
    requires s'.main.WaitFor? ==> s.curr >= s.end
    requires s'.main.Running? && s'.threads[0].pc.Polling? ==> s.curr >= s.end
    requires (s'.main.Mark? || s'.main.Enter?) && t != 0 ==> 0 !in s.crossed
    ensures ClaimsInv(s') && ComputedInv(s')
  {
    forall u | 0 <= u < |s'.threads| ensures ClaimInv(s', u) { assert ClaimInv(s, u); }
    forall u, w | 0 <= u < |s'.threads| && 0 <= w < |s'.threads| && u != w
      ensures Apart(s'.threads[u].pc, s'.threads[w].pc)
    {
      assert Apart(s.threads[u].pc, s.threads[w].pc);
    }
    forall f, id ensures s'.computed[(f, id)] == TimesComputed(s', f, id) {
      assert s.computed[(f, id)] == TimesComputed(s, f, id);
      SameHeld(s, s', id);
    }
  }

  lemma {:induction false} SameHeld(s: State, s': State, id: int)
    requires |s'.threads| == |s.threads|
    requires forall u :: 0 <= u < |s.threads| ==>
               s'.threads[u].pc == s.threads[u].pc || (!s.threads[u].pc.Computing? && !s'.threads[u].pc.Computing?)
    ensures Held(s', id) <==> Held(s, id)
  {
    if Held(s, id) {
      var u :| 0 <= u < |s.threads| && Holds(s.threads[u].pc, id);
      assert Holds(s'.threads[u].pc, id);
    }
    if Held(s', id) {
      var u :| 0 <= u < |s.threads| && Holds(s'.threads[u].pc, id);
      assert Holds(s.threads[u].pc, id);
    }
  }

  /** Outside a job, and when all marked threads have been waited for, nobody is inside. */
  lemma {:induction false} NobodyInside(s: State)
    requires ThreadsInv(s) && (!InJob(s.main) || (s.main.WaitFor? && s.main.i >= Max(s.count, 0)))
    ensures !SomeoneInside(s.threads)
    ensures forall id :: !Held(s, id)
  {
    forall t | 0 <= t < |s.threads| ensures !s.threads[t].working && s.threads[t].pc.Polling? {
      assert ThreadInv(s, t);
    }
  }

  /** The caller writes a job field. */
  lemma {:induction false} SetFieldInv(s: State, v: int)
    requires Inv(s) && Enabled(s, Main(v)) && !InJob(s.main)
    ensures Inv(MainStep(s, v))
  {
    NobodyInside(s);
    var s' := MainStep(s, v);
    forall t | 0 <= t < |s.threads| ensures s.threads[t].pc.Polling? && !s.threads[t].working && ThreadInv(s', t) {
      assert ThreadInv(s, t);
    }
    forall t | 0 <= t < |s.threads| && InJob(s'.main) ensures ClaimInv(s', t) { assert ThreadInv(s, t); }
    forall f, id ensures s'.computed[(f, id)] == TimesComputed(s', f, id) {
      assert s.computed[(f, id)] == TimesComputed(s, f, id);
    }
  }

  lemma {:induction false} MarkInv(s: State, v: int)
    requires Inv(s) && Enabled(s, Main(v)) && s.main.Mark?
    ensures Inv(MainStep(s, v))
  {
    var s' := MainStep(s, v);
    var t := if s.main.i < |s.threads| then s.main.i else 0;
    assert ThreadInv(s, t) && ClaimInv(s, 0) && ClaimInv(s, t);
    forall u | 0 <= u < |s'.threads| ensures ThreadInv(s', u) { assert ThreadInv(s, u); }
    SamePcs(s, s', t);
  }

  lemma {:induction false} EnterMainInv(s: State, v: int)
    requires Inv(s) && Enabled(s, Main(v)) && s.main.Enter?
    ensures Inv(MainStep(s, v))
  {
    var s' := MainStep(s, v);
    assert ThreadInv(s, 0) && ClaimInv(s, 0);
    forall u | 0 <= u < |s'.threads| ensures ThreadInv(s', u) { assert ThreadInv(s, u); }
    SamePcs(s, s', 0);
  }

  /** The caller leaves process_tasks, or moves on in its wait loop. */
  lemma {:induction false} WaitStepInv(s: State, v: int)
    requires Inv(s) && Enabled(s, Main(v))
    requires (s.main.Running? && s.threads[0].pc.Polling?) || (s.main.WaitFor? && s.main.i < s.count)
    ensures Inv(MainStep(s, v))
  {
    var s' := MainStep(s, v);
    assert ThreadInv(s, 0) && ClaimInv(s, 0);
    forall u | 0 <= u < |s'.threads| ensures ThreadInv(s', u) { assert ThreadInv(s, u); }
    forall u | 0 <= u < |s'.threads| ensures ClaimInv(s', u) { assert ClaimInv(s, u); }
    forall f, id ensures s'.computed[(f, id)] == TimesComputed(s', f, id) {
      assert s.computed[(f, id)] == TimesComputed(s, f, id);
      SameHeld(s, s', id);
    }
  }

  /** The wait is over: every task of the job has been computed once, and the job is done. */
  lemma {:induction false} FinishInv(s: State, v: int)
    requires Inv(s) && Enabled(s, Main(v)) && s.main.WaitFor? && s.main.i >= s.count
    ensures Inv(MainStep(s, v))
  {
    var s' := MainStep(s, v);
    NobodyInside(s);
    forall u | 0 <= u < |s'.threads| ensures ThreadInv(s', u) { assert ThreadInv(s, u); }
    forall f, id ensures s'.computed[(f, id)] == TimesComputed(s', f, id) {
      assert s.computed[(f, id)] == TimesComputed(s, f, id);
    }
  }

  lemma {:induction false} StepInv(s: State, a: Action)
    requires Inv(s) && Enabled(s, a)
    ensures Inv(Apply(s, a))
  {
    match a
    case Worker(t, v) =>
      if !s.threads[t].pc.Polling? { ProcessInv(s, t, v); }
      else if s.threads[t].working { EnterInv(s, t); }
    case Main(v) =>
      match s.main {
        case Mark(_) => MarkInv(s, v);
        case Enter => EnterMainInv(s, v);
        case Running =>
          if s.threads[0].pc.Polling? { WaitStepInv(s, v); } else { ProcessInv(s, 0, v); }
        case WaitFor(i) => if i < s.count { WaitStepInv(s, v); } else { FinishInv(s, v); }
        case _ => SetFieldInv(s, v);
      }
  }

  lemma {:induction false} RunInv(run: seq<State>, acts: seq<Action>, i: nat)
    requires IsRun(run, acts) && i < |run|
    ensures Inv(run[i])
  {
    if i == 0 {
      var n: nat, restricted: nat, jobs :| RunOf(n, restricted, jobs, run, acts);
      InitInv(n, restricted, jobs);
    } else {
      RunInv(run, acts, i - 1);
      StepInv(run[i - 1], acts[i - 1]);
    }
  }

  // ---- what the pool promises ------------------------------------------------------------------

  /** Exactly once: a finished job has computed each of its task ids once, with its own function, and nothing
      else; and at no moment has any id been computed twice, or one outside the job's range. */
  lemma {:induction false} ExactlyOnce(run: seq<State>, acts: seq<Action>, i: nat, f: int, id: int)
    requires IsRun(run, acts) && i < |run|
    ensures 0 <= f < run[i].job ==>
              f < |run[i].jobs| && run[i].computed[(f, id)] == if 0 <= id < run[i].jobs[f] then 1 else 0
    ensures run[i].computed[(f, id)] <= 1
    ensures run[i].computed[(f, id)] == 1 ==> 0 <= f <= run[i].job && f < |run[i].jobs| && 0 <= id < run[i].jobs[f]
  {
    RunInv(run, acts, i);
    assert run[i].computed[(f, id)] == TimesComputed(run[i], f, id);
  }

  /** Safe reuse: the fields of a job are only ever written while every thread is outside and none has been
      told to go inside. */
  lemma {:induction false} SafeReuse(run: seq<State>, acts: seq<Action>, i: nat)
    requires IsRun(run, acts) && i < |run|
    ensures !run[i].clobbered
  {
    RunInv(run, acts, i);
  }

  /** Inside a job, what thread t is computing belongs to that job: the function, the end and the worker count
      it reads are the job's. */
  lemma {:induction false} InsideMeansThisJob(run: seq<State>, acts: seq<Action>, i: nat, t: nat)
    requires IsRun(run, acts) && i < |run| && t < |run[i].threads| && !run[i].threads[t].pc.Polling?
    ensures run[i].job < |run[i].jobs| && run[i].func == run[i].job && run[i].end == run[i].jobs[run[i].job]
    ensures run[i].count <= run[i].restricted && run[i].count <= run[i].end
    ensures run[i].count == run[i].restricted || run[i].count == run[i].end
  {
    RunInv(run, acts, i);
    assert ThreadInv(run[i], t);
  }

  /** A block is the smallest with which as many blocks as there are workers cover what the load left to do. */
  lemma {:induction false} BlockIsFairShare(s: State, t: nat, v: int)
    requires Inv(s) && t < |s.threads| && s.threads[t].pc.Round? && LoadOk(s, t, v) && v < s.end && s.count != 0
    ensures var pc := ProcessStep(s, t, v).threads[t].pc;
            pc.Loaded? && s.count * (pc.block - 1) < s.end - v <= s.count * pc.block
  {
    assert ThreadInv(s, t);
    assert ClaimInv(s, t);
    FairShare(s.end - v, s.count);
  }

  lemma {:induction false} FairShare(rem: int, c: int)
    requires c > 0
    ensures c * ((rem + c - 1) / c - 1) < rem <= c * ((rem + c - 1) / c)
  {
    var q := (rem + c - 1) / c;
    assert c * (q - 1) == c * q - c;
  }

  lemma {:induction false} CrossedSize(s: State)
    requires Inv(s) && InJob(s.main)
    ensures |s.crossed| <= Max(s.count, 0)
  {
    var all := Below(Max(s.count, 0));
    forall t | t in s.crossed ensures t in all { assert MayHaveWorked(s, t); }
    assert s.crossed <= all;
    assert all == s.crossed + (all - s.crossed);
  }

  /** Overshoot: stale block sizes can push curr_ past end_, but every thread does so at most once, so curr_
      stays below 2 * end_ + worker_count. */
  lemma {:induction false} Overshoot(run: seq<State>, acts: seq<Action>, i: nat)
    requires IsRun(run, acts) && i < |run| && InJob(run[i].main)
    ensures run[i].end <= 0 ==> run[i].curr == 0
    ensures run[i].end >= 1 ==> 0 <= run[i].curr < 2 * run[i].end + run[i].count - 1
  {
    RunInv(run, acts, i);
    CurrBound(run[i]);
  }

  lemma {:induction false} CurrBound(s: State)
    requires Inv(s) && InJob(s.main)
    ensures s.end >= 1 ==> s.curr < 2 * s.end + s.count - 1
  {
    CrossedSize(s);
    if s.curr >= s.end >= 1 && s.count >= 1 {
      CeilBounds(1, s.end, s.count);
      MulMonotone(MaxBlock(s), |s.crossed|, s.count);
    }
  }

  lemma {:induction false} MulMonotone(b: int, n: int, c: int)
    requires 0 <= b && n <= c
    ensures b * n <= c * b
  {
    var d := c - n;
    assert c * b == b * n + b * d;
    assert 0 <= b * d;
  }

  // ---- termination -----------------------------------------------------------------------------

  function Rank(th: Thread, end: int): nat {
    match th.pc
    case Polling => if th.working then 4 else 0
    case Round => 3
    case Loaded(_) => 2
    case Computing(pos, hi) => Max(Min(hi, end) - pos, 0) + 4
    case Leaving => 1
  }

  function SumRank(ts: seq<Thread>, end: int): nat {
    if ts == [] then 0 else Rank(ts[0], end) + SumRank(ts[1..], end)
  }

  function MainRank(s: State): nat {
    var c := Max(s.count, 0);
    match s.main
    case Mark(i) => 5 * Max(c - i, 0) + c + 10
    case Enter => c + 9
    case Running => c + 5
    case WaitFor(i) => Max(c - i, 0) + 1
    case _ => 0
  }

  /** An upper bound on the steps left in the job, spinning aside. */
  function Measure(s: State): int {
    4 * (2 * Max(s.end, 0) + Max(s.count, 0) - s.curr) + SumRank(s.threads, s.end) + MainRank(s)
    + (if Faulted(s) then 0 else 1)
  }

  lemma {:induction false} SumRankUpdate(ts: seq<Thread>, t: nat, th: Thread, end: int)
    requires t < |ts|
    ensures SumRank(ts[t := th], end) == SumRank(ts, end) - Rank(ts[t], end) + Rank(th, end)
  {
    if t > 0 {
      assert ts[t := th][1..] == ts[1..][t - 1 := th];
      SumRankUpdate(ts[1..], t - 1, th, end);
    }
  }

  /** Every step inside a job either is a spin, which changes nothing, or lowers the measure. */
  lemma {:induction false} StepDecreases(s: State, a: Action)
    requires Inv(s) && Enabled(s, a) && InJob(s.main)
    ensures var s' := Apply(s, a); s' == s || !InJob(s'.main) || Measure(s') < Measure(s)
    ensures var s' := Apply(s, a); s'.main.Idle? || (s'.end == s.end && s'.count == s.count)
  {
    match a
    case Worker(t, v) =>
      if !s.threads[t].pc.Polling? { ProcessDecreases(s, t, v); }
      else if s.threads[t].working { SumRankUpdate(s.threads, t, s.threads[t].(pc := Round, seen := 0), s.end); }
    case Main(v) =>
      match s.main {
        case Mark(i) =>
          if i < s.count && i < s.slots {
            assert ThreadInv(s, i);
            SumRankUpdate(s.threads, i, s.threads[i].(working := true), s.end);
          }
        case Enter =>
          assert ThreadInv(s, 0);
          SumRankUpdate(s.threads, 0, s.threads[0].(pc := Round, seen := 0), s.end);
        case Running => if !s.threads[0].pc.Polling? { ProcessDecreases(s, 0, v); }
        case _ =>
      }
  }

  lemma {:induction false} ProcessDecreases(s: State, t: nat, v: int)
    requires Inv(s) && !Faulted(s) && t < |s.threads| && !s.threads[t].pc.Polling? && LoadOk(s, t, v)
    ensures Measure(ProcessStep(s, t, v)) < Measure(s)
    ensures var s' := ProcessStep(s, t, v); s'.end == s.end && s'.count == s.count && s'.main == s.main
  {
    if !Divides(s, t, v) && !Strays(s, t) {
      ProcessThreads(s, t, v);
      assert ClaimInv(s, t);
      ProcessRank(s, t, v);
    }
  }

  lemma {:induction false} ProcessRank(s: State, t: nat, v: int)
    requires t < |s.threads| && ClaimInv(s, t) && !s.threads[t].pc.Polling? && !Divides(s, t, v)
    ensures var s' := Proceed(s, t, v);
            && s'.end == s.end && s'.count == s.count && s'.main == s.main
            && SumRank(s'.threads, s.end) - 4 * s'.curr < SumRank(s.threads, s.end) - 4 * s.curr
  {
    var s' := Proceed(s, t, v);
    ProceedFrame(s, t, v);
    ProcessOwnRank(s, t, v);
    SumRankUpdate(s.threads, t, s'.threads[t], s.end);
  }

  lemma {:induction false} ProcessOwnRank(s: State, t: nat, v: int)
    requires t < |s.threads| && ClaimInv(s, t) && !s.threads[t].pc.Polling? && !Divides(s, t, v)
    requires t < |Proceed(s, t, v).threads|
    ensures var s' := Proceed(s, t, v);
            Rank(s'.threads[t], s.end) - 4 * s'.curr < Rank(s.threads[t], s.end) - 4 * s.curr
  {
    if s.threads[t].pc.Loaded? { ClaimRank(s, t, v); }
  }

  /** A claim moves curr_ on by more than the steps it brings. */
  lemma {:induction false} ClaimRank(s: State, t: nat, v: int)
    requires t < |s.threads| && ClaimInv(s, t) && s.threads[t].pc.Loaded? && t < |Proceed(s, t, v).threads|
    ensures var s' := Proceed(s, t, v);
            Rank(s'.threads[t], s.end) - 4 * s'.curr < Rank(s.threads[t], s.end) - 4 * s.curr
  {
  }

  lemma {:induction false} MeasureBounds(s: State)
    requires Inv(s) && InJob(s.main)
    ensures 0 <= Measure(s)
    ensures s.main == Mark(0) ==> Measure(s) <= 8 * Max(s.end, 0) + 10 * Max(s.count, 0) + 11
  {
    CurrBound(s);
    if s.main == Mark(0) {
      forall t | 0 <= t < |s.threads| ensures Rank(s.threads[t], s.end) == 0 { assert ThreadInv(s, t); }
      ZeroRank(s.threads, s.end);
    }
  }

  lemma {:induction false} ZeroRank(ts: seq<Thread>, end: int)
    requires forall t :: 0 <= t < |ts| ==> Rank(ts[t], end) == 0
    ensures SumRank(ts, end) == 0
  {
    if ts != [] {
      assert forall t :: 0 <= t < |ts[1..]| ==> ts[1..][t] == ts[t + 1];
      ZeroRank(ts[1..], end);
    }
  }

  /** A job takes all threads together at most 8 * task_num + 10 * worker_count + 11 steps besides spinning,
      however stale their loads are and however they interleave. */
  lemma {:induction false} JobsAreBounded(run: seq<State>, acts: seq<Action>, a: nat, b: nat)
    requires IsRun(run, acts) && a <= b < |run|
    requires forall i :: a <= i <= b ==> InJob(run[i].main)
    ensures Moves(run, a, b) <= Measure(run[a])
    ensures run[a].main == Mark(0) ==> Moves(run, a, b) <= 8 * Max(run[a].end, 0) + 10 * Max(run[a].count, 0) + 11
    decreases b - a
  {
    RunInv(run, acts, a);
    MeasureBounds(run[a]);
    if a < b {
      StepDecreases(run[a], acts[a]);
      JobsAreBounded(run, acts, a + 1, b);
    }
  }

  /** Inside a job some thread can always do something other than spin. */
  lemma {:induction false} NeverStuck(s: State) returns (a: Action)
    requires Inv(s) && InJob(s.main) && !Faulted(s)
    ensures Enabled(s, a) && Apply(s, a) != s
  {
    assert ThreadInv(s, 0) && ClaimInv(s, 0);
    match s.main {
      case WaitFor(i) =>
        if i < s.count && s.threads[i].working {
          assert ThreadInv(s, i) && ClaimInv(s, i);
          a := Worker(i, s.curr);
        } else {
          a := Main(s.curr);
        }
      case _ => a := Main(s.curr);
    }
  }

  // ---- which configurations fault --------------------------------------------------------------

  ghost predicate CanFault(n: nat, restricted: nat, jobs: seq<int>) {
    exists run: seq<State>, acts: seq<Action> :: RunOf(n, restricted, jobs, run, acts) && Faulted(run[|acts|])
  }

  ghost predicate CanDivideByZero(n: nat, restricted: nat, jobs: seq<int>) {
    exists run: seq<State>, acts: seq<Action> :: RunOf(n, restricted, jobs, run, acts) && run[|acts|].divByZero
  }

  /** A configuration faults, in some interleaving, exactly when one of its jobs is more than it can do: there is
      no thread at all, or the job has a task and no worker may be used, or more workers are wanted than there
      are threads.  As the constructor leaves the pool, it faults exactly when it has no thread and is given a
      job. */
  lemma {:induction false} FaultsExactlyWhen(n: nat, restricted: nat, jobs: seq<int>)
    ensures CanFault(n, restricted, jobs) <==> !AllOk(n, restricted, jobs)
    ensures restricted == n ==> (CanFault(n, restricted, jobs) <==> n == 0 && jobs != [])
  {
    if CanFault(n, restricted, jobs) {
      var run: seq<State>, acts: seq<Action> :| RunOf(n, restricted, jobs, run, acts) && Faulted(run[|acts|]);
      FaultMeansBadJob(n, restricted, jobs, run, acts, |acts|);
    }
    if !AllOk(n, restricted, jobs) {
      var run, acts := FaultyRun(n, restricted, jobs);
    }
    if n == restricted == 0 && jobs != [] { assert !JobOk(n, restricted, jobs[0]); }
  }

  /** The block size is computed with a worker count of zero, in some interleaving, exactly when no worker may be
      used and some job has a task; a pool without threads has faulted before, unless it is the first. */
  lemma {:induction false} DividesByZeroExactlyWhen(n: nat, restricted: nat, jobs: seq<int>)
    ensures CanDivideByZero(n, restricted, jobs)
            <==> restricted == 0 && exists j :: 0 <= j < |jobs| && jobs[j] > 0 && (n == 0 ==> j == 0)
  {
    if CanDivideByZero(n, restricted, jobs) {
      var run: seq<State>, acts: seq<Action> :| RunOf(n, restricted, jobs, run, acts) && run[|acts|].divByZero;
      FaultMeansBadJob(n, restricted, jobs, run, acts, |acts|);
      assert jobs[run[|acts|].job] > 0;
    }
    if restricted == 0 && exists j :: 0 <= j < |jobs| && jobs[j] > 0 && (n == 0 ==> j == 0) {
      var j :| 0 <= j < |jobs| && jobs[j] > 0 && (n == 0 ==> j == 0);
      assert !JobOk(n, restricted, jobs[j]);
      var run, acts := FaultyRun(n, restricted, jobs);
      FaultMeansBadJob(n, restricted, jobs, run, acts, |acts|);
      assert RunOf(n, restricted, jobs, run, acts) && run[|acts|].divByZero;
    }
  }

  /** Wherever a run faults it is in a job that the pool cannot do; without threads that is the first. */
  lemma {:induction false} FaultMeansBadJob(n: nat, restricted: nat, jobs: seq<int>,
                                            run: seq<State>, acts: seq<Action>, i: nat)
    requires RunOf(n, restricted, jobs, run, acts) && i < |run| && Faulted(run[i])
    ensures run[i].job < |jobs| && !JobOk(n, restricted, jobs[run[i].job]) && (n == 0 ==> run[i].job == 0)
    ensures run[i].divByZero ==> restricted == 0 && jobs[run[i].job] > 0
    ensures run[i].outOfRange ==> Min(restricted, jobs[run[i].job]) > n || (n == 0 && jobs[run[i].job] <= 0)
  {
    RunInv(run, acts, i);
    RunConfig(n, restricted, jobs, run, acts, i);
    if run[i].job > 0 { DoneMeansThreads(run[i]); }
  }

  /** No interleaving gets past a job that the pool cannot do: all jobs done are ones it can. */
  lemma {:induction false} NeverPastBadJob(run: seq<State>, acts: seq<Action>, i: nat, j: nat)
    requires IsRun(run, acts) && i < |run| && j < run[i].job
    ensures j < |run[i].jobs| && JobOk(run[i].slots, run[i].restricted, run[i].jobs[j])
  {
    RunInv(run, acts, i);
    assert run[i].jobs[..run[i].job][j] == run[i].jobs[j];
  }

  lemma {:induction false} DoneMeansThreads(s: State)
    requires DoneInv(s) && s.job > 0
    ensures 1 <= s.slots
  {
    assert JobOk(s.slots, s.restricted, s.jobs[..s.job][0]);
  }

  lemma {:induction false} RunConfig(n: nat, restricted: nat, jobs: seq<int>,
                                     run: seq<State>, acts: seq<Action>, i: nat)
    requires RunOf(n, restricted, jobs, run, acts) && i < |run|
    ensures SameConfig(Init(n, restricted, jobs), run[i])
  {
    if i > 0 {
      RunConfig(n, restricted, jobs, run, acts, i - 1);
      StepKeepsConfig(run[i - 1], acts[i - 1]);
    }
  }

  predicate SameConfig(s: State, s': State) {
    s'.slots == s.slots && s'.restricted == s.restricted && s'.jobs == s.jobs
  }

  lemma {:induction false} StepKeepsConfig(s: State, a: Action)
    requires Enabled(s, a)
    ensures SameConfig(s, Apply(s, a))
  {
  }

  lemma {:induction false} FaultyRun(n: nat, restricted: nat, jobs: seq<int>)
    returns (run: seq<State>, acts: seq<Action>)
    requires !AllOk(n, restricted, jobs)
    ensures RunOf(n, restricted, jobs, run, acts) && Faulted(run[|acts|])
  {
    InitInv(n, restricted, jobs);
    var j :| 0 <= j < |jobs| && !JobOk(n, restricted, jobs[j]);
    run, acts := RunToFault(Init(n, restricted, jobs), j);
  }

  /** Between jobs, with a job ahead that cannot be done, doing one job after the other ends in a fault. */
  lemma {:induction false} RunToFault(s: State, j: nat) returns (run: seq<State>, acts: seq<Action>)
    requires Inv(s) && s.main.Idle? && !Faulted(s) && s.job <= j < |s.jobs|
    requires !JobOk(s.slots, s.restricted, s.jobs[j])
    ensures Steps(run, acts) && run[0] == s && Faulted(run[|acts|])
    decreases |s.jobs| - s.job
  {
    run, acts := WriteFields(s);
    var more, moreActs := RunJob(run[|acts|]);
    run, acts := Join(run, acts, more, moreActs);
    if !Faulted(run[|acts|]) {
      more, moreActs := RunToFault(run[|acts|], j);
      run, acts := Join(run, acts, more, moreActs);
    }
  }

  /** The caller writes the fields of the next job. */
  lemma {:induction false} WriteFields(s: State) returns (run: seq<State>, acts: seq<Action>)
    requires Inv(s) && !InJob(s.main) && !Faulted(s) && s.job < |s.jobs|
    ensures Steps(run, acts) && run[0] == s
    ensures var s' := run[|acts|]; Inv(s') && !Faulted(s') && InJob(s'.main) && s'.job == s.job && SameConfig(s, s')
    decreases match s.main case Idle => 3 case SetCount => 2 case ResetCurr => 1 case _ => 0
  {
    NobodyInside(s);
    var a := Main(0);
    StepInv(s, a);
    run, acts := [s, Apply(s, a)], [a];
    if !s.main.SetEnd? {
      var more, moreActs := WriteFields(Apply(s, a));
      run, acts := Join(run, acts, more, moreActs);
    }
  }

  /** From inside a job the pool can go on until the job is done or something has gone wrong. */
  lemma {:induction false} RunJob(s: State) returns (run: seq<State>, acts: seq<Action>)
    requires Inv(s) && InJob(s.main) && !Faulted(s)
    ensures Steps(run, acts) && run[0] == s && Inv(run[|acts|]) && SameConfig(s, run[|acts|])
    ensures var s' := run[|acts|]; Faulted(s') || (s'.main.Idle? && s'.job == s.job + 1)
    decreases Measure(s)
  {
    var a := JobStep(s);
    var s' := Apply(s, a);
    run, acts := [s, s'], [a];
    if !Faulted(s') && InJob(s'.main) {
      var more, moreActs := RunJob(s');
      run, acts := Join(run, acts, more, moreActs);
    }
  }

  /** Some step brings the job nearer to its end. */
  lemma {:induction false} JobStep(s: State) returns (a: Action)
    requires Inv(s) && InJob(s.main) && !Faulted(s)
    ensures Enabled(s, a) && Inv(Apply(s, a)) && SameConfig(s, Apply(s, a)) && 0 <= Measure(s)
    ensures var s' := Apply(s, a);
            if InJob(s'.main) then Measure(s') < Measure(s) && s'.job == s.job
            else s'.main.Idle? && s'.job == s.job + 1
  {
    a := NeverStuck(s);
    StepInv(s, a);
    StepKeepsConfig(s, a);
    StepDecreases(s, a);
    StepKeepsJob(s, a);
    MeasureBounds(s);
  }

  lemma {:induction false} StepKeepsJob(s: State, a: Action)
    requires Enabled(s, a) && InJob(s.main)
    ensures var s' := Apply(s, a);
            if InJob(s'.main) then s'.job == s.job else s'.main.Idle? && s'.job == s.job + 1
  {
  }

  lemma {:induction false} Join(run: seq<State>, acts: seq<Action>, more: seq<State>, moreActs: seq<Action>)
    returns (all: seq<State>, allActs: seq<Action>)
    requires Steps(run, acts) && Steps(more, moreActs) && run[|acts|] == more[0]
    ensures Steps(all, allActs) && all[0] == run[0] && all[|allActs|] == more[|moreActs|]
  {
    all, allActs := run + more[1..], acts + moreActs;
    forall i | 0 <= i < |allActs| ensures Enabled(all[i], allActs[i]) && all[i + 1] == Apply(all[i], allActs[i]) {
      if i >= |acts| { assert all[i] == more[i - |acts|]; }
    }
  }

  /** The caller's own steps: they do not load `curr_`. */
  lemma {:induction false} CallerStepInv(s: State)
    requires Inv(s) && !Faulted(s) && s.job < |s.jobs| && JobOk(s.slots, s.restricted, s.jobs[s.job])
    requires s.main.Running? ==> s.threads[0].pc.Polling?
    ensures Inv(MainStep(s, 0)) && !Faulted(MainStep(s, 0))
  {
    assert ThreadInv(s, 0);
    StepInv(s, Main(0));
  }

  // ---- the pool object ------------------------------------------------------------------------

  /** The pool as an object: its shared fields, the status words and local variables of the threads, where the
      caller stands, and history.  Each method performs one access in place, without looking whether anyone is
      inside the previous job; its contract is the step function above. */
  class InNumaPool {
    const slots: nat
    const jobs: seq<int>
    const restricted: nat
    var main: MainPc
    var job: nat
    var func: int
    var count: int
    var end: int
    var curr: int
    var threads: seq<Thread>
    ghost var computed: multiset<(int, int)>
    ghost var crossed: set<nat>

    ghost function View(): State
      reads this
    {
      State(slots, jobs, restricted, main, job, func, count, end, curr, threads, computed, crossed, false, false, false)
    }

    /** The jobs are ones that this pool can do. */
    ghost predicate Valid()
      reads this
    {
      Inv(View()) && AllOk(slots, restricted, jobs)
    }

    constructor (n: nat, restricted: nat, jobs: seq<int>)
      requires AllOk(n, restricted, jobs)
      ensures View() == Init(n, restricted, jobs) && Valid()
    {
      slots, this.jobs, this.restricted := n, jobs, restricted;
      main, job, func, count, end, curr := Idle, 0, -1, 0, 0, 0;
      threads := seq(if n == 0 then 1 else n, _ => Thread(false, Polling, 0));
      computed, crossed := multiset{}, {};
      InitInv(n, restricted, jobs);
    }

    /** do_work_stealing_job_async: `compute_func_ = compute_func`. */
    method WriteFunction()
      requires Valid() && main.Idle? && job < |jobs|
      modifies this
      ensures View() == MainStep(old(View()), 0) && Valid()
    {
      CallerStepInv(View());
      func := job;
      main := SetCount;
    }

    /** `worker_count = min(restricted_worker_count, task_num)`. */
    method WriteCount()
      requires Valid() && main.SetCount?
      modifies this
      ensures View() == MainStep(old(View()), 0) && Valid()
    {
      CallerStepInv(View());
      count := Min(restricted, jobs[job]);
      main := ResetCurr;
    }

    /** `curr_.store(0)`. */
    method StoreCurr()
      requires Valid() && main.ResetCurr?
      modifies this
      ensures View() == MainStep(old(View()), 0) && Valid()
    {
      CallerStepInv(View());
      curr := 0;
      crossed := {};
      main := SetEnd;
    }

    /** `end_ = task_num`. */
    method WriteEnd()
      requires Valid() && main.SetEnd?
      modifies this
      ensures View() == MainStep(old(View()), 0) && Valid()
    {
      CallerStepInv(View());
      end := jobs[job];
      main := Mark(0);
    }

    /** One pass of the loop that stores WORKING, or its end. */
    method MarkNext()
      requires Valid() && main.Mark?
      modifies this
      ensures View() == MainStep(old(View()), 0) && Valid()
    {
      CallerStepInv(View());
      var i := main.i;
      if i < count {
        threads := threads[i := threads[i].(working := true)];
        main := Mark(i + 1);
      } else {
        main := Enter;
      }
    }

    /** The caller enters `process_tasks(0)`. */
    method EnterOwn()
      requires Valid() && main.Enter?
      modifies this
      ensures View() == MainStep(old(View()), 0) && Valid()
    {
      CallerStepInv(View());
      threads := threads[0 := threads[0].(pc := Round, seen := 0)];
      main := Running;
    }

    /** process_tasks: load `curr_`, which yields v, and work out the block size. */
    method LoadCurr(t: nat, v: int)
      requires Valid() && t < |threads| && threads[t].pc.Round? && LoadOk(View(), t, v)
      modifies this
      ensures View() == ProcessStep(old(View()), t, v) && Valid()
    {
      ProcessInv(View(), t, v);
      var rem := end - v;
      if rem <= 0 {
        threads := threads[t := threads[t].(pc := Leaving, seen := v)];
      } else {
        var block := (rem + count - 1) / count;
        threads := threads[t := threads[t].(pc := Loaded(block), seen := v)];
      }
    }

    /** `task_id = curr_.fetch_add(block)`. */
    method FetchAdd(t: nat)
      requires Valid() && t < |threads| && threads[t].pc.Loaded?
      modifies this
      ensures View() == ProcessStep(old(View()), t, 0) && Valid()
    {
      ProcessInv(View(), t, 0);
      var block := threads[t].pc.block;
      var taskId := curr;
      curr := taskId + block;
      if curr >= end { crossed := crossed + {t}; }
      threads := threads[t := threads[t].(pc := if taskId >= end then Leaving else Computing(taskId, taskId + block),
                                          seen := curr)];
    }

    /** The next task of the block, or the end of the block. */
    method ComputeNext(t: nat)
      requires Valid() && t < |threads| && threads[t].pc.Computing?
      modifies this
      ensures View() == ProcessStep(old(View()), t, 0) && Valid()
    {
      ProcessInv(View(), t, 0);
      var Computing(pos, hi) := threads[t].pc;
      if pos < hi && pos < end {
        computed := computed + multiset{(func, pos)};
        threads := threads[t := threads[t].(pc := Computing(pos + 1, hi))];
      } else {
        threads := threads[t := threads[t].(pc := Round)];
      }
    }

    /** `s.status.store(WAITING)`. */
    method StoreWaiting(t: nat)
      requires Valid() && t < |threads| && threads[t].pc.Leaving?
      modifies this
      ensures View() == ProcessStep(old(View()), t, 0) && Valid()
    {
      ProcessInv(View(), t, 0);
      threads := threads[t := threads[t].(working := false, pc := Polling)];
    }

    /** worker_thread: one reading of the status word. */
    method PollStatus(t: nat)
      requires Valid() && 0 < t < |threads| && threads[t].pc.Polling?
      modifies this
      ensures View() == WorkerStep(old(View()), t, 0) && Valid()
    {
      StepInv(View(), Worker(t, 0));
      if threads[t].working {
        threads := threads[t := threads[t].(pc := Round, seen := 0)];
      }
    }

    /** The caller has left `process_tasks(0)` and goes on to `wait`. */
    method BeginWait()
      requires Valid() && main.Running? && threads[0].pc.Polling?
      modifies this
      ensures View() == MainStep(old(View()), 0) && Valid()
    {
      CallerStepInv(View());
      main := WaitFor(0);
    }

    /** wait: one reading of a status word, or the end of the loop, after which the job is done. */
    method WaitNext()
      requires Valid() && main.WaitFor?
      modifies this
      ensures View() == MainStep(old(View()), 0) && Valid()
    {
      CallerStepInv(View());
      var i := main.i;
      if i < count {
        if !threads[i].working { main := WaitFor(i + 1); }
      } else {
        main, job := Idle, job + 1;
      }
    }
  }
}
