/**
 The memory that layers share (`cpu_backend/shared_mem_buffer.{h,cpp}`): every layer registers a request, a list of
 pointers with sizes; all requests start at the same base; when a larger request arrives the buffer is replaced and
 everyone who ever registered is pointed into the new one.
 */
module SharedBuffer {
  import opened Sequences

  /** A client's pointer variable; 0 is the null pointer. */
  class Pointer {
    var target: nat
  }

  /** Function i of a request writes through pointers[i]. */
  datatype MemoryRequest = MemoryRequest(pointers: seq<Pointer>, sizes: seq<nat>)

  predicate Paired(r: MemoryRequest) {
    |r.pointers| == |r.sizes|
  }

  /** `append_pointer`. */
  function AppendPointer(r: MemoryRequest, p: Pointer, size: nat): (r': MemoryRequest)
    requires Paired(r)
    ensures Paired(r') && TotalOf(r') == TotalOf(r) + size
  {
    assert (r.sizes + [size])[..|r.sizes|] == r.sizes;
    MemoryRequest(r.pointers + [p], r.sizes + [size])
  }

  function TotalOf(r: MemoryRequest): nat {
    Sum(r.sizes)
  }

  /** `total_size`. */
  method TotalSize(r: MemoryRequest) returns (total: nat)
    ensures total == TotalOf(r)
  {
    total := 0;
    var i := 0;
    while i < |r.sizes|
      invariant 0 <= i <= |r.sizes| && total == Sum(r.sizes[..i])
    {
      assert r.sizes[..i + 1][..i] == r.sizes[..i];
      total := total + r.sizes[i];
      i := i + 1;
    }
    assert r.sizes[..i] == r.sizes;
  }

  /** Where the last of the first n entries for p lies, relative to the base. */
  function OffsetIn(r: MemoryRequest, p: Pointer, n: nat): (offset: nat)
    requires Paired(r) && n <= |r.pointers| && p in r.pointers[..n]
  {
    if r.pointers[n - 1] == p then Sum(r.sizes[..n - 1]) else OffsetIn(r, p, n - 1)
  }

  /** `update_base_ptr`: each pointer is moved to the base plus the sizes before it; if a pointer occurs twice, its
      last entry counts. */
  method UpdateBasePtr(r: MemoryRequest, base: nat)
    requires Paired(r)
    modifies r.pointers
    ensures forall p <- r.pointers :: p.target == base + OffsetIn(r, p, |r.pointers|)
  {
    var totalOffset := 0;
    var i := 0;
    while i < |r.pointers|
      invariant 0 <= i <= |r.pointers| && totalOffset == Sum(r.sizes[..i])
      invariant forall p <- r.pointers[..i] :: p.target == base + OffsetIn(r, p, i)
    {
      r.pointers[i].target := base + totalOffset;
      assert r.sizes[..i + 1][..i] == r.sizes[..i];
      totalOffset := totalOffset + r.sizes[i];
      i := i + 1;
    }
  }

  // ---- registrations --------------------------------------------------------------------------

  predicate Registered(requests: seq<MemoryRequest>, p: Pointer) {
    exists j :: 0 <= j < |requests| && p in requests[j].pointers
  }

  predicate AllPaired(requests: seq<MemoryRequest>) {
    forall j :: 0 <= j < |requests| ==> Paired(requests[j])
  }

  /** Where a pointer's last registration puts it, relative to the base. */
  function LastOffset(requests: seq<MemoryRequest>, p: Pointer): nat
    requires AllPaired(requests) && Registered(requests, p)
    decreases |requests|
  {
    var last := requests[|requests| - 1];
    if p in last.pointers then OffsetIn(last, p, |last.pointers|)
    else
      NotInLast(requests, p);
      LastOffset(requests[..|requests| - 1], p)
  }

  lemma {:induction false} NotInLast(requests: seq<MemoryRequest>, p: Pointer)
    requires Registered(requests, p) && p !in requests[|requests| - 1].pointers
    ensures Registered(requests[..|requests| - 1], p)
  {
    var j :| 0 <= j < |requests| && p in requests[j].pointers;
    assert p in requests[..|requests| - 1][j].pointers;
  }

  /** The largest request so far. */
  function Largest(requests: seq<MemoryRequest>): nat
    decreases |requests|
  {
    if requests == [] then 0
    else
      var before, last := Largest(requests[..|requests| - 1]), TotalOf(requests[|requests| - 1]);
      if last > before then last else before
  }

  lemma {:induction false} LargestIsMaximum(requests: seq<MemoryRequest>)
    ensures forall j :: 0 <= j < |requests| ==> TotalOf(requests[j]) <= Largest(requests)
    ensures requests != [] ==> exists j :: 0 <= j < |requests| && TotalOf(requests[j]) == Largest(requests)
    decreases |requests|
  {
    if requests != [] {
      var n := |requests| - 1;
      var front := requests[..n];
      LargestIsMaximum(front);
      forall j | 0 <= j < |requests| ensures TotalOf(requests[j]) <= Largest(requests) {
        if j < n { assert TotalOf(front[j]) <= Largest(front); }
      }
      if TotalOf(requests[n]) <= Largest(front) && front != [] {
        var j :| 0 <= j < |front| && TotalOf(front[j]) == Largest(front);
        assert TotalOf(requests[j]) == Largest(requests);
      } else {
        assert TotalOf(requests[n]) == Largest(requests);
      }
    }
  }

  class SharedMemBuffer {
    var buffer: nat
    var size: nat
    var objectRequests: seq<MemoryRequest>

    ghost function Clients(): set<Pointer>
      reads this
    {
      set j, p | 0 <= j < |objectRequests| && p in objectRequests[j].pointers :: p
    }

    /** The capacity is the largest request, there is a buffer unless nothing was ever asked for, and every pointer
        ever registered is where its last registration puts it, relative to the current base. */
    ghost predicate Valid()
      reads this, Clients()
    {
      && AllPaired(objectRequests)
      && size == Largest(objectRequests)
      && (buffer == 0 <==> size == 0) && buffer % 64 == 0
      && forall p <- Clients() :: p.target == buffer + LastOffset(objectRequests, p)
    }

    constructor ()
      ensures Valid() && objectRequests == [] && buffer == 0
    {
      buffer, size, objectRequests := 0, 0, [];
    }

    /** `alloc`.  `rc` and `newbuf` are what `posix_memalign` answers if it is asked; when it fails the program
        exits.  Otherwise all clients, old and new, are where they should be. */
    method Alloc(requests: MemoryRequest, rc: int, newbuf: nat) returns (exited: bool)
      requires Valid() && Paired(requests)
      requires rc == 0 ==> newbuf % 64 == 0
      modifies this, Clients(), requests.pointers
      ensures exited <==> TotalOf(requests) > old(size) && (rc != 0 || newbuf == 0)
      ensures !exited ==> Valid() && objectRequests == old(objectRequests) + [requests]
      ensures !exited ==> size == (if TotalOf(requests) > old(size) then TotalOf(requests) else old(size))
      ensures !exited ==> buffer == (if TotalOf(requests) > old(size) then newbuf else old(buffer))
    {
      var totalSize := TotalSize(requests);
      ghost var before := objectRequests;
      objectRequests := objectRequests + [requests];
      assert objectRequests[..|before|] == before;
      if totalSize > size {
        if rc != 0 || newbuf == 0 {
          return true;
        }
        buffer := newbuf;
        size := totalSize;
        PointAll();
      } else {
        UpdateBasePtr(requests, buffer);
        forall p | p in Clients() ensures p.target == buffer + LastOffset(objectRequests, p) {
          PushOffset(before, requests, p);
        }
      }
      return false;
    }

    /** The loop that re-points every client, in the order of registration. */
    method PointAll()
      requires AllPaired(objectRequests)
      modifies Clients()
      ensures forall p <- Clients() :: p.target == buffer + LastOffset(objectRequests, p)
    {
      var k := 0;
      while k < |objectRequests|
        invariant 0 <= k <= |objectRequests| && objectRequests == old(objectRequests)
        invariant Pointed(objectRequests[..k], buffer)
      {
        var req := objectRequests[k];
        ghost var front := objectRequests[..k];
        forall p | p in req.pointers ensures p in old(Clients()) { assert p in objectRequests[k].pointers; }
        UpdateBasePtr(req, buffer);
        assert objectRequests[..k + 1] == front + [req];
        forall p | Registered(front + [req], p) ensures p.target == buffer + LastOffset(front + [req], p) {
          PushOffset(front, req, p);
        }
        k := k + 1;
      }
      assert objectRequests[..k] == objectRequests;
    }
  }

  ghost predicate Pointed(requests: seq<MemoryRequest>, base: nat)
    requires AllPaired(requests)
    reads set j, p | 0 <= j < |requests| && p in requests[j].pointers :: p
  {
    forall j, p :: 0 <= j < |requests| && p in requests[j].pointers ==> p.target == base + LastOffset(requests, p)
  }

  lemma {:induction false} PushOffset(requests: seq<MemoryRequest>, r: MemoryRequest, p: Pointer)
    requires AllPaired(requests) && Paired(r) && Registered(requests + [r], p)
    ensures AllPaired(requests + [r]) && (p in r.pointers || Registered(requests, p))
    ensures LastOffset(requests + [r], p)
            == if p in r.pointers then OffsetIn(r, p, |r.pointers|) else LastOffset(requests, p)
  {
    assert (requests + [r])[..|requests|] == requests;
    if p !in r.pointers { NotInLast(requests + [r], p); }
  }

  // ---- what the invariant means for clients ---------------------------------------------------

  /** Entry i of request j is the last word on its pointer. */
  predicate NotRegisteredAgain(requests: seq<MemoryRequest>, j: nat, i: nat)
    requires j < |requests| && i < |requests[j].pointers|
  {
    && (forall k :: i < k < |requests[j].pointers| ==> requests[j].pointers[k] != requests[j].pointers[i])
    && (forall l :: j < l < |requests| ==> requests[j].pointers[i] !in requests[l].pointers)
  }

  /** Such a pointer lies behind the earlier sizes of its own request. */
  lemma {:induction false} PlaceOfEntry(requests: seq<MemoryRequest>, j: nat, i: nat)
    requires AllPaired(requests) && j < |requests| && i < |requests[j].pointers| && NotRegisteredAgain(requests, j, i)
    ensures Registered(requests, requests[j].pointers[i])
    ensures LastOffset(requests, requests[j].pointers[i]) == Sum(requests[j].sizes[..i])
    decreases |requests|
  {
    var p, n := requests[j].pointers[i], |requests| - 1;
    assert p in requests[j].pointers;
    if j == n {
      PlaceInRequest(requests[j], i, |requests[j].pointers|);
    } else {
      var front := requests[..n];
      assert front[j] == requests[j];
      forall l | j < l < |front| ensures p !in front[l].pointers { assert front[l] == requests[l]; }
      PlaceOfEntry(front, j, i);
    }
  }

  lemma {:induction false} PlaceInRequest(r: MemoryRequest, i: nat, n: nat)
    requires Paired(r) && i < n <= |r.pointers| && forall k :: i < k < n ==> r.pointers[k] != r.pointers[i]
    ensures r.pointers[i] in r.pointers[..n] && OffsetIn(r, r.pointers[i], n) == Sum(r.sizes[..i])
    decreases n
  {
    assert r.pointers[..n][i] == r.pointers[i];
    if i < n - 1 {
      assert r.pointers[n - 1] != r.pointers[i];
      PlaceInRequest(r, i, n - 1);
    }
  }

  /** The regions of one request do not overlap and fit into the buffer. */
  lemma {:induction false} RegionsApart(requests: seq<MemoryRequest>, j: nat, i: nat, k: nat)
    requires AllPaired(requests) && j < |requests| && i < k <= |requests[j].sizes|
    ensures Sum(requests[j].sizes[..i]) + requests[j].sizes[i] <= Sum(requests[j].sizes[..k]) <= Largest(requests)
  {
    var sizes := requests[j].sizes;
    SumGrows(sizes, i, k);
    assert sizes == sizes[..k] + sizes[k..];
    SumSplit(sizes[..k], sizes[k..]);
    LargestIsMaximum(requests);
    assert TotalOf(requests[j]) <= Largest(requests);
  }

  lemma {:induction false} SumGrows(sizes: seq<nat>, i: nat, k: nat)
    requires i < k <= |sizes|
    ensures Sum(sizes[..i]) + sizes[i] <= Sum(sizes[..k])
    decreases k
  {
    assert sizes[..k][..k - 1] == sizes[..k - 1];
    if i < k - 1 { SumGrows(sizes, i, k - 1); }
  }
}
