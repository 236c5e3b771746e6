/**
 The Python side of the pipeline (`python/experts_base.py`): the buffer cache, the record of layers with a
 deferred task, and what `submit_forward` and `sync_forward` put on the CUDA stream.  The last part joins it
 with module `Pipeline`: whole passes over the layers return every routed contribution exactly once.
 */
module ExpertsHost {
  import opened Prelude
  import Deferral
  import Pipeline
  import PipelineRuns
  import Sequences

  type Ids = Deferral.Ids

  /** One `forward` of one layer's wrapper.  `chosen` is what `torch.topk` picks among the weights, should the
      wrapper ask it to. */
  datatype Request = Request(layer: nat, x: Pipeline.Batch, ids: Ids, w: Pipeline.Weights,
                             numExperts: nat, topk: nat, maxDeferred: int, chosen: seq<seq<nat>>)

  datatype Failure = NotABuffer | IndexOutOfRange

  /** Class-level state: batch sizes to capture, the captured buffer sets, the latest other one (None is the
      empty tuple it starts as), the number of sets allocated so far, and `_layer_has_pending_deferred`. */
  datatype Host = Host(captureBs: set<nat>, captured: map<nat, nat>, tempBs: nat, temp: Option<nat>,
                       made: nat, pendingDeferred: map<int, bool>)

  // ---- get_buffer -----------------------------------------------------------------------------

  /** `KExpertsCPUBuffer.get_buffer`: the new cache and the buffer set, or None for the empty tuple. */
  function GetBuffer(h: Host, batch: nat): (Host, Option<nat>) {
    if batch in h.captured then (h, Some(h.captured[batch]))
    else if batch == h.tempBs then (h, h.temp)
    else
      var h' := h.(made := h.made + 1, tempBs := batch, temp := Some(h.made));
      (if batch in h.captureBs then h'.(captured := h.captured[batch := h.made]) else h', Some(h.made))
  }

  /** The cache only ever holds sets that were allocated, one batch size to a set; only batch sizes to be captured
      are, the latest one if it is among them; and then the set kept for it is the captured one. */
  ghost predicate CacheInv(h: Host) {
    && (h.temp.Some? ==> h.temp.value < h.made)
    && (forall b :: b in h.captured ==> h.captured[b] < h.made)
    && (forall b, c :: b in h.captured && c in h.captured && b != c ==> h.captured[b] != h.captured[c])
    && (forall b :: b in h.captured && h.temp == Some(h.captured[b]) ==> b == h.tempBs)
    && (h.temp.None? ==> h.tempBs == 0 && h.captured == map[])
    && (forall b :: b in h.captured ==> b in h.captureBs)
    && (h.temp.Some? && h.tempBs in h.captureBs ==> h.tempBs in h.captured && h.captured[h.tempBs] == h.temp.value)
  }

  /** The initial cache, with any set of batch sizes to capture. */
  function InitHost(captureBs: set<nat>): Host {
    Host(captureBs, map[], 0, None, 0, map[])
  }

  /** The call hands out a buffer set unless nothing was ever cached and the batch is empty: then the empty
      tuple comes back, which the caller cannot unpack.  Asking again gives the same set and allocates
      nothing; another batch size never gets the same set. */
  lemma {:induction false} GetBufferIsStable(h: Host, batch: nat)
    requires CacheInv(h)
    ensures var (h', b) := GetBuffer(h, batch);
            && CacheInv(h')
            && (b.None? <==> h.temp.None? && batch == 0)
            && GetBuffer(h', batch) == (h', b)
            && (b.Some? ==> forall other :: other != batch ==> GetBuffer(h', other).1 != b)
  {
    var (h', b) := GetBuffer(h, batch);
    if b.Some? {
      forall other | other != batch ensures GetBuffer(h', other).1 != b {
        if other in h'.captured && batch in h'.captured {
        } else if other in h'.captured {
          assert batch == h'.tempBs;
        }
      }
    }
  }

  /** The cache after some further requests. */
  function AfterRequests(h: Host, batches: seq<nat>): Host
    decreases |batches|
  {
    if batches == [] then h else AfterRequests(GetBuffer(h, batches[0]).0, batches[1..])
  }

  /** A buffer set that was handed out comes back for its batch size, whatever was asked for in between, exactly
      when the batch size is one to be captured or every other size asked for since was captured already. */
  lemma {:induction false} ComesBackExactlyWhen(h: Host, batch: nat, between: seq<nat>)
    requires CacheInv(h) && GetBuffer(h, batch).1.Some?
    ensures var (h', set_) := GetBuffer(h, batch);
            var later := AfterRequests(h', between);
            && CacheInv(later) && later.captureBs == h.captureBs
            && (GetBuffer(later, batch).1 == set_ <==> batch in h.captureBs || AllAtHand(h, batch, between))
  {
    var (h', set_) := GetBuffer(h, batch);
    GetBufferIsStable(h, batch);
    Remembered(h', batch, set_.value, between);
  }

  /** Every size is `batch` itself or has been captured. */
  predicate AllAtHand(h: Host, batch: nat, sizes: seq<nat>) {
    forall i :: 0 <= i < |sizes| ==> sizes[i] == batch || sizes[i] in h.captured
  }

  /** The set that batch size `batch` has is captured, or kept as the latest, or gone. */
  ghost predicate Has(h: Host, batch: nat, set_: nat) {
    if batch in h.captureBs then batch in h.captured && h.captured[batch] == set_
    else h.tempBs == batch && h.temp == Some(set_)
  }

  /** It has been pushed out by a later one. */
  ghost predicate Gone(h: Host, batch: nat, set_: nat) {
    batch !in h.captureBs && set_ < h.made && h.temp != Some(set_)
  }

  lemma {:induction false} OneMoreRequest(h: Host, batch: nat, set_: nat, other: nat)
    requires CacheInv(h)
    ensures var next := GetBuffer(h, other).0;
            && CacheInv(next) && next.captureBs == h.captureBs && h.made <= next.made
            && (Gone(h, batch, set_) ==> Gone(next, batch, set_))
            && (Has(h, batch, set_) ==>
                  if batch in h.captureBs then Has(next, batch, set_)
                  else if other == batch || other in h.captured then next == h
                  else Gone(next, batch, set_))
  {
    GetBufferIsStable(h, other);
  }

  lemma {:induction false} Remembered(h: Host, batch: nat, set_: nat, between: seq<nat>)
    requires CacheInv(h) && (Has(h, batch, set_) || Gone(h, batch, set_))
    ensures var later := AfterRequests(h, between);
            && CacheInv(later) && later.captureBs == h.captureBs
            && (Has(h, batch, set_) ==>
                  (GetBuffer(later, batch).1 == Some(set_) <==> batch in h.captureBs || AllAtHand(h, batch, between)))
            && (Gone(h, batch, set_) ==> GetBuffer(later, batch).1 != Some(set_))
    decreases |between|
  {
    if between != [] {
      OneMoreRequest(h, batch, set_, between[0]);
      Remembered(GetBuffer(h, between[0]).0, batch, set_, between[1..]);
    }
  }

  // ---- submit_forward and sync_forward --------------------------------------------------------

  /** The tensors of a request have one row per token and `topk` columns, and `chosen` is a possible answer of
      `torch.topk` if the wrapper defers. */
  ghost predicate WellFormed(r: Request) {
    && Deferral.Shaped(r.ids, |r.x|, r.topk) && Deferral.Shaped(r.w, |r.x|, r.topk)
    && (r.maxDeferred > 0 ==>
          && |r.chosen| == |r.x|
          && forall t :: 0 <= t < |r.x| ==>
               Deferral.IsTopK(r.w[t], Deferral.Clamp(r.topk - r.maxDeferred, r.topk), r.chosen[t]))
  }

  /** Which ids run now and which are deferred. */
  function Split(r: Request): Result<(Ids, Option<Ids>), Failure>
    requires WellFormed(r)
  {
    if r.maxDeferred <= 0 then Ok((r.ids, None))
    else match Deferral.Select(r.numExperts, r.topk, r.ids, r.chosen, r.topk - r.maxDeferred)
         case Err(_) => Err(IndexOutOfRange)
         case Ok(split) => Ok((split.0, Some(split.1)))
  }

  /** An id is looked up only if some experts are deferred and some are not. */
  predicate CanSplit(r: Request) {
    r.maxDeferred <= 0 || r.topk <= r.maxDeferred || Deferral.AllInRange(r.ids, r.numExperts)
  }

  /** What the split of a request that may defer promises: at most `maxDeferred` positions of a token are put off,
      none scoring above one that is kept, and an expert runs at once exactly when some token keeps it. */
  ghost predicate SoundlySplit(r: Request, imm: Ids, def: Ids)
    requires WellFormed(r) && r.maxDeferred > 0
  {
    var k := Deferral.Clamp(r.topk - r.maxDeferred, r.topk);
    Deferral.SoundSplit(r.topk, r.ids, r.w, r.chosen, k, imm, def)
  }

  lemma {:induction false} SplitExactlyWhen(r: Request)
    requires WellFormed(r)
    ensures Split(r).Ok? <==> CanSplit(r)
    ensures Split(r).Ok? && r.maxDeferred > 0 ==>
              Split(r).value.1.Some? && SoundlySplit(r, Split(r).value.0, Split(r).value.1.value)
  {
    if r.maxDeferred > 0 {
      Deferral.SelectIsSound(r.numExperts, r.topk, r.ids, r.w, r.chosen, r.topk - r.maxDeferred);
    }
  }

  function Flag(h: Host, layer: int): bool {
    layer in h.pendingDeferred && h.pendingDeferred[layer]
  }

  /** The submission as it goes on the stream. */
  function Resolve(h: Host, r: Request): Result<Pipeline.Call, Failure>
    requires WellFormed(r)
  {
    match GetBuffer(h, |r.x|).1
    case None => Err(NotABuffer)
    case Some(buf) =>
      match Split(r)
      case Err(e) => Err(e)
      case Ok(split) => Ok(Pipeline.Call(r.layer, buf, r.x, r.w, split.0, split.1, Flag(h, r.layer - 1)))
  }

  /** The class-level state a submission leaves; one that raises has still been through `get_buffer`. */
  function AfterSubmit(h: Host, r: Request): Host
    requires WellFormed(r)
  {
    var h' := GetBuffer(h, |r.x|).0;
    match Resolve(h, r)
    case Err(_) => h'
    case Ok(call) => h'.(pendingDeferred := h'.pendingDeferred[r.layer := call.def.Some?])
  }

  /** What every submission puts on the stream first. */
  lemma {:induction false} FirstOps(c: Pipeline.Call, at: Pipeline.Place)
    requires at == Pipeline.Slot(c)
    ensures Pipeline.Ops(c, 0, 4)
            == [Pipeline.CopyInput(at, c.x), Pipeline.CopyWeights(at, c.w), Pipeline.CopyImm(at, c.imm)]
               + [Pipeline.Launch(Pipeline.Task(c.layer, at, false, at, c.incremental))]
  {
    assert Pipeline.Ops(c, 2, 4) == [Pipeline.CopyImm(at, c.imm), Pipeline.Launch(Pipeline.ImmTask(c))];
  }

  /** What a submission that defers goes on to put there. */
  lemma {:induction false} DeferredOps(c: Pipeline.Call, at: Pipeline.Place, next: Pipeline.Place)
    requires at == Pipeline.Slot(c) && next == Pipeline.NextSlot(c) && c.def.Some?
    ensures Pipeline.Ops(c, 0, 6) == Pipeline.Ops(c, 0, 4) + [Pipeline.CopyDef(at, c.def.value)]
                                     + [Pipeline.Launch(Pipeline.Task(c.layer, at, true, next, false))]
  {
    Pipeline.OpsJoin(c, 0, 4, 6);
    assert Pipeline.Ops(c, 4, 6) == [Pipeline.CopyDef(at, c.def.value), Pipeline.Launch(Pipeline.DefTask(c))];
  }

  /** Whether or not a submission raises it leaves a valid cache; if it does not, asking again for its batch size
      gives the same buffers, and the flag of its layer says whether it deferred. */
  lemma {:induction false} SubmitRemembers(h: Host, r: Request)
    requires CacheInv(h) && WellFormed(r)
    ensures CacheInv(AfterSubmit(h, r))
    ensures Resolve(h, r).Ok? ==>
              var (h', c) := (AfterSubmit(h, r), Resolve(h, r).value);
              && c.layer == r.layer && Flag(h', r.layer) == c.def.Some?
              && GetBuffer(h', |r.x|) == (h', Some(c.buf))
  {
    GetBufferIsStable(h, |r.x|);
    var cached := GetBuffer(h, |r.x|).0;
    if Resolve(h, r).Ok? { SameCache(cached, AfterSubmit(h, r), |r.x|); }
  }

  /** The flags have no part in `get_buffer`. */
  lemma {:induction false} SameCache(h: Host, h': Host, batch: nat)
    requires h' == h.(pendingDeferred := h'.pendingDeferred)
    ensures CacheInv(h) ==> CacheInv(h')
    ensures GetBuffer(h', batch).0 == GetBuffer(h, batch).0.(pendingDeferred := h'.pendingDeferred)
    ensures GetBuffer(h', batch).1 == GetBuffer(h, batch).1
  {
  }

  /** The Python objects: class-level state, and the stream their calls fill. */
  class Experts {
    var captureBs: set<nat>
    var captured: map<nat, nat>
    var tempBs: nat
    var temp: Option<nat>
    var made: nat
    var pendingDeferred: map<int, bool>
    var stream: seq<Pipeline.Op>

    function View(): Host
      reads this
    {
      Host(captureBs, captured, tempBs, temp, made, pendingDeferred)
    }

    constructor (captureBs: set<nat>)
      ensures View() == InitHost(captureBs) && CacheInv(View()) && stream == []
    {
      this.captureBs, captured, tempBs, temp, made := captureBs, map[], 0, None, 0;
      pendingDeferred, stream := map[], [];
    }

    /** `__init__` of a wrapper: its layer starts with nothing deferred, and what other layers have deferred and
        which buffers are cached is left alone. */
    method AddLayer(layer: nat)
      modifies this`pendingDeferred
      ensures !Flag(View(), layer) && layer in pendingDeferred
      ensures forall l :: l != layer ==> Flag(View(), l) == Flag(old(View()), l)
      ensures CacheInv(View()) <==> CacheInv(old(View()))
      ensures forall batch :: GetBuffer(View(), batch).1 == GetBuffer(old(View()), batch).1
    {
      pendingDeferred := pendingDeferred[layer := false];
    }

    method CachedBuffer(batch: nat) returns (buf: Option<nat>)
      modifies this`captured, this`tempBs, this`temp, this`made
      ensures (View(), buf) == GetBuffer(old(View()), batch)
    {
      if batch in captured {
        return Some(captured[batch]);
      }
      if batch == tempBs {
        return temp;
      }
      var cur := made;
      made := made + 1;
      if batch in captureBs {
        captured := captured[batch := cur];
      }
      tempBs := batch;
      temp := Some(cur);
      return temp;
    }

    method SubmitForward(r: Request) returns (result: Result<Pipeline.Call, Failure>)
      requires WellFormed(r)
      modifies this
      ensures result == Resolve(old(View()), r) && View() == AfterSubmit(old(View()), r)
      ensures stream == old(stream) + if result.Ok? then Pipeline.SubmitOps(result.value) else []
    {
      var buf := CachedBuffer(|r.x|);
      if buf.None? {
        return Err(NotABuffer);
      }
      var split := Split(r);
      if split.Err? {
        return Err(split.error);
      }
      var incremental := Flag(View(), r.layer - 1);
      var call := Pipeline.Call(r.layer, buf.value, r.x, r.w, split.value.0, split.value.1, incremental);
      PutOnStream(call);
      return Ok(call);
    }

    /** The rest of `submit_forward`, with the slots picked by the parity of the layer. */
    method PutOnStream(c: Pipeline.Call)
      modifies this`stream, this`pendingDeferred
      ensures stream == old(stream) + Pipeline.SubmitOps(c)
      ensures pendingDeferred == old(pendingDeferred)[c.layer := c.def.Some?]
    {
      var at := Pipeline.Place(c.buf, c.layer % 2);
      var next := Pipeline.Place(c.buf, (c.layer % 2 + 1) % 2);
      stream := stream + [Pipeline.CopyInput(at, c.x), Pipeline.CopyWeights(at, c.w), Pipeline.CopyImm(at, c.imm)];
      stream := stream + [Pipeline.Launch(Pipeline.Task(c.layer, at, false, at, c.incremental))];
      pendingDeferred := pendingDeferred[c.layer := false];
      assert stream == old(stream) + Pipeline.Ops(c, 0, 4) by { FirstOps(c, at); }
      if c.def.Some? {
        stream := stream + [Pipeline.CopyDef(at, c.def.value)];
        stream := stream + [Pipeline.Launch(Pipeline.Task(c.layer, at, true, next, false))];
        pendingDeferred := pendingDeferred[c.layer := true];
        assert stream == old(stream) + Pipeline.Ops(c, 0, 6) by { DeferredOps(c, at, next); }
      }
    }

    /** Ok carries the slot whose copy the caller gets. */
    method SyncForward(layer: nat, batch: nat) returns (result: Result<Pipeline.Place, Failure>)
      modifies this
      ensures var (h', buf) := GetBuffer(old(View()), batch);
              && View() == h'
              && (buf.None? ==> result == Err(NotABuffer) && stream == old(stream))
              && (buf.Some? ==>
                    && result == Ok(Pipeline.Place(buf.value, layer % 2))
                    && stream == old(stream) + [Pipeline.Wait(if Flag(old(View()), layer) then 1 else 0),
                                                Pipeline.CopyOut(result.value)])
    {
      var buf := CachedBuffer(batch);
      if buf.None? {
        return Err(NotABuffer);
      }
      var at := Pipeline.Place(buf.value, layer % 2);
      stream := stream + [Pipeline.Wait(if Flag(View(), layer) then 1 else 0)];
      stream := stream + [Pipeline.CopyOut(at)];
      return Ok(at);
    }

    /** `forward`: submit, then sync.  What it puts on the stream is one call of the pipeline's program. */
    method Forward(r: Request) returns (result: Result<Pipeline.Call, Failure>)
      requires WellFormed(r) && CacheInv(View())
      modifies this
      ensures CacheInv(View()) && View() == AfterSubmit(old(View()), r)
      ensures result == Resolve(old(View()), r)
      ensures stream == old(stream) + if result.Ok? then Pipeline.CallOps(result.value) else []
    {
      SubmitRemembers(View(), r);
      result := SubmitForward(r);
      if result.Ok? {
        ghost var call := result.value;
        var out := SyncForward(r.layer, |r.x|);
        Pipeline.SubmitThenSync(call);
        assert stream == old(stream) + (Pipeline.SubmitOps(call) + Pipeline.SyncOps(call));
      }
    }
  }

  // ---- whole passes ---------------------------------------------------------------------------

  /** A list of forwards, one after the other; it stops at the first that raises. */
  function RunHost(h: Host, reqs: seq<Request>): Result<(Host, seq<Pipeline.Call>), Failure>
    requires forall i :: 0 <= i < |reqs| ==> WellFormed(reqs[i])
    decreases |reqs|
  {
    if reqs == [] then Ok((h, []))
    else
      var n := |reqs| - 1;
      match RunHost(h, reqs[..n])
      case Err(e) => Err(e)
      case Ok((h', calls)) =>
        match Resolve(h', reqs[n])
        case Err(e) => Err(e)
        case Ok(call) => Ok((AfterSubmit(h', reqs[n]), calls + [call]))
  }

  /** A list of forwards gets through exactly when every id names an expert where experts are split, and the
      buffer cache is not asked for an empty batch as the very first thing. */
  lemma {:induction false} RunHostExactlyWhen(h: Host, reqs: seq<Request>)
    requires CacheInv(h) && forall i :: 0 <= i < |reqs| ==> WellFormed(reqs[i])
    ensures RunHost(h, reqs).Ok? <==> AllSplit(reqs) && (h.temp.None? && reqs != [] ==> reqs[0].x != [])
    ensures RunHost(h, reqs).Ok? ==> CacheInv(RunHost(h, reqs).value.0)
    ensures RunHost(h, reqs).Ok? ==> RunHost(h, reqs).value.0.temp.None? == (h.temp.None? && reqs == [])
    decreases |reqs|
  {
    if reqs != [] {
      var n := |reqs| - 1;
      var front, r := reqs[..n], reqs[n];
      RunHostExactlyWhen(h, front);
      AllSplitLast(reqs);
      if RunHost(h, front).Ok? {
        SubmitExactlyWhen(RunHost(h, front).value.0, r);
        if n > 0 { assert front[0] == reqs[0]; }
      }
    }
  }

  predicate AllSplit(reqs: seq<Request>) {
    forall i :: 0 <= i < |reqs| ==> CanSplit(reqs[i])
  }

  lemma {:induction false} AllSplitLast(reqs: seq<Request>)
    requires reqs != []
    ensures AllSplit(reqs) <==> AllSplit(reqs[..|reqs| - 1]) && CanSplit(reqs[|reqs| - 1])
  {
    assert forall i :: 0 <= i < |reqs| - 1 ==> reqs[i] == reqs[..|reqs| - 1][i];
  }

  /** One forward gets through exactly when its ids can be split and there is a buffer set to be had. */
  lemma {:induction false} SubmitExactlyWhen(h: Host, r: Request)
    requires CacheInv(h) && WellFormed(r)
    ensures Resolve(h, r).Ok? <==> CanSplit(r) && (h.temp.None? ==> r.x != [])
    ensures CacheInv(AfterSubmit(h, r)) && (Resolve(h, r).Ok? ==> AfterSubmit(h, r).temp.Some?)
  {
    SplitExactlyWhen(r);
    GetBufferIsStable(h, |r.x|);
  }

  /** Passes over consecutive layers from `first` on, each with one batch size throughout and a last layer
      that defers nothing.  (The very last pass may still be under way, or end by deferring.) */
  ghost predicate Passes(reqs: seq<Request>, first: nat) {
    && (forall i :: 0 <= i < |reqs| ==> WellFormed(reqs[i]) && first <= reqs[i].layer)
    && (reqs != [] ==> reqs[0].layer == first)
    && (forall i :: 0 < i < |reqs| ==> NextInPass(reqs[i - 1], reqs[i]) || StartsPass(reqs[i - 1], reqs[i], first))
  }

  predicate NextInPass(r: Request, s: Request) {
    s.layer == r.layer + 1 && |s.x| == |r.x|
  }

  predicate StartsPass(r: Request, s: Request, first: nat) {
    s.layer == first && r.maxDeferred <= 0
  }

  /** How a call relates to the request it came from. */
  ghost predicate Matches(c: Pipeline.Call, r: Request) {
    && WellFormed(r) && c.layer == r.layer && c.x == r.x && c.w == r.w
    && (c.def.Some? <==> r.maxDeferred > 0)
    && (c.def.None? ==> c.imm == r.ids)
    && (c.def.Some? ==> SoundlySplit(r, c.imm, c.def.value))
  }

  lemma {:induction false} ResolveMatches(h: Host, r: Request)
    requires WellFormed(r) && Resolve(h, r).Ok?
    ensures Matches(Resolve(h, r).value, r)
  {
    SplitExactlyWhen(r);
  }

  /** What the class-level state says after a call that came from request r. */
  ghost predicate HostInv(h: Host, first: nat, calls: seq<Pipeline.Call>, reqs: seq<Request>) {
    && CacheInv(h) && !Flag(h, first - 1) && |calls| == |reqs|
    && (calls != [] ==>
          var c, r := calls[|calls| - 1], reqs[|reqs| - 1];
          && Flag(h, r.layer) == c.def.Some?
          && GetBuffer(h, |r.x|) == (h, Some(c.buf)))
  }

  /** Passes produce programs that satisfy the hypotheses of the pipeline, whatever the cache held before. */
  lemma {:induction false} PassesAreChained(h: Host, reqs: seq<Request>, first: nat)
    requires CacheInv(h) && !Flag(h, first - 1) && Passes(reqs, first) && RunHost(h, reqs).Ok?
    ensures var (h', calls) := RunHost(h, reqs).value;
            && HostInv(h', first, calls, reqs) && Pipeline.Chained(calls)
            && forall i :: 0 <= i < |reqs| ==> Matches(calls[i], reqs[i])
    decreases |reqs|
  {
    if reqs != [] {
      var n := |reqs| - 1;
      PassesFront(reqs, first);
      RunHostLast(h, reqs);
      PassesAreChained(h, reqs[..n], first);
      var (h', calls) := RunHost(h, reqs[..n]).value;
      PassStep(h', reqs, first, calls);
    }
  }

  lemma {:induction false} PassesFront(reqs: seq<Request>, first: nat)
    requires Passes(reqs, first) && reqs != []
    ensures Passes(reqs[..|reqs| - 1], first)
  {
  }

  lemma {:induction false} RunHostLast(h: Host, reqs: seq<Request>)
    requires reqs != [] && forall i :: 0 <= i < |reqs| ==> WellFormed(reqs[i])
    requires RunHost(h, reqs).Ok?
    ensures var n := |reqs| - 1;
            && RunHost(h, reqs[..n]).Ok?
            && var (h', calls) := RunHost(h, reqs[..n]).value;
            && Resolve(h', reqs[n]).Ok?
            && RunHost(h, reqs).value == (AfterSubmit(h', reqs[n]), calls + [Resolve(h', reqs[n]).value])
  {
  }

  /** One more request of the passes: the flag it reads is the one its predecessor has just written. */
  lemma {:induction false} PassStep(h: Host, reqs: seq<Request>, first: nat, calls: seq<Pipeline.Call>)
    requires reqs != [] && Passes(reqs, first)
    requires HostInv(h, first, calls, reqs[..|reqs| - 1]) && Pipeline.Chained(calls)
    requires forall i :: 0 <= i < |calls| ==> Matches(calls[i], reqs[i])
    requires Resolve(h, reqs[|reqs| - 1]).Ok?
    ensures var n := |reqs| - 1;
            var c := Resolve(h, reqs[n]).value;
            && HostInv(AfterSubmit(h, reqs[n]), first, calls + [c], reqs) && Pipeline.Chained(calls + [c])
            && Matches(c, reqs[n])
  {
    var n := |reqs| - 1;
    var r := reqs[n];
    var c := Resolve(h, r).value;
    ResolveMatches(h, r);
    SubmitKeeps(h, r, first);
    if n > 0 {
      LinksToPrevious(h, calls[n - 1], reqs[n - 1], r, first);
    }
    ChainedAppend(calls, c);
  }

  lemma {:induction false} SubmitKeeps(h: Host, r: Request, first: nat)
    requires CacheInv(h) && !Flag(h, first - 1) && WellFormed(r) && first <= r.layer && Resolve(h, r).Ok?
    ensures var (h', c) := (AfterSubmit(h, r), Resolve(h, r).value);
            && CacheInv(h') && !Flag(h', first - 1) && Flag(h', r.layer) == c.def.Some?
            && GetBuffer(h', |r.x|) == (h', Some(c.buf))
  {
    SubmitRemembers(h, r);
  }

  lemma {:induction false} LinksToPrevious(h: Host, p: Pipeline.Call, q: Request, r: Request, first: nat)
    requires Matches(p, q) && WellFormed(r) && Resolve(h, r).Ok?
    requires Flag(h, q.layer) == p.def.Some? && !Flag(h, first - 1) && GetBuffer(h, |q.x|) == (h, Some(p.buf))
    requires NextInPass(q, r) || StartsPass(q, r, first)
    ensures var c := Resolve(h, r).value;
            Pipeline.Follows(p, c) && c.incremental == p.def.Some?
  {
  }

  lemma {:induction false} ChainedAppend(calls: seq<Pipeline.Call>, c: Pipeline.Call)
    requires Pipeline.Chained(calls)
    requires calls != [] ==> Pipeline.Follows(calls[|calls| - 1], c)
    requires c.incremental == (calls != [] && calls[|calls| - 1].def.Some?)
    ensures Pipeline.Chained(calls + [c])
  {
    var all, m := calls + [c], |calls|;
    assert m > 0 <==> calls != [];
    forall i | 0 < i < |all| ensures Pipeline.Follows(all[i - 1], all[i]) { AppendAt(calls, c, i); }
    forall i | 0 <= i < |all| ensures all[i].incremental == Pipeline.DeferredBefore(all, i) { AppendAt(calls, c, i); }
  }

  lemma {:induction false} AppendAt(calls: seq<Pipeline.Call>, c: Pipeline.Call, i: nat)
    requires Pipeline.Chained(calls) && i <= |calls|
    requires |calls| > 0 ==> Pipeline.Follows(calls[|calls| - 1], c)
    requires c.incremental == (|calls| > 0 && calls[|calls| - 1].def.Some?)
    ensures var all := calls + [c];
            && all[i].incremental == Pipeline.DeferredBefore(all, i)
            && (i > 0 ==> Pipeline.Follows(all[i - 1], all[i]))
  {
    var all := calls + [c];
    if i > 0 { assert all[i - 1] == calls[i - 1]; }
    if i < |calls| {
      assert all[i] == calls[i];
      assert calls[i].incremental == Pipeline.DeferredBefore(calls, i);
      if i > 0 { assert Pipeline.Follows(calls[i - 1], calls[i]); }
    } else {
      assert all[i] == c;
    }
  }

  /** How often y is the share of a routed position of some requests: of an id in `ids` other than -1, with the
      weight and the input that go with it. */
  function TimesRouted(reqs: seq<Request>, y: Pipeline.Contribution): nat
    decreases |reqs|
  {
    if reqs == [] then 0
    else
      var m := |reqs| - 1;
      var r := reqs[m];
      TimesRouted(reqs[..m], y) + if Pipeline.IsShare(r.layer, r.ids, r.w, r.x, y) then 1 else 0
  }

  lemma {:induction false} RoutedIsRequested(calls: seq<Pipeline.Call>, reqs: seq<Request>, y: Pipeline.Contribution)
    requires |reqs| == |calls| && forall i :: 0 <= i < |reqs| ==> Matches(calls[i], reqs[i])
    ensures Pipeline.TimesAsked(calls, y) == TimesRouted(reqs, y)
    decreases |reqs|
  {
    if reqs != [] {
      var m := |reqs| - 1;
      RoutedIsRequested(calls[..m], reqs[..m], y);
      CallAsksForAll(calls[m], reqs[m], y);
    }
  }

  lemma {:induction false} CallAsksForAll(c: Pipeline.Call, r: Request, y: Pipeline.Contribution)
    requires Matches(c, r)
    ensures Pipeline.ImmediateShares(c, y) + Pipeline.DeferredShares(c, y)
            == Pipeline.Shares(r.layer, r.ids, r.w, r.x, y)
  {
    if c.def.Some? { Pipeline.SplitShares(r.layer, r.ids, c.imm, c.def.value, r.w, r.x, y); }
  }

  /** The pipeline as a whole.  Take any passes whose last layer defers nothing, any state of the cache, and
      any interleaving of the stream with the worker: there is never a race, layer by layer
      the outputs are the ones intended, and together they hold every routed expert of every token of every
      layer exactly once. */
  lemma {:induction false} PassesReturnEverything(h: Host, reqs: seq<Request>, first: nat, calls: seq<Pipeline.Call>,
                                                  run: seq<Pipeline.State>, acts: seq<Pipeline.Action>, n: nat)
    requires CacheInv(h) && !Flag(h, first - 1) && Passes(reqs, first)
    requires reqs != [] && reqs[|reqs| - 1].maxDeferred <= 0
    requires RunHost(h, reqs).Ok? && RunHost(h, reqs).value.1 == calls
    requires Pipeline.IsRun(Pipeline.Program(calls), run, acts) && n < |run|
    ensures !run[n].race
    ensures run[n].rest == [] ==>
              && |run[n].returned| == |reqs| == |calls|
              && (forall i :: 0 <= i < |reqs| ==> Matches(calls[i], reqs[i]))
              && (forall i, y :: 0 <= i < |reqs| ==>
                    (multiset(run[n].returned[i])[y]
                     == Pipeline.PutOff(calls, i, y) + Pipeline.ImmediateShares(calls[i], y)))
              && (forall y :: multiset(Sequences.Concat(run[n].returned))[y] == TimesRouted(reqs, y))
  {
    PassesAreChained(h, reqs, first);
    Pipeline.RaceFree(calls, run, acts, n);
    if run[n].rest == [] {
      Pipeline.ReturnsExpected(calls, run, acts, n);
      assert Matches(calls[|calls| - 1], reqs[|reqs| - 1]);
      Pipeline.ConservedExactlyWhen(calls, run, acts, n);
      assert Pipeline.AllReturned(calls, run[n].returned);
      forall y ensures Pipeline.TimesAsked(calls, y) == TimesRouted(reqs, y) { RoutedIsRequested(calls, reqs, y); }
    }
  }

  /** And they do get through: some interleaving returns everything, within 15 steps a layer and 11 more for each
      that defers. */
  lemma {:induction false} PassesGetThrough(h: Host, reqs: seq<Request>, first: nat, calls: seq<Pipeline.Call>)
    returns (run: seq<Pipeline.State>, acts: seq<Pipeline.Action>)
    requires CacheInv(h) && !Flag(h, first - 1) && Passes(reqs, first)
    requires reqs != [] && reqs[|reqs| - 1].maxDeferred <= 0
    requires RunHost(h, reqs).Ok? && RunHost(h, reqs).value.1 == calls
    ensures Pipeline.IsRun(Pipeline.Program(calls), run, acts) && |acts| <= PipelineRuns.Work(calls)
    ensures run[|acts|].rest == []
    ensures forall y :: multiset(Sequences.Concat(run[|acts|].returned))[y] == TimesRouted(reqs, y)
  {
    run, acts := PipelineRuns.GetsThrough(calls);
    PassesReturnEverything(h, reqs, first, calls, run, acts, |acts|);
  }
}
