/**
 The object `TP_MOE<LLAMA_MOE_TP>` (`operators/moe-tp.hpp`, `operators/llamafile/moe.hpp`): one output buffer per
 node, a forward pass that runs all nodes and merges their buffers in place, adding to the old output when the
 pass is incremental.
 */
module TensorParallelMoe {
  import opened Prelude
  import opened Sequences
  import opened Arithmetic
  import opened Vectors
  import opened TensorParallel

  datatype ForwardError = NotLoaded

  /** What a node computes for a token. */
  function NodeRow(act: real -> real, parts: seq<Mlp>, gpu: nat, ids: seq<int>, w: Vec, x: Vec, size: nat): (r: Vec)
    requires AllShaped(parts, |x|, size) && |ids| == |w|
    ensures |r| == |x| && forall c :: 0 <= c < |x| ==> r[c] == Routed(act, parts, gpu, ids, w, x, size, c)
  {
    seq(|x|, c requires 0 <= c < |x| => Routed(act, parts, gpu, ids, w, x, size, c))
  }

  predicate BatchOk(ids: seq<seq<int>>, w: seq<Vec>, input: seq<Vec>, h: nat) {
    && |ids| == |w| == |input| && Rows(input, h)
    && forall t :: 0 <= t < |ids| ==> |ids[t]| == |w[t]|
  }

  /** One node on the whole batch, token by token, overwriting its buffer; the kernel is taken at its word. */
  method RunNode(act: real -> real, parts: seq<Mlp>, gpu: nat, size: nat, h: nat, ids: seq<seq<int>>, w: seq<Vec>,
                 input: seq<Vec>, a: array<real>)
    requires AllShaped(parts, h, size) && BatchOk(ids, w, input, h) && |input| * h <= a.Length
    modifies a
    ensures forall t :: 0 <= t < |input| ==>
              RowAt(a[..], h, |input|, t) == NodeRow(act, parts, gpu, ids[t], w[t], input[t], size)
  {
    var t := 0;
    while t < |input|
      invariant 0 <= t <= |input|
      invariant forall t' :: 0 <= t' < t ==>
                  RowAt(a[..], h, |input|, t') == NodeRow(act, parts, gpu, ids[t'], w[t'], input[t'], size)
    {
      ghost var before := a[..];
      RowEnds(t, |input|, h);
      var row := NodeRow(act, parts, gpu, ids[t], w[t], input[t], size);
      Overwrite(a, t * h, row);
      RowsWritten(before, a[..], row, h, |input|, t, t * h);
      t := t + 1;
    }
  }

  /** What the nodes' buffers hold at position p. */
  ghost function Column(buffers: seq<array<real>>, p: nat): (r: Vec)
    requires forall i :: 0 <= i < |buffers| ==> p < buffers[i].Length
    reads buffers
    ensures |r| == |buffers| && forall i :: 0 <= i < |r| ==> r[i] == buffers[i][p]
  {
    seq(|buffers|, i requires 0 <= i < |buffers| && p < buffers[i].Length reads buffers => buffers[i][p])
  }

  /** The nodes' buffers added up, position by position. */
  ghost function Totals(buffers: seq<array<real>>, n: nat): (r: Vec)
    requires forall i :: 0 <= i < |buffers| ==> n <= buffers[i].Length
    reads buffers
    ensures |r| == n && forall p :: 0 <= p < n ==> r[p] == Total(Column(buffers, p))
  {
    if n == 0 then [] else Totals(buffers, n - 1) + [Total(Column(buffers, n - 1))]
  }

  /** Merge positions at .. at + h, one token's row: the old output if incremental and every other node's row are
      added into the first node's buffer, which then becomes the output. */
  method MergeToken(buffers: seq<array<real>>, output: array<real>, at: nat, h: nat, incremental: bool)
    requires |buffers| > 0 && Distinct(buffers) && output !in buffers && at + h <= output.Length
    requires forall i :: 0 <= i < |buffers| ==> at + h <= buffers[i].Length
    modifies buffers[0], output
    ensures forall p :: at <= p < at + h ==>
              output[p] == (if incremental then old(output[p]) else 0.0) + Total(old(Column(buffers, p)))
    ensures forall p :: 0 <= p < output.Length && !(at <= p < at + h) ==> output[p] == old(output[p])
    ensures forall p :: 0 <= p < buffers[0].Length && !(at <= p < at + h) ==> buffers[0][p] == old(buffers[0][p])
  {
    if incremental {
      AddInto(buffers[0], output, at, h);
      forall p | at <= p < at + h ensures Total(Column(buffers, p)) == Total(old(Column(buffers, p))) + output[p] {
        TotalBump(old(Column(buffers, p)), Column(buffers, p), output[p]);
      }
    }
    AddOthers(buffers, at, h);
    CopyRow(buffers[0], output, at, h);
  }

  lemma {:induction false} TotalNext(s: seq<real>, i: nat)
    requires i < |s|
    ensures Total(s[..i + 1]) == Total(s[..i]) + s[i]
    ensures Total(s[..0]) == 0.0
  {
    assert s[..i + 1][..i] == s[..i];
  }

  lemma {:induction false} TotalBump(a: seq<real>, b: seq<real>, d: real)
    requires |a| == |b| > 0 && b[0] == a[0] + d && forall i :: 1 <= i < |a| ==> b[i] == a[i]
    ensures Total(b) == Total(a) + d
    decreases |a|
  {
    var n := |a| - 1;
    if n == 0 {
      assert a[..n] == [] && b[..n] == [];
    } else {
      TotalBump(a[..n], b[..n], d);
    }
  }

  /** Every other node's row is added into the first node's buffer. */
  method AddOthers(buffers: seq<array<real>>, at: nat, h: nat)
    requires |buffers| > 0 && Distinct(buffers)
    requires forall i :: 0 <= i < |buffers| ==> at + h <= buffers[i].Length
    modifies buffers[0]
    ensures forall p :: at <= p < at + h ==> buffers[0][p] == Total(old(Column(buffers, p)))
    ensures forall p :: 0 <= p < buffers[0].Length && !(at <= p < at + h) ==> buffers[0][p] == old(buffers[0][p])
  {
    forall p | at <= p < at + h ensures Total(Column(buffers, p)[..1]) == buffers[0][p] {
      TotalNext(Column(buffers, p), 0);
    }
    var i := 1;
    while i < |buffers|
      invariant 1 <= i <= |buffers|
      invariant forall p :: at <= p < at + h ==> buffers[0][p] == Total(old(Column(buffers, p))[..i])
      invariant forall p :: 0 <= p < buffers[0].Length && !(at <= p < at + h) ==> buffers[0][p] == old(buffers[0][p])
    {
      forall p | at <= p < at + h
        ensures Total(old(Column(buffers, p))[..i + 1]) == Total(old(Column(buffers, p))[..i]) + buffers[i][p]
      {
        TotalNext(old(Column(buffers, p)), i);
      }
      AddInto(buffers[0], buffers[i], at, h);
      i := i + 1;
    }
    forall p | at <= p < at + h ensures old(Column(buffers, p))[..i] == old(Column(buffers, p)) { }
  }

  method CopyRow(a: array<real>, output: array<real>, at: nat, h: nat)
    requires a != output && at + h <= a.Length && at + h <= output.Length
    modifies output
    ensures forall p :: at <= p < at + h ==> output[p] == a[p]
    ensures forall p :: 0 <= p < output.Length && !(at <= p < at + h) ==> output[p] == old(output[p])
  {
    var e := 0;
    while e < h
      invariant 0 <= e <= h
      invariant forall p :: at <= p < at + e ==> output[p] == a[p]
      invariant forall p :: 0 <= p < output.Length && !(at <= p < at + e) ==> output[p] == old(output[p])
    {
      output[at + e] := a[at + e];
      e := e + 1;
    }
  }

  method AddInto(a: array<real>, b: array<real>, at: nat, h: nat)
    requires a != b && at + h <= a.Length && at + h <= b.Length
    modifies a
    ensures forall p :: at <= p < at + h ==> a[p] == old(a[p]) + b[p]
    ensures forall p :: 0 <= p < a.Length && !(at <= p < at + h) ==> a[p] == old(a[p])
  {
    var e := 0;
    while e < h
      invariant 0 <= e <= h
      invariant forall p :: at <= p < at + e ==> a[p] == old(a[p]) + b[p]
      invariant forall p :: 0 <= p < a.Length && !(at <= p < at + e) ==> a[p] == old(a[p])
    {
      a[at + e] := a[at + e] + b[at + e];
      e := e + 1;
    }
  }

  /** `merge_results`: every token's row.  The pool may take the tokens in any order; their rows are apart. */
  method MergeResults(buffers: seq<array<real>>, output: array<real>, n: nat, h: nat, incremental: bool)
    requires |buffers| > 0 && 0 <= n * h && Distinct(buffers) && output !in buffers && n * h <= output.Length
    requires forall i :: 0 <= i < |buffers| ==> n * h <= buffers[i].Length
    modifies buffers[0], output
    ensures forall p :: 0 <= p < n * h ==>
              output[p] == (if incremental then old(output[p]) else 0.0) + Total(old(Column(buffers, p)))
    ensures forall p :: n * h <= p < output.Length ==> output[p] == old(output[p])
  {
    var t := 0;
    var at := 0;
    while t < n
      invariant 0 <= t <= n && at == t * h
      invariant forall p :: 0 <= p < at <= n * h ==>
                  output[p] == (if incremental then old(output[p]) else 0.0) + Total(old(Column(buffers, p)))
      invariant forall p :: at <= p < output.Length ==> output[p] == old(output[p])
      invariant forall p :: at <= p < buffers[0].Length ==> buffers[0][p] == old(buffers[0][p])
      invariant forall i :: 1 <= i < |buffers| ==> buffers[i][..] == old(buffers[i][..])
    {
      NextRowStart(t, n, h, at);
      forall p | at <= p < at + h ensures Column(buffers, p) == old(Column(buffers, p)) {
        forall i | 0 <= i < |buffers| ensures buffers[i][p] == old(buffers[i][p]) {
          if i > 0 { assert buffers[i][..][p] == old(buffers[i][..])[p]; }
        }
      }
      MergeToken(buffers, output, at, h, incremental);
      at := at + h;
      t := t + 1;
    }
  }

  class TpMoe {
    const act: real -> real
    const gpuExperts: nat
    const hiddenSize: nat
    const maxQlen: nat
    const tpSizes: seq<nat>
    const localOutputNuma: seq<array<real>>
    var weightsLoaded: bool
    var tps: seq<seq<Mlp>>
    ghost var experts: seq<Mlp>

    ghost predicate Buffers() {
      && |localOutputNuma| == |tpSizes| > 0
      && (forall i :: 0 <= i < |localOutputNuma| ==> localOutputNuma[i].Length == maxQlen * hiddenSize)
      && Distinct(localOutputNuma)
    }

    ghost predicate Valid()
      reads this
    {
      && Buffers()
      && (weightsLoaded ==> Loaded(|tpSizes|))
    }

    /** The first n nodes hold their slices of the experts. */
    ghost predicate Loaded(n: nat)
      requires n <= |tpSizes|
      reads this
    {
      && AllShaped(experts, hiddenSize, Sum(tpSizes))
      && |tps| == n && forall i :: 0 <= i < n ==> tps[i] == NodePart(experts, hiddenSize, tpSizes, i)
    }

    constructor (act: real -> real, gpuExperts: nat, hiddenSize: nat, maxQlen: nat, tpSizes: seq<nat>)
      requires |tpSizes| > 0
      ensures Valid() && !weightsLoaded
      ensures this.act == act && this.gpuExperts == gpuExperts && this.hiddenSize == hiddenSize
      ensures this.maxQlen == maxQlen && this.tpSizes == tpSizes
      ensures forall i :: 0 <= i < |localOutputNuma| ==> fresh(localOutputNuma[i])
    {
      var buffers: seq<array<real>> := [];
      Products(maxQlen, hiddenSize);
      while |buffers| < |tpSizes|
        invariant |buffers| <= |tpSizes|
        invariant forall i :: 0 <= i < |buffers| ==> fresh(buffers[i]) && buffers[i].Length == maxQlen * hiddenSize
        invariant Distinct(buffers)
      {
        var buffer := new real[maxQlen * hiddenSize];
        buffers := buffers + [buffer];
      }
      this.act, this.gpuExperts, this.hiddenSize := act, gpuExperts, hiddenSize;
      this.maxQlen, this.tpSizes, this.localOutputNuma := maxQlen, tpSizes, buffers;
      this.weightsLoaded, this.tps, this.experts := false, [], [];
    }

    /** Offsets accumulate over the nodes; from the projections of all experts as they lie in memory, node i copies
        its slice of every expert. */
    method LoadWeights(gateProj: Vec, upProj: Vec, downProj: Vec, expertNum: nat, ghost complete: seq<Mlp>)
      requires Valid() && |complete| == expertNum && AllShaped(complete, hiddenSize, Sum(tpSizes))
      requires gateProj == Flatten(Gates(complete)) && upProj == Flatten(Ups(complete))
      requires downProj == Flatten(Downs(complete))
      modifies this
      ensures Valid() && weightsLoaded && experts == complete
      ensures |tps| == |tpSizes|
      ensures forall i :: 0 <= i < |tps| ==> tps[i] == NodePart(complete, hiddenSize, tpSizes, i)
    {
      experts, tps, weightsLoaded := complete, [], false;
      var intermediateSize := Sum(tpSizes);
      var accumulatedOffset := 0;
      while |tps| < |tpSizes|
        invariant |tps| <= |tpSizes| && accumulatedOffset == Offset(tpSizes, |tps|)
        invariant experts == complete && Buffers() && Loaded(|tps|) && !weightsLoaded
      {
        var size := tpSizes[|tps|];
        OffsetNext(tpSizes, |tps|);
        var part := LoadNode(gateProj, upProj, downProj, complete, expertNum, hiddenSize, intermediateSize,
                             accumulatedOffset, size);
        assert part == NodePart(complete, hiddenSize, tpSizes, |tps|);
        accumulatedOffset := accumulatedOffset + size;
        AddPart(part);
      }
      weightsLoaded := true;
    }

    /** The next node holds its slice. */
    method AddPart(part: seq<Mlp>)
      requires |tps| < |tpSizes| && Loaded(|tps|) && part == NodePart(experts, hiddenSize, tpSizes, |tps|)
      modifies this`tps
      ensures tps == old(tps) + [part] && Loaded(|tps|)
    {
      tps := tps + [part];
    }

    /** `forward`: all nodes on the whole batch, then the merge.  Component c of token t gets the weighted sum of
        the token's CPU experts, unsplit, on top of the old output if the pass is incremental. */
    method Forward(ids: seq<seq<int>>, w: seq<Vec>, input: seq<Vec>, output: array<real>, incremental: bool)
      returns (r: Result<(), ForwardError>)
      requires Valid() && BatchOk(ids, w, input, hiddenSize) && |input| <= maxQlen
      requires |input| * hiddenSize <= output.Length && output !in localOutputNuma
      modifies localOutputNuma, output
      ensures Valid() && (r.Ok? <==> weightsLoaded)
      ensures !weightsLoaded ==> output[..] == old(output[..])
      ensures !weightsLoaded ==> forall i :: 0 <= i < |localOutputNuma| ==>
                                   localOutputNuma[i][..] == old(localOutputNuma[i][..])
      ensures weightsLoaded ==> AllShaped(experts, hiddenSize, Sum(tpSizes))
      ensures weightsLoaded ==>
                (forall t :: 0 <= t < |input| ==>
                   IsMerged(old(output[..]), output[..], |input|, t, incremental,
                            NodeRow(act, experts, gpuExperts, ids[t], w[t], input[t], Sum(tpSizes))))
      ensures forall p :: |input| * hiddenSize <= p < output.Length ==> output[p] == old(output[p])
    {
      if !weightsLoaded {
        return Err(NotLoaded);
      }
      var n := |input|;
      BatchFits(n);
      RunNodes(ids, w, input);
      ghost var totals := Totals(localOutputNuma, n * hiddenSize);
      AllNodesAddUp(ids, w, input);
      MergeResults(localOutputNuma, output, n, hiddenSize, incremental);
      AllMerged(old(output[..]), output[..], totals, n, incremental);
      r := Ok(());
    }

    /** `do_numa_job`: every node once (see `NumaDistributor`), each on its own buffer. */
    method RunNodes(ids: seq<seq<int>>, w: seq<Vec>, input: seq<Vec>)
      requires Valid() && weightsLoaded && BatchOk(ids, w, input, hiddenSize)
      requires |input| * hiddenSize <= maxQlen * hiddenSize
      modifies localOutputNuma
      ensures forall j :: 0 <= j < |tpSizes| ==> NodeDone(j, ids, w, input)
    {
      var i := 0;
      while i < |tpSizes|
        invariant 0 <= i <= |tpSizes|
        invariant forall j :: 0 <= j < i ==> NodeDone(j, ids, w, input)
      {
        RunNode(act, tps[i], gpuExperts, tpSizes[i], hiddenSize, ids, w, input, localOutputNuma[i]);
        i := i + 1;
      }
    }

    lemma {:induction false} BatchFits(n: nat)
      requires n <= maxQlen
      ensures 0 <= n * hiddenSize <= maxQlen * hiddenSize
    {
      if n < maxQlen { StrictMultiple(n, maxQlen, hiddenSize); }
    }

    lemma {:induction false} AllNodesAddUp(ids: seq<seq<int>>, w: seq<Vec>, input: seq<Vec>)
      requires Valid() && weightsLoaded && BatchOk(ids, w, input, hiddenSize)
      requires |input| * hiddenSize <= maxQlen * hiddenSize
      requires forall j :: 0 <= j < |tpSizes| ==> NodeDone(j, ids, w, input)
      ensures forall t :: 0 <= t < |input| ==>
                RowAt(Totals(localOutputNuma, |input| * hiddenSize), hiddenSize, |input|, t)
                == NodeRow(act, experts, gpuExperts, ids[t], w[t], input[t], Sum(tpSizes))
    {
      var totals := Totals(localOutputNuma, |input| * hiddenSize);
      forall t | 0 <= t < |input|
        ensures RowAt(totals, hiddenSize, |input|, t)
                == NodeRow(act, experts, gpuExperts, ids[t], w[t], input[t], Sum(tpSizes))
      {
        RowAddsUp(ids, w, input, t, totals);
      }
    }

    lemma {:induction false} RowAddsUp(ids: seq<seq<int>>, w: seq<Vec>, input: seq<Vec>, t: nat, totals: Vec)
      requires Valid() && weightsLoaded && BatchOk(ids, w, input, hiddenSize)
      requires 0 <= |input| * hiddenSize <= maxQlen * hiddenSize && t < |input|
      requires forall j :: 0 <= j < |tpSizes| ==> NodeDone(j, ids, w, input)
      requires |totals| == |input| * hiddenSize
      requires forall p :: 0 <= p < |totals| ==> totals[p] == Total(Column(localOutputNuma, p))
      ensures RowAt(totals, hiddenSize, |input|, t)
              == NodeRow(act, experts, gpuExperts, ids[t], w[t], input[t], Sum(tpSizes))
    {
      var row, want := RowAt(totals, hiddenSize, |input|, t),
                       NodeRow(act, experts, gpuExperts, ids[t], w[t], input[t], Sum(tpSizes));
      forall c | 0 <= c < hiddenSize ensures row[c] == want[c] {
        var p := t * hiddenSize + c;
        assert 0 <= p < |totals| && row[c] == totals[p] by { RowAtIs(totals, hiddenSize, |input|, t); }
        assert totals[p] == want[c] by { NodesAddUp(ids, w, input, t, c); }
      }
    }

    lemma {:induction false} AllMerged(before: Vec, after: Vec, totals: Vec, n: nat, incremental: bool)
      requires |totals| == n * hiddenSize <= |before| == |after|
      requires forall p :: 0 <= p < n * hiddenSize ==>
                 after[p] == (if incremental then before[p] else 0.0) + totals[p]
      ensures forall t :: 0 <= t < n ==> IsMerged(before, after, n, t, incremental, RowAt(totals, hiddenSize, n, t))
    {
      forall t | 0 <= t < n ensures IsMerged(before, after, n, t, incremental, RowAt(totals, hiddenSize, n, t)) {
        RowAtIs(before, hiddenSize, n, t);
        RowAtIs(after, hiddenSize, n, t);
        RowAtIs(totals, hiddenSize, n, t);
      }
    }

    ghost predicate IsMerged(before: Vec, after: Vec, n: nat, t: nat, incremental: bool, row: Vec)
      requires t < n && n * hiddenSize <= |before| == |after| && |row| == hiddenSize
    {
      forall c :: 0 <= c < hiddenSize ==>
        RowAt(after, hiddenSize, n, t)[c]
        == (if incremental then RowAt(before, hiddenSize, n, t)[c] else 0.0) + row[c]
    }

    ghost predicate NodeDone(i: nat, ids: seq<seq<int>>, w: seq<Vec>, input: seq<Vec>)
      requires Valid() && weightsLoaded && i < |tpSizes| && BatchOk(ids, w, input, hiddenSize)
      requires |input| * hiddenSize <= maxQlen * hiddenSize
      reads this, localOutputNuma[i]
    {
      forall t :: 0 <= t < |input| ==>
        RowAt(localOutputNuma[i][..], hiddenSize, |input|, t)
        == NodeRow(act, tps[i], gpuExperts, ids[t], w[t], input[t], tpSizes[i])
    }

    lemma {:induction false} NodesAddUp(ids: seq<seq<int>>, w: seq<Vec>, input: seq<Vec>, t: nat, c: nat)
      requires Valid() && weightsLoaded && BatchOk(ids, w, input, hiddenSize)
      requires |input| * hiddenSize <= maxQlen * hiddenSize && t < |input| && c < hiddenSize
      requires forall j :: 0 <= j < |tpSizes| ==> NodeDone(j, ids, w, input)
      ensures 0 <= t * hiddenSize + c < |input| * hiddenSize
      ensures Total(Column(localOutputNuma, t * hiddenSize + c))
              == Routed(act, experts, gpuExperts, ids[t], w[t], input[t], Sum(tpSizes), c)
    {
      RowEnds(t, |input|, hiddenSize);
      var column := Column(localOutputNuma, t * hiddenSize + c);
      forall j | 0 <= j < |tpSizes|
        ensures column[j] == Routed(act, NodePart(experts, hiddenSize, tpSizes, j), gpuExperts, ids[t], w[t], input[t],
                                    tpSizes[j], c)
      {
        assert NodeDone(j, ids, w, input);
        RowAtIs(localOutputNuma[j][..], hiddenSize, |input|, t);
      }
      TotalIsNodes(act, experts, tpSizes, gpuExperts, ids[t], w[t], input[t], c, column, |column|);
      assert column[..|column|] == column;
      SplitKeepsOutput(act, experts, tpSizes, gpuExperts, ids[t], w[t], input[t], c);
    }
  }

  lemma {:induction false} TotalIsNodes(act: real -> real, experts: seq<Mlp>, sizes: seq<nat>, gpu: nat, ids: seq<int>,
                                        w: Vec, x: Vec, c: nat, column: Vec, n: nat)
    requires AllShaped(experts, |x|, Sum(sizes)) && |ids| == |w| && c < |x| && n <= |column| == |sizes|
    requires forall j :: 0 <= j < |sizes| ==>
               column[j] == Routed(act, NodePart(experts, |x|, sizes, j), gpu, ids, w, x, sizes[j], c)
    ensures Total(column[..n]) == NodesTotal(act, experts, sizes, n, gpu, ids, w, x, c)
    decreases n
  {
    if n > 0 {
      TotalIsNodes(act, experts, sizes, gpu, ids, w, x, c, column, n - 1);
      assert column[..n][..n - 1] == column[..n - 1];
    }
  }
}
