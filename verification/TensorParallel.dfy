/**
 Splitting the experts of an MoE layer over NUMA nodes (`operators/moe-tp.hpp`, with the Llamafile weight loader
 and merge of `operators/llamafile/moe.hpp`): node i holds a slice of every expert's intermediate dimension, all
 nodes run on the same input, and their outputs are added up.  Arithmetic is over the reals.
 */
module TensorParallel {
  import opened Prelude
  import opened Sequences
  import opened Vectors

  // ---- the split ------------------------------------------------------------------------------

  const QK_K: nat := 256

  datatype SetupError = NoWorkerPool | DivisionByZero | NotMultipleOfNodes | NotMultipleOfBlocks | TooFewBlocks

  /** The slice sizes computed by the constructor of `TP_MOE_Common`; `pool` is the pool's node count. */
  method SplitSizes(pool: Option<nat>, intermediateSize: nat, isLlamafile: bool)
    returns (r: Result<seq<nat>, SetupError>)
    ensures r == Err(NoWorkerPool) <==> pool.None?
    ensures r == Err(DivisionByZero) <==> pool == Some(0)
    ensures pool.Some? && pool.value > 0 ==>
              && (r == Err(NotMultipleOfNodes) <==> intermediateSize % pool.value != 0)
              && (r == Err(NotMultipleOfBlocks) <==>
                    intermediateSize % pool.value == 0 && isLlamafile && intermediateSize % QK_K != 0)
              && (r == Err(TooFewBlocks) <==>
                    intermediateSize % pool.value == 0 && isLlamafile && intermediateSize % QK_K == 0
                    && intermediateSize < pool.value * QK_K)
    ensures r.Ok? ==> pool.Some? && |r.value| == pool.value > 0 && Sum(r.value) == intermediateSize
    ensures r.Ok? && isLlamafile ==> EvenBlocks(r.value)
    ensures r.Ok? && !isLlamafile ==> forall i, j :: 0 <= i < j < |r.value| ==> r.value[i] == r.value[j]
  {
    if pool.None? {
      return Err(NoWorkerPool);
    }
    var tpCount := pool.value;
    if tpCount == 0 {
      return Err(DivisionByZero);
    }
    if intermediateSize % tpCount != 0 {
      return Err(NotMultipleOfNodes);
    }
    if isLlamafile {
      if intermediateSize % QK_K != 0 {
        return Err(NotMultipleOfBlocks);
      }
      var numBlocks := intermediateSize / QK_K;
      var baseBlocks := numBlocks / tpCount;
      var extraBlocks := numBlocks % tpCount;
      EnoughBlocks(numBlocks, tpCount);
      if baseBlocks == 0 {
        return Err(TooFewBlocks);
      }
      var sizes := BlockSizes(baseBlocks, extraBlocks, tpCount);
      r := Ok(sizes);
    } else {
      var sizes := EqualSizes(intermediateSize, tpCount);
      r := Ok(sizes);
    }
  }

  /** The Llamafile branch: the first `extraBlocks` nodes get one block more. */
  method BlockSizes(baseBlocks: nat, extraBlocks: nat, tpCount: nat) returns (sizes: seq<nat>)
    requires baseBlocks > 0 && extraBlocks < tpCount
    ensures |sizes| == tpCount && Sum(sizes) == (tpCount * baseBlocks + extraBlocks) * QK_K && EvenBlocks(sizes)
  {
    var currentOffset := 0;
    sizes := [];
    ghost var baseSum := 0;
    while |sizes| < tpCount
      invariant |sizes| <= tpCount
      invariant forall i :: 0 <= i < |sizes| ==> sizes[i] == BlocksOf(baseBlocks, extraBlocks, i) * QK_K
      invariant baseSum == |sizes| * baseBlocks
      invariant currentOffset == Sum(sizes) == (baseSum + if |sizes| < extraBlocks then |sizes| else extraBlocks) * QK_K
    {
      var numBlocksForThisTp := BlocksOf(baseBlocks, extraBlocks, |sizes|);
      baseSum := OneMore(|sizes|, baseBlocks);
      currentOffset := currentOffset + numBlocksForThisTp * QK_K;
      SumPush(sizes, numBlocksForThisTp * QK_K);
      sizes := sizes + [numBlocksForThisTp * QK_K];
    }
  }

  function BlocksOf(baseBlocks: nat, extraBlocks: nat, i: nat): nat {
    baseBlocks + if i < extraBlocks then 1 else 0
  }

  /** The other backends: equal shares. */
  method EqualSizes(intermediateSize: nat, tpCount: nat) returns (sizes: seq<nat>)
    requires tpCount > 0 && intermediateSize % tpCount == 0
    ensures |sizes| == tpCount && Sum(sizes) == intermediateSize
    ensures forall i, j :: 0 <= i < j < |sizes| ==> sizes[i] == sizes[j]
  {
    var each := intermediateSize / tpCount;
    ghost var total := 0;
    sizes := [];
    while |sizes| < tpCount
      invariant |sizes| <= tpCount && Sum(sizes) == total == |sizes| * each
      invariant forall i :: 0 <= i < |sizes| ==> sizes[i] == each
    {
      total := OneMore(|sizes|, each);
      SumPush(sizes, each);
      sizes := sizes + [each];
    }
  }

  lemma {:induction false} OneMore(n: nat, k: nat) returns (product: nat)
    ensures product == (n + 1) * k == n * k + k
  {
    product := n * k + k;
  }

  /** Whole, non-empty blocks, earlier nodes at most one block ahead of later ones. */
  predicate EvenBlocks(sizes: seq<nat>) {
    && (forall i :: 0 <= i < |sizes| ==> sizes[i] >= QK_K && sizes[i] % QK_K == 0)
    && (forall i, j :: 0 <= i < j < |sizes| ==> sizes[j] <= sizes[i] <= sizes[j] + QK_K)
  }

  lemma {:induction false} SumPush(s: seq<nat>, v: nat)
    ensures Sum(s + [v]) == Sum(s) + v
  {
    SumSplit(s, [v]);
    SumOfOne(v);
  }

  lemma {:induction false} EnoughBlocks(blocks: nat, nodes: nat)
    requires nodes > 0
    ensures blocks / nodes == 0 <==> blocks < nodes
  {
    var q, m := blocks / nodes, blocks % nodes;
    assert blocks == q * nodes + m;
    if q > 0 { assert q * nodes == nodes + (q - 1) * nodes && (q - 1) * nodes >= 0; }
  }

  /** Where slice i starts: `current_offset`, and `tp_offsets[i]` of the loader. */
  function Offset(sizes: seq<nat>, i: nat): (r: nat)
    requires i <= |sizes|
    ensures r <= Sum(sizes)
  {
    assert sizes == sizes[..i] + sizes[i..];
    SumSplit(sizes[..i], sizes[i..]);
    Sum(sizes[..i])
  }

  lemma {:induction false} OffsetNext(sizes: seq<nat>, i: nat)
    requires i < |sizes|
    ensures Offset(sizes, i + 1) == Offset(sizes, i) + sizes[i]
  {
    assert sizes[..i + 1][..i] == sizes[..i];
  }

  lemma {:induction false} OffsetsGrow(sizes: seq<nat>, i: nat, j: nat)
    requires i < j <= |sizes|
    ensures Offset(sizes, i) + sizes[i] <= Offset(sizes, j)
    decreases j
  {
    OffsetNext(sizes, j - 1);
    if i < j - 1 { OffsetsGrow(sizes, i, j - 1); }
  }

  predicate InSlice(sizes: seq<nat>, i: nat, row: nat)
    requires i < |sizes|
  {
    Offset(sizes, i) <= row < Offset(sizes, i) + sizes[i]
  }

  /** The slices tile the intermediate dimension: every row lies in exactly one. */
  lemma {:induction false} SlicesTile(sizes: seq<nat>, row: nat) returns (i: nat)
    requires row < Sum(sizes)
    ensures i < |sizes| && InSlice(sizes, i, row)
    ensures forall j :: 0 <= j < |sizes| && InSlice(sizes, j, row) ==> j == i
  {
    assert sizes[..|sizes|] == sizes;
    i := FindSlice(sizes, row, |sizes|);
    forall j | 0 <= j < |sizes| && InSlice(sizes, j, row) ensures j == i {
      if i < j { OffsetsGrow(sizes, i, j); }
      if j < i { OffsetsGrow(sizes, j, i); }
    }
  }

  lemma {:induction false} FindSlice(sizes: seq<nat>, row: nat, n: nat) returns (i: nat)
    requires n <= |sizes| && row < Offset(sizes, n)
    ensures i < n && InSlice(sizes, i, row)
    decreases n
  {
    i := n - 1;
    OffsetNext(sizes, i);
    if row < Offset(sizes, i) { i := FindSlice(sizes, row, i); }
  }

  // ---- one expert -----------------------------------------------------------------------------

  function DotRange(a: Vec, b: Vec, lo: nat, hi: nat): real
    requires |a| == |b| && lo <= hi <= |a|
  {
    Dot(a[lo..hi], b[lo..hi])
  }

  lemma {:induction false} DotJoin(a: Vec, b: Vec, p: nat, q: nat)
    requires |a| == |b| && p <= q <= |a|
    ensures DotRange(a, b, 0, p) + DotRange(a, b, p, q) == DotRange(a, b, 0, q)
  {
    assert a[0..q] == a[0..p] + a[p..q] && b[0..q] == b[0..p] + b[p..q];
    DotSplit(a[0..p], b[0..p], a[p..q], b[p..q]);
  }

  /** Gate and up projections by intermediate row, down projection by hidden row. */
  datatype Mlp = Mlp(gate: seq<Vec>, up: seq<Vec>, down: seq<Vec>)

  predicate Shaped(m: Mlp, h: nat, i: nat) {
    |m.gate| == |m.up| == i && Rows(m.gate, h) && Rows(m.up, h) && |m.down| == h && Rows(m.down, i)
  }

  function Hidden(act: real -> real, m: Mlp, x: Vec, i: nat): (r: Vec)
    requires Shaped(m, |x|, i)
    ensures |r| == i && forall j :: 0 <= j < i ==> r[j] == act(Dot(m.gate[j], x)) * Dot(m.up[j], x)
  {
    seq(i, j requires 0 <= j < i => act(Dot(m.gate[j], x)) * Dot(m.up[j], x))
  }

  /** `down_proj(act_fn(gate_proj(x)) * up_proj(x))`, component c. */
  function Ffn(act: real -> real, m: Mlp, x: Vec, i: nat, c: nat): real
    requires Shaped(m, |x|, i) && c < |x|
  {
    Dot(m.down[c], Hidden(act, m, x, i))
  }

  /** The slice of an expert that starts at intermediate row `off` and has n rows. */
  function Part(m: Mlp, h: nat, i: nat, off: nat, n: nat): (r: Mlp)
    requires Shaped(m, h, i) && off + n <= i
    ensures Shaped(r, h, n)
  {
    Mlp(m.gate[off..off + n], m.up[off..off + n],
        seq(h, c requires 0 <= c < h => m.down[c][off..off + n]))
  }

  lemma {:induction false} HiddenOfPart(act: real -> real, m: Mlp, x: Vec, i: nat, off: nat, n: nat)
    requires Shaped(m, |x|, i) && off + n <= i
    ensures Hidden(act, Part(m, |x|, i, off, n), x, n) == Hidden(act, m, x, i)[off..off + n]
  {
    var part := Part(m, |x|, i, off, n);
    forall j | 0 <= j < n ensures Hidden(act, part, x, n)[j] == Hidden(act, m, x, i)[off..off + n][j] {
      assert part.gate[j] == m.gate[off + j] && part.up[j] == m.up[off + j];
    }
  }

  lemma {:induction false} FfnOfPart(act: real -> real, m: Mlp, x: Vec, i: nat, off: nat, n: nat, c: nat)
    requires Shaped(m, |x|, i) && off + n <= i && c < |x|
    ensures Ffn(act, Part(m, |x|, i, off, n), x, n, c) == DotRange(m.down[c], Hidden(act, m, x, i), off, off + n)
  {
    HiddenOfPart(act, m, x, i, off, n);
  }

  // ---- all experts of a token -----------------------------------------------------------------

  predicate AllShaped(experts: seq<Mlp>, h: nat, i: nat) {
    forall e :: 0 <= e < |experts| ==> Shaped(experts[e], h, i)
  }

  /** An id the CPU backend runs: the others, -1 and the GPU's experts among them, contribute nothing. */
  predicate OnCpu(id: int, gpuExperts: nat, expertNum: nat) {
    gpuExperts <= id < expertNum
  }

  /** One expert's output for a token, component c, if the backend runs it. */
  function Out(act: real -> real, experts: seq<Mlp>, gpu: nat, id: int, x: Vec, i: nat, c: nat): real
    requires AllShaped(experts, |x|, i) && c < |x|
  {
    if OnCpu(id, gpu, |experts|) then Ffn(act, experts[id], x, i, c) else 0.0
  }

  function Outs(act: real -> real, experts: seq<Mlp>, gpu: nat, ids: seq<int>, x: Vec, i: nat, c: nat): (r: Vec)
    requires AllShaped(experts, |x|, i) && c < |x|
    ensures |r| == |ids| && forall j :: 0 <= j < |r| ==> r[j] == Out(act, experts, gpu, ids[j], x, i, c)
  {
    seq(|ids|, j requires 0 <= j < |ids| => Out(act, experts, gpu, ids[j], x, i, c))
  }

  /** Component c of what a backend computes for one token: its CPU experts, weighted and summed. */
  function Routed(act: real -> real, experts: seq<Mlp>, gpu: nat, ids: seq<int>, w: Vec, x: Vec, i: nat, c: nat): real
    requires AllShaped(experts, |x|, i) && |ids| == |w| && c < |x|
  {
    Dot(w, Outs(act, experts, gpu, ids, x, i, c))
  }

  /** Spelled out: a CPU expert's output is its down projection of `act(gate x) * up x`; the others add nothing. */
  lemma {:induction false} OutsAre(act: real -> real, experts: seq<Mlp>, gpu: nat, ids: seq<int>, x: Vec, i: nat,
                                   c: nat, j: nat, hidden: Vec)
    requires AllShaped(experts, |x|, i) && c < |x| && j < |ids| && |hidden| == i
    requires gpu <= ids[j] < |experts| ==>
               forall k :: 0 <= k < i ==>
                 hidden[k] == act(Dot(experts[ids[j]].gate[k], x)) * Dot(experts[ids[j]].up[k], x)
    ensures Outs(act, experts, gpu, ids, x, i, c)[j]
            == if gpu <= ids[j] < |experts| then Dot(experts[ids[j]].down[c], hidden) else 0.0
  {
    if gpu <= ids[j] < |experts| { assert hidden == Hidden(act, experts[ids[j]], x, i); }
  }

  function Parts(experts: seq<Mlp>, h: nat, i: nat, off: nat, n: nat): (r: seq<Mlp>)
    requires AllShaped(experts, h, i) && off + n <= i
    ensures |r| == |experts| && AllShaped(r, h, n)
    ensures forall e :: 0 <= e < |r| ==> r[e] == Part(experts[e], h, i, off, n)
  {
    seq(|experts|, e requires 0 <= e < |experts| => Part(experts[e], h, i, off, n))
  }

  /** The experts' outputs restricted to their intermediate rows from lo to hi. */
  ghost function OutsRange(act: real -> real, experts: seq<Mlp>, gpu: nat, ids: seq<int>, x: Vec, i: nat,
                           lo: nat, hi: nat, c: nat): (r: Vec)
    requires AllShaped(experts, |x|, i) && c < |x| && lo <= hi <= i
    ensures |r| == |ids|
    ensures forall j :: 0 <= j < |r| ==> r[j] == OutRange(act, experts, gpu, ids[j], x, i, lo, hi, c)
  {
    seq(|ids|, j requires 0 <= j < |ids| => OutRange(act, experts, gpu, ids[j], x, i, lo, hi, c))
  }

  ghost function OutRange(act: real -> real, experts: seq<Mlp>, gpu: nat, id: int, x: Vec, i: nat,
                          lo: nat, hi: nat, c: nat): real
    requires AllShaped(experts, |x|, i) && c < |x| && lo <= hi <= i
  {
    if OnCpu(id, gpu, |experts|) then DotRange(experts[id].down[c], Hidden(act, experts[id], x, i), lo, hi) else 0.0
  }

  ghost function RoutedRange(act: real -> real, experts: seq<Mlp>, gpu: nat, ids: seq<int>, w: Vec, x: Vec, i: nat,
                             lo: nat, hi: nat, c: nat): real
    requires AllShaped(experts, |x|, i) && |ids| == |w| && c < |x| && lo <= hi <= i
  {
    Dot(w, OutsRange(act, experts, gpu, ids, x, i, lo, hi, c))
  }

  lemma {:induction false} RoutedOfParts(act: real -> real, experts: seq<Mlp>, gpu: nat, ids: seq<int>, w: Vec, x: Vec,
                                         i: nat, off: nat, n: nat, c: nat)
    requires AllShaped(experts, |x|, i) && |ids| == |w| && c < |x| && off + n <= i
    ensures Routed(act, Parts(experts, |x|, i, off, n), gpu, ids, w, x, n, c)
            == RoutedRange(act, experts, gpu, ids, w, x, i, off, off + n, c)
  {
    var outs := Outs(act, Parts(experts, |x|, i, off, n), gpu, ids, x, n, c);
    forall j | 0 <= j < |ids| ensures outs[j] == OutRange(act, experts, gpu, ids[j], x, i, off, off + n, c) {
      if OnCpu(ids[j], gpu, |experts|) { FfnOfPart(act, experts[ids[j]], x, i, off, n, c); }
    }
    assert outs == OutsRange(act, experts, gpu, ids, x, i, off, off + n, c);
  }

  lemma {:induction false} RoutedWhole(act: real -> real, experts: seq<Mlp>, gpu: nat, ids: seq<int>, w: Vec, x: Vec,
                                       i: nat, c: nat)
    requires AllShaped(experts, |x|, i) && |ids| == |w| && c < |x|
    ensures Routed(act, experts, gpu, ids, w, x, i, c) == RoutedRange(act, experts, gpu, ids, w, x, i, 0, i, c)
  {
    var outs := Outs(act, experts, gpu, ids, x, i, c);
    forall j | 0 <= j < |ids| ensures outs[j] == OutRange(act, experts, gpu, ids[j], x, i, 0, i, c) {
      if OnCpu(ids[j], gpu, |experts|) {
        var row, hidden := experts[ids[j]].down[c], Hidden(act, experts[ids[j]], x, i);
        assert row[0..i] == row && hidden[0..i] == hidden;
      }
    }
    assert outs == OutsRange(act, experts, gpu, ids, x, i, 0, i, c);
  }

  lemma {:induction false} DotAdds(w: Vec, a: Vec, b: Vec, s: Vec)
    requires |w| == |a| == |b| == |s| && forall j :: 0 <= j < |s| ==> s[j] == a[j] + b[j]
    ensures Dot(w, s) == Dot(w, a) + Dot(w, b)
    decreases |w|
  {
    if w != [] {
      var m := |w| - 1;
      DotAdds(w[..m], a[..m], b[..m], s[..m]);
      assert w[m] * s[m] == w[m] * a[m] + w[m] * b[m];
    }
  }

  /** Neighbouring ranges: their contributions add up to the joint range's. */
  lemma {:induction false} RoutedJoin(act: real -> real, experts: seq<Mlp>, gpu: nat, ids: seq<int>, w: Vec, x: Vec,
                                      i: nat, p: nat, q: nat, c: nat)
    requires AllShaped(experts, |x|, i) && |ids| == |w| && c < |x| && p <= q <= i
    ensures RoutedRange(act, experts, gpu, ids, w, x, i, 0, p, c)
            + RoutedRange(act, experts, gpu, ids, w, x, i, p, q, c)
            == RoutedRange(act, experts, gpu, ids, w, x, i, 0, q, c)
  {
    var left := OutsRange(act, experts, gpu, ids, x, i, 0, p, c);
    var right := OutsRange(act, experts, gpu, ids, x, i, p, q, c);
    var joint := OutsRange(act, experts, gpu, ids, x, i, 0, q, c);
    forall j | 0 <= j < |ids| ensures joint[j] == left[j] + right[j] {
      if OnCpu(ids[j], gpu, |experts|) {
        DotJoin(experts[ids[j]].down[c], Hidden(act, experts[ids[j]], x, i), p, q);
      }
    }
    DotAdds(w, left, right, joint);
  }

  lemma {:induction false} RoutedNothing(act: real -> real, experts: seq<Mlp>, gpu: nat, ids: seq<int>, w: Vec, x: Vec,
                                         i: nat, c: nat)
    requires AllShaped(experts, |x|, i) && |ids| == |w| && c < |x|
    ensures RoutedRange(act, experts, gpu, ids, w, x, i, 0, 0, c) == 0.0
  {
    var none := OutsRange(act, experts, gpu, ids, x, i, 0, 0, c);
    forall j | 0 <= j < |ids| ensures none[j] == 0.0 { }
    DotZeros(w, none);
  }

  lemma {:induction false} DotZeros(w: Vec, zeros: Vec)
    requires |w| == |zeros| && forall j :: 0 <= j < |zeros| ==> zeros[j] == 0.0
    ensures Dot(w, zeros) == 0.0
    decreases |w|
  {
    if w != [] { DotZeros(w[..|w| - 1], zeros[..|w| - 1]); }
  }

  /** Node i's slice of every expert. */
  function NodePart(experts: seq<Mlp>, h: nat, sizes: seq<nat>, i: nat): (r: seq<Mlp>)
    requires i < |sizes| && AllShaped(experts, h, Sum(sizes))
    ensures |r| == |experts| && AllShaped(r, h, sizes[i])
  {
    OffsetNext(sizes, i);
    Parts(experts, h, Sum(sizes), Offset(sizes, i), sizes[i])
  }

  /** What the first n nodes compute for a token, added up. */
  ghost function NodesTotal(act: real -> real, experts: seq<Mlp>, sizes: seq<nat>, n: nat, gpu: nat, ids: seq<int>,
                      w: Vec, x: Vec, c: nat): real
    requires n <= |sizes| && AllShaped(experts, |x|, Sum(sizes)) && |ids| == |w| && c < |x|
  {
    if n == 0 then 0.0
    else
      NodesTotal(act, experts, sizes, n - 1, gpu, ids, w, x, c)
      + Routed(act, NodePart(experts, |x|, sizes, n - 1), gpu, ids, w, x, sizes[n - 1], c)
  }

  lemma {:induction false} NodesJoin(act: real -> real, experts: seq<Mlp>, sizes: seq<nat>, n: nat, gpu: nat,
                                     ids: seq<int>, w: Vec, x: Vec, c: nat)
    requires n <= |sizes| && AllShaped(experts, |x|, Sum(sizes)) && |ids| == |w| && c < |x|
    ensures NodesTotal(act, experts, sizes, n, gpu, ids, w, x, c)
            == RoutedRange(act, experts, gpu, ids, w, x, Sum(sizes), 0, Offset(sizes, n), c)
    decreases n
  {
    if n == 0 {
      RoutedNothing(act, experts, gpu, ids, w, x, Sum(sizes), c);
    } else {
      OffsetNext(sizes, n - 1);
      NodesJoin(act, experts, sizes, n - 1, gpu, ids, w, x, c);
      RoutedOfParts(act, experts, gpu, ids, w, x, Sum(sizes), Offset(sizes, n - 1), sizes[n - 1], c);
      RoutedJoin(act, experts, gpu, ids, w, x, Sum(sizes), Offset(sizes, n - 1), Offset(sizes, n), c);
    }
  }

  /** Splitting changes nothing: the nodes' outputs add up to the unsplit experts', for every split that adds up. */
  lemma {:induction false} SplitKeepsOutput(act: real -> real, experts: seq<Mlp>, sizes: seq<nat>, gpu: nat,
                                            ids: seq<int>, w: Vec, x: Vec, c: nat)
    requires AllShaped(experts, |x|, Sum(sizes)) && |ids| == |w| && c < |x|
    ensures NodesTotal(act, experts, sizes, |sizes|, gpu, ids, w, x, c)
            == Routed(act, experts, gpu, ids, w, x, Sum(sizes), c)
  {
    NodesJoin(act, experts, sizes, |sizes|, gpu, ids, w, x, c);
    assert sizes[..|sizes|] == sizes;
    RoutedWhole(act, experts, gpu, ids, w, x, Sum(sizes), c);
  }

  // ---- loading --------------------------------------------------------------------------------

  /** A projection of all experts as it lies in memory, row after row and expert after expert. */
  function Flatten(g: seq<seq<Vec>>): Vec {
    Concat(Concat(g))
  }

  lemma {:induction false} SliceOfConcat<T>(parts: seq<seq<T>>, k: nat, a: nat, b: nat)
    requires Rows(parts, k) && a <= b <= |parts|
    ensures 0 <= a * k <= b * k <= |Concat(parts)| && Concat(parts)[a * k..b * k] == Concat(parts[a..b])
  {
    assert parts == parts[..a] + parts[a..b] + parts[b..];
    ConcatSplit(parts[..a] + parts[a..b], parts[b..]);
    ConcatSplit(parts[..a], parts[a..b]);
    assert parts[..a] + parts[a..b] == parts[..b];
    ConcatLength(parts[..a], k);
    ConcatLength(parts[..b], k);
  }

  lemma {:induction false} RowsOfConcat(g: seq<seq<Vec>>, k: nat)
    requires forall e :: 0 <= e < |g| ==> Rows(g[e], k)
    ensures Rows(Concat(g), k)
    decreases |g|
  {
    if g != [] { RowsOfConcat(g[..|g| - 1], k); }
  }

  /** Rows off .. off + n of expert e, found by their address. */
  lemma {:induction false} AddressOfRows(g: seq<seq<Vec>>, i: nat, h: nat, e: nat, off: nat, n: nat)
    requires Rows(g, i) && (forall e' :: 0 <= e' < |g| ==> Rows(g[e'], h)) && e < |g| && off + n <= i
    ensures var p := RowAddress(e, i, off, h);
            0 <= p <= p + n * h <= |Flatten(g)| && Flatten(g)[p..p + n * h] == Concat(g[e][off..off + n])
  {
    RowAddressIs(e, i, off, h);
    var rows := Concat(g);
    var first := e * i + off;
    RowsOfConcat(g, h);
    ExpertRows(g, i, e);
    SliceOfSlice(rows, e * i, e * i + i, off, off + n);
    SliceOfConcat(rows, h, first, first + n);
    Distribute3(first, n, h);
  }

  lemma {:induction false} ExpertRows(g: seq<seq<Vec>>, i: nat, e: nat)
    requires Rows(g, i) && e < |g|
    ensures 0 <= e * i && e * i + i <= |Concat(g)| && Concat(g)[e * i..e * i + i] == g[e]
  {
    SliceOfConcat(g, i, e, e + 1);
    assert g[e..e + 1] == [g[e]] && [g[e]][..0] == [];
    assert Concat([g[e]]) == g[e];
    assert (e + 1) * i == e * i + i;
  }

  function Gates(experts: seq<Mlp>): (r: seq<seq<Vec>>)
    ensures |r| == |experts| && forall e :: 0 <= e < |r| ==> r[e] == experts[e].gate
  {
    seq(|experts|, e requires 0 <= e < |experts| => experts[e].gate)
  }

  function Ups(experts: seq<Mlp>): (r: seq<seq<Vec>>)
    ensures |r| == |experts| && forall e :: 0 <= e < |r| ==> r[e] == experts[e].up
  {
    seq(|experts|, e requires 0 <= e < |experts| => experts[e].up)
  }

  function Downs(experts: seq<Mlp>): (r: seq<seq<Vec>>)
    ensures |r| == |experts| && forall e :: 0 <= e < |r| ==> r[e] == experts[e].down
  {
    seq(|experts|, e requires 0 <= e < |experts| => experts[e].down)
  }

  lemma {:induction false} FlattenPush(g: seq<seq<Vec>>, e: nat)
    requires e < |g|
    ensures Flatten(g[..e + 1]) == Flatten(g[..e]) + Concat(g[e])
  {
    assert g[..e + 1][..e] == g[..e];
    ConcatSplit(Concat(g[..e]), g[e]);
  }

  lemma {:induction false} Products(n: nat, h: nat)
    ensures n * h >= 0
  {
  }

  /** The address of row `row` of expert e, with `perExpert` rows each, `width` long. */
  function RowAddress(e: nat, perExpert: nat, row: nat, width: nat): (p: nat)
    decreases e
  {
    Products(row, width);
    Products(perExpert, width);
    if e == 0 then row * width else RowAddress(e - 1, perExpert, row, width) + perExpert * width
  }

  lemma {:induction false} RowAddressIs(e: nat, perExpert: nat, row: nat, width: nat)
    ensures RowAddress(e, perExpert, row, width) == (e * perExpert + row) * width
    decreases e
  {
    if e > 0 {
      RowAddressIs(e - 1, perExpert, row, width);
      assert e * perExpert + row == (e - 1) * perExpert + row + perExpert;
      Distribute3((e - 1) * perExpert + row, perExpert, width);
    }
  }

  lemma {:induction false} Distribute3(a: int, b: int, c: int)
    ensures (a + b) * c == a * c + b * c
  {
  }

  lemma {:induction false} NextRow(e: nat, perExpert: nat, row: nat, width: nat)
    ensures RowAddress(e, perExpert, row + 1, width) == RowAddress(e, perExpert, row, width) + width
    decreases e
  {
    if e > 0 { NextRow(e - 1, perExpert, row, width); } else { Distribute3(row, 1, width); }
  }

  /** Behind an expert's last row its successor begins. */
  lemma {:induction false} LastRow(e: nat, perExpert: nat, width: nat)
    ensures RowAddress(e, perExpert, perExpert, width) == RowAddress(e + 1, perExpert, 0, width)
    decreases e
  {
    if e > 0 { LastRow(e - 1, perExpert, width); }
  }

  /** Every expert's rows off .. off + n. */
  function RowParts(g: seq<seq<Vec>>, off: nat, n: nat): (r: seq<seq<Vec>>)
    requires forall e :: 0 <= e < |g| ==> off + n <= |g[e]|
    ensures |r| == |g| && forall e :: 0 <= e < |r| ==> r[e] == g[e][off..off + n]
  {
    seq(|g|, e requires 0 <= e < |g| => g[e][off..off + n])
  }

  /** The stretch off .. off + n of every row. */
  function Stretches(rows: seq<Vec>, width: nat, off: nat, n: nat): (r: seq<Vec>)
    requires Rows(rows, width) && off + n <= width
    ensures |r| == |rows| && forall j :: 0 <= j < |r| ==> r[j] == rows[j][off..off + n]
  {
    seq(|rows|, j requires 0 <= j < |rows| => rows[j][off..off + n])
  }

  function AllStretches(d: seq<seq<Vec>>, width: nat, off: nat, n: nat): (r: seq<seq<Vec>>)
    requires off + n <= width && forall e :: 0 <= e < |d| ==> Rows(d[e], width)
    ensures |r| == |d| && forall e :: 0 <= e < |r| ==> r[e] == Stretches(d[e], width, off, n)
  {
    seq(|d|, e requires 0 <= e < |d| => Stretches(d[e], width, off, n))
  }

  lemma {:induction false} RowsCopied(g: seq<seq<Vec>>, i: nat, h: nat, e: nat, off: nat, n: nat, p: nat, q: nat)
    requires Rows(g, i) && (forall e' :: 0 <= e' < |g| ==> Rows(g[e'], h)) && e < |g| && off + n <= i
    requires p == RowAddress(e, i, off, h) && q == p + n * h
    ensures p <= q <= |Flatten(g)|
    ensures Flatten(RowParts(g, off, n)[..e]) + Flatten(g)[p..q] == Flatten(RowParts(g, off, n)[..e + 1])
  {
    AddressOfRows(g, i, h, e, off, n);
    FlattenPush(RowParts(g, off, n), e);
  }

  /** The loader of one node (Llamafile), gate or up projection: a pointer walks over the complete projections of
      all experts and copies this node's rows of each. */
  method CopyRows(proj: Vec, ghost g: seq<seq<Vec>>, expertNum: nat, hiddenSize: nat, completeSize: nat, offset: nat,
                  size: nat)
    returns (localProj: Vec)
    requires Rows(g, completeSize) && forall e :: 0 <= e < |g| ==> Rows(g[e], hiddenSize)
    requires |g| == expertNum && proj == Flatten(g) && offset + size <= completeSize
    ensures localProj == Flatten(RowParts(g, offset, size))
  {
    Products(offset, hiddenSize);
    Products(size, hiddenSize);
    Products(completeSize, hiddenSize);
    var ptr: nat := offset * hiddenSize;
    var count: nat := size * hiddenSize;
    var step: nat := completeSize * hiddenSize;
    localProj := [];
    var i := 0;
    while i < expertNum
      invariant 0 <= i <= expertNum
      invariant ptr == RowAddress(i, completeSize, offset, hiddenSize)
      invariant localProj == Flatten(RowParts(g, offset, size)[..i])
    {
      RowsCopied(g, completeSize, hiddenSize, i, offset, size, ptr, ptr + count);
      localProj := localProj + proj[ptr..ptr + count];
      ptr := ptr + step;
      i := i + 1;
    }
    assert RowParts(g, offset, size)[..i] == RowParts(g, offset, size);
  }

  lemma {:induction false} StretchCopied(d: seq<seq<Vec>>, h: nat, complete: nat, e: nat, j: nat, offset: nat,
                                         size: nat, p: nat)
    requires Rows(d, h) && (forall e' :: 0 <= e' < |d| ==> Rows(d[e'], complete)) && e < |d| && j < h
    requires offset + size <= complete && p == RowAddress(e, h, j, complete) + offset
    ensures p + size <= |Flatten(d)|
    ensures Concat(Stretches(d[e], complete, offset, size)[..j]) + Flatten(d)[p..p + size]
            == Concat(Stretches(d[e], complete, offset, size)[..j + 1])
  {
    var q := RowAddress(e, h, j, complete);
    OneRow(d, h, complete, e, j);
    SliceOfSlice(Flatten(d), q, q + complete, offset, offset + size);
    assert Stretches(d[e], complete, offset, size)[..j + 1][..j] == Stretches(d[e], complete, offset, size)[..j];
  }

  lemma {:induction false} SliceOfSlice<T>(s: seq<T>, lo: nat, hi: nat, a: nat, b: nat)
    requires lo <= hi <= |s| && a <= b <= hi - lo
    ensures s[lo..hi][a..b] == s[lo + a..lo + b]
  {
    var l, r := s[lo..hi][a..b], s[lo + a..lo + b];
    assert |l| == |r|;
    forall i | 0 <= i < b - a ensures l[i] == r[i] {
      assert s[lo..hi][a + i] == s[lo + (a + i)];
    }
  }

  lemma {:induction false} OneRow(d: seq<seq<Vec>>, h: nat, complete: nat, e: nat, j: nat)
    requires Rows(d, h) && (forall e' :: 0 <= e' < |d| ==> Rows(d[e'], complete)) && e < |d| && j < h
    ensures var q := RowAddress(e, h, j, complete);
            0 <= q && q + complete <= |Flatten(d)| && Flatten(d)[q..q + complete] == d[e][j]
  {
    AddressOfRows(d, h, complete, e, j, 1);
    var row := d[e][j];
    assert d[e][j..j + 1] == [row] && [row][..0] == [];
    assert Concat([row]) == row;
  }

  /** The loader, down projection: this node's stretch of every row, row by row. */
  method CopyColumns(proj: Vec, ghost d: seq<seq<Vec>>, expertNum: nat, hiddenSize: nat, completeSize: nat, offset: nat,
                     size: nat)
    returns (localProj: Vec)
    requires Rows(d, hiddenSize) && forall e :: 0 <= e < |d| ==> Rows(d[e], completeSize)
    requires |d| == expertNum && proj == Flatten(d) && offset + size <= completeSize
    ensures localProj == Flatten(AllStretches(d, completeSize, offset, size))
  {
    var ptr := offset;
    localProj := [];
    var i := 0;
    while i < expertNum
      invariant 0 <= i <= expertNum
      invariant ptr == RowAddress(i, hiddenSize, 0, completeSize) + offset
      invariant localProj == Flatten(AllStretches(d, completeSize, offset, size)[..i])
    {
      var copied: Vec;
      copied, ptr := CopyExpertColumns(proj, d, i, hiddenSize, completeSize, offset, size, ptr);
      localProj := localProj + copied;
      FlattenPush(AllStretches(d, completeSize, offset, size), i);
      LastRow(i, hiddenSize, completeSize);
      i := i + 1;
    }
    assert AllStretches(d, completeSize, offset, size)[..i] == AllStretches(d, completeSize, offset, size);
  }

  /** The inner loop, over the rows of expert i. */
  method CopyExpertColumns(proj: Vec, ghost d: seq<seq<Vec>>, ghost i: nat, hiddenSize: nat, completeSize: nat,
                           offset: nat, size: nat, start: nat)
    returns (copied: Vec, ptr: nat)
    requires Rows(d, hiddenSize) && (forall e :: 0 <= e < |d| ==> Rows(d[e], completeSize)) && i < |d|
    requires proj == Flatten(d) && offset + size <= completeSize
    requires start == RowAddress(i, hiddenSize, 0, completeSize) + offset
    ensures ptr == RowAddress(i, hiddenSize, hiddenSize, completeSize) + offset
    ensures copied == Concat(Stretches(d[i], completeSize, offset, size))
  {
    ghost var rows := Stretches(d[i], completeSize, offset, size);
    copied, ptr := [], start;
    var j := 0;
    while j < hiddenSize
      invariant 0 <= j <= hiddenSize
      invariant ptr == RowAddress(i, hiddenSize, j, completeSize) + offset
      invariant copied == Concat(rows[..j])
    {
      StretchCopied(d, hiddenSize, completeSize, i, j, offset, size, ptr);
      copied := copied + proj[ptr..ptr + size];
      NextRow(i, hiddenSize, j, completeSize);
      ptr := ptr + completeSize;
      j := j + 1;
    }
    assert rows[..j] == rows;
  }

  /** What the loader copies are the three projections of this node's slice of every expert. */
  lemma {:induction false} CopiesAreParts(experts: seq<Mlp>, h: nat, complete: nat, offset: nat, size: nat)
    requires AllShaped(experts, h, complete) && offset + size <= complete
    ensures RowParts(Gates(experts), offset, size) == Gates(Parts(experts, h, complete, offset, size))
    ensures RowParts(Ups(experts), offset, size) == Ups(Parts(experts, h, complete, offset, size))
    ensures AllStretches(Downs(experts), complete, offset, size) == Downs(Parts(experts, h, complete, offset, size))
  {
    forall e | 0 <= e < |experts|
      ensures Stretches(experts[e].down, complete, offset, size) == Part(experts[e], h, complete, offset, size).down
    {
    }
  }

  // ---- what the kernel finds in its memory ------------------------------------------------------

  /** The rows that lie in memory for each of n experts. */
  function Unflatten(flat: Vec, n: nat, perExpert: nat, width: nat): (r: seq<seq<Vec>>)
    ensures |r| == n && forall e :: 0 <= e < n ==> r[e] == RowsIn(flat, e, perExpert, width)
  {
    seq(n, e requires 0 <= e < n => RowsIn(flat, e, perExpert, width))
  }

  function RowsIn(flat: Vec, e: nat, perExpert: nat, width: nat): (r: seq<Vec>)
    ensures |r| == perExpert
    ensures forall j :: 0 <= j < perExpert ==> r[j] == Stretch(flat, RowAddress(e, perExpert, j, width), width)
  {
    seq(perExpert, j requires 0 <= j < perExpert => Stretch(flat, RowAddress(e, perExpert, j, width), width))
  }

  /** n components from an address on; behind the end of the memory there are none. */
  function Stretch(flat: Vec, at: nat, n: nat): Vec {
    if at + n <= |flat| then flat[at..at + n] else []
  }

  lemma {:induction false} UnflattenFlatten(g: seq<seq<Vec>>, perExpert: nat, width: nat)
    requires Rows(g, perExpert) && forall e :: 0 <= e < |g| ==> Rows(g[e], width)
    ensures Unflatten(Flatten(g), |g|, perExpert, width) == g
  {
    forall e | 0 <= e < |g| ensures RowsIn(Flatten(g), e, perExpert, width) == g[e] {
      forall j | 0 <= j < perExpert ensures RowsIn(Flatten(g), e, perExpert, width)[j] == g[e][j] {
        OneRow(g, perExpert, width, e, j);
      }
    }
  }

  /** The experts whose projections lie in memory. */
  function ExpertsAt(gate: Vec, up: Vec, down: Vec, n: nat, h: nat, size: nat): (r: seq<Mlp>)
    ensures |r| == n
    ensures Gates(r) == Unflatten(gate, n, size, h) && Ups(r) == Unflatten(up, n, size, h)
    ensures Downs(r) == Unflatten(down, n, h, size)
  {
    seq(n, e requires 0 <= e < n => Mlp(RowsIn(gate, e, size, h), RowsIn(up, e, size, h), RowsIn(down, e, h, size)))
  }

  /** Laying the projections of some experts out in memory loses nothing. */
  lemma {:induction false} ExpertsReadBack(experts: seq<Mlp>, h: nat, size: nat)
    requires AllShaped(experts, h, size)
    ensures ExpertsAt(Flatten(Gates(experts)), Flatten(Ups(experts)), Flatten(Downs(experts)), |experts|, h, size)
            == experts
  {
    UnflattenFlatten(Gates(experts), size, h);
    UnflattenFlatten(Ups(experts), size, h);
    UnflattenFlatten(Downs(experts), h, size);
    var r := ExpertsAt(Flatten(Gates(experts)), Flatten(Ups(experts)), Flatten(Downs(experts)), |experts|, h, size);
    forall e | 0 <= e < |experts| ensures r[e] == experts[e] {
      assert Gates(r)[e] == Gates(experts)[e] && Ups(r)[e] == Ups(experts)[e] && Downs(r)[e] == Downs(experts)[e];
    }
  }

  /** One node's `load_weights`: from the complete projections in memory to this node's slice of every expert. */
  method LoadNode(gateProj: Vec, upProj: Vec, downProj: Vec, ghost experts: seq<Mlp>, expertNum: nat, h: nat,
                  complete: nat, offset: nat, size: nat)
    returns (part: seq<Mlp>)
    requires |experts| == expertNum && AllShaped(experts, h, complete) && offset + size <= complete
    requires gateProj == Flatten(Gates(experts)) && upProj == Flatten(Ups(experts))
    requires downProj == Flatten(Downs(experts))
    ensures part == Parts(experts, h, complete, offset, size)
  {
    var localGate := CopyRows(gateProj, Gates(experts), expertNum, h, complete, offset, size);
    var localUp := CopyRows(upProj, Ups(experts), expertNum, h, complete, offset, size);
    var localDown := CopyColumns(downProj, Downs(experts), expertNum, h, complete, offset, size);
    CopiesAreParts(experts, h, complete, offset, size);
    ExpertsReadBack(Parts(experts, h, complete, offset, size), h, size);
    part := ExpertsAt(localGate, localUp, localDown, expertNum, h, size);
  }
}
