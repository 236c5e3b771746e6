/**
 Running experts on sorted tokens: `DeepseekV3MoE.moe_infer` of `examples/modeling_deepseek_v3.py` on one rank.
 The (token, expert) pairs are sorted by expert, each expert runs on one contiguous slice, the results are put
 back in place and summed with the routing weights.  Everything is stated against the direct double loop.
 */
module MoeDispatch {
  import opened Prelude
  import opened Sequences
  import opened Arithmetic
  import opened Vectors

  datatype Failure = IndexOutOfRange | AmbiguousView | SplitMismatch

  // ---- sorting and histograms -----------------------------------------------------------------

  /** A permutation of the positions below n. */
  ghost predicate Permutation(p: seq<nat>, n: nat) {
    |p| == n && Distinct(p) && forall i :: 0 <= i < n ==> p[i] < n
  }

  /** What `argsort` returns: a permutation that puts the labels in non-decreasing order.  The order among
      equal labels is left open. */
  ghost predicate IsArgsort(labels: seq<nat>, p: seq<nat>) {
    && Permutation(p, |labels|)
    && Sorted(Pick(labels, p))
  }

  predicate Sorted(s: seq<nat>) {
    forall i, j :: 0 <= i < j < |s| ==> s[i] <= s[j]
  }

  /** `s[p]`: indexing a tensor with a tensor of positions. */
  function Pick<T>(s: seq<T>, p: seq<nat>): (r: seq<T>)
    requires forall i :: 0 <= i < |p| ==> p[i] < |s|
    ensures |r| == |p| && forall i :: 0 <= i < |p| ==> r[i] == s[p[i]]
  {
    seq(|p|, i requires 0 <= i < |p| => s[p[i]])
  }

  /** Every position below n occurs in a permutation. */
  lemma {:induction false} PermutationHits(p: seq<nat>, n: nat, x: nat) returns (i: nat)
    requires Permutation(p, n) && x < n
    ensures i < n && p[i] == x
  {
    DistinctSize(p);
    var s := set c | c in p;
    assert s <= Below(n);
    SubsetSize(s, Below(n));
    assert x in s;
    i :| 0 <= i < |p| && p[i] == x;
  }

  lemma {:induction false} PickKeepsMultiset<T>(s: seq<T>, p: seq<nat>)
    requires Permutation(p, |s|)
    ensures multiset(Pick(s, p)) == multiset(s)
    decreases |s|
  {
    if s != [] {
      var n := |s| - 1;
      var i := PermutationHits(p, |s|, n);
      var p' := p[..i] + p[i + 1..];
      forall j | 0 <= j < n ensures p'[j] < n { assert p'[j] == if j < i then p[j] else p[j + 1]; }
      forall j, k | 0 <= j < k < n ensures p'[j] != p'[k] {
        assert p'[j] == (if j < i then p[j] else p[j + 1]) && p'[k] == (if k < i then p[k] else p[k + 1]);
      }
      PickKeepsMultiset(s[..n], p');
      assert Pick(s, p) == Pick(s, p)[..i] + [s[n]] + Pick(s, p)[i + 1..];
      assert Pick(s[..n], p') == Pick(s, p)[..i] + Pick(s, p)[i + 1..];
      assert s == s[..n] + [s[n]];
    }
  }

  /** Label 0 as often as c[0] says, then label 1 as often as c[1] says, and so on. */
  function Expand(c: seq<nat>): (r: seq<nat>)
    ensures |r| == Sum(c)
    ensures forall i :: 0 <= i < |r| ==> r[i] < |c|
    decreases |c|
  {
    if c == [] then [] else Expand(c[..|c| - 1]) + Repeat(|c| - 1, c[|c| - 1])
  }

  function Count(s: seq<nat>, e: nat): nat {
    multiset(s)[e]
  }

  /** `c` counts how often each label below |c| occurs in `labels`, and there are no others. */
  ghost predicate IsHistogram(c: seq<nat>, labels: seq<nat>) {
    && (forall i :: 0 <= i < |labels| ==> labels[i] < |c|)
    && (forall e :: 0 <= e < |c| ==> Count(labels, e) == c[e])
  }

  /** The end of a sorted sequence is its greatest label, over and over; before it there are only smaller ones. */
  lemma {:induction false} SortedTail(s: seq<nat>, e: nat) returns (front: seq<nat>, k: nat)
    requires Sorted(s) && forall i :: 0 <= i < |s| ==> s[i] <= e
    ensures s == front + Repeat(e, k) && Sorted(front)
    ensures forall i :: 0 <= i < |front| ==> front[i] < e
    decreases |s|
  {
    front, k := s, 0;
    if s != [] {
      var n := |s| - 1;
      if s[n] == e {
        front, k := SortedTail(s[..n], e);
        k := k + 1;
        assert s == s[..n] + [e];
      } else {
        forall i | 0 <= i < |s| ensures s[i] < e { assert s[i] <= s[n]; }
      }
    }
  }

  lemma {:induction false} RepeatCount(v: nat, k: nat, e: nat)
    ensures Count(Repeat(v, k), e) == if e == v then k else 0
  {
    if k > 0 {
      RepeatCount(v, k - 1, e);
      assert Repeat(v, k) == Repeat(v, k - 1) + [v];
    }
  }

  lemma {:induction false} SplitHistogram(front: seq<nat>, c: seq<nat>, e: nat, k: nat)
    requires |c| == e + 1 && IsHistogram(c, front + Repeat(e, k))
    requires forall i :: 0 <= i < |front| ==> front[i] < e
    ensures IsHistogram(c[..e], front) && c[e] == k
  {
    var tail: seq<nat> := Repeat(e, k);
    assert multiset(front + tail) == multiset(front) + multiset(tail);
    assert e !in front;
    forall f: nat ensures Count(tail, f) == if f == e then k else 0 { RepeatCount(e, k, f); }
    assert Count(front + tail, e) == Count(front, e) + Count(tail, e);
  }

  lemma {:induction false} JoinHistogram(front: seq<nat>, c: seq<nat>, e: nat)
    requires |c| == e + 1 && IsHistogram(c[..e], front)
    ensures IsHistogram(c, front + Repeat(e, c[e]))
  {
    var tail: seq<nat> := Repeat(e, c[e]);
    assert multiset(front + tail) == multiset(front) + multiset(tail);
    assert e !in front;
    forall f: nat ensures Count(tail, f) == if f == e then c[e] else 0 { RepeatCount(e, c[e], f); }
    forall f: nat | f < |c| ensures Count(front + tail, f) == c[f] {
      assert Count(front + tail, f) == Count(front, f) + Count(tail, f);
      if f < e { assert c[..e][f] == c[f]; }
    }
  }

  lemma {:induction false} HistogramNonempty(c: seq<nat>, labels: seq<nat>)
    requires IsHistogram(c, labels)
    ensures labels != [] ==> c != []
  {
    if labels != [] { var first := labels[0]; }
  }

  /** A sorted sequence is determined by its histogram. */
  lemma {:induction false} SortedIsExpand(s: seq<nat>, c: seq<nat>)
    requires Sorted(s) && IsHistogram(c, s)
    ensures s == Expand(c)
    decreases |c|
  {
    HistogramNonempty(c, s);
    if c != [] {
      var front := LastBlock(s, c);
      SortedIsExpand(front, c[..|c| - 1]);
    }
  }

  lemma {:induction false} LastBlock(s: seq<nat>, c: seq<nat>) returns (front: seq<nat>)
    requires Sorted(s) && IsHistogram(c, s) && c != []
    ensures Sorted(front) && IsHistogram(c[..|c| - 1], front) && s == front + Repeat(|c| - 1, c[|c| - 1])
  {
    var e: nat, k: nat := |c| - 1, 0;
    front, k := SortedTail(s, e);
    SplitHistogram(front, c, e, k);
  }

  /** Sorting labels puts them in blocks: the counts say where each block lies. */
  lemma {:induction false} ArgsortIsExpand(labels: seq<nat>, p: seq<nat>, c: seq<nat>)
    requires IsArgsort(labels, p) && IsHistogram(c, labels)
    ensures Pick(labels, p) == Expand(c) && Sum(c) == |labels|
  {
    PickKeepsMultiset(labels, p);
    var s := Pick(labels, p);
    forall i | 0 <= i < |s| ensures s[i] < |c| { assert s[i] == labels[p[i]]; }
    SortedIsExpand(s, c);
  }

  // ---- the expert loop ------------------------------------------------------------------------

  /** Expert `base + labels[q]` applied to token q, for every q. */
  function RunEach<X, Y>(expert: (nat, X) -> Y, base: nat, labels: seq<nat>, toks: seq<X>): (r: seq<Y>)
    requires |labels| <= |toks|
    ensures |r| == |labels|
    ensures forall q :: 0 <= q < |r| ==> r[q] == expert(base + labels[q], toks[q])
  {
    seq(|labels|, q requires 0 <= q < |labels| => expert(base + labels[q], toks[q]))
  }

  /** A whole block through one expert. */
  function OneExpert<X, Y>(expert: (nat, X) -> Y, e: nat, toks: seq<X>): (r: seq<Y>)
    ensures |r| == |toks| && forall q :: 0 <= q < |r| ==> r[q] == expert(e, toks[q])
  {
    seq(|toks|, q requires 0 <= q < |toks| => expert(e, toks[q]))
  }

  /** The loop over experts: slice `start_idx:end_idx` of the sorted tokens goes to expert i (of this rank's
      experts, which start at `base`); an expert without tokens is skipped; the outputs are concatenated. */
  method RunExperts<X, Y>(expert: (nat, X) -> Y, base: nat, tokensPerExpert: seq<nat>, sortedTokens: seq<X>)
    returns (outs: seq<Y>)
    requires Sum(tokensPerExpert) <= |sortedTokens|
    ensures outs == RunEach(expert, base, Expand(tokensPerExpert), sortedTokens)
  {
    var outputs: seq<seq<Y>> := [];
    var startIdx := 0;
    var i := 0;
    while i < |tokensPerExpert|
      invariant 0 <= i <= |tokensPerExpert|
      invariant startIdx == Sum(tokensPerExpert[..i]) <= |sortedTokens|
      invariant Concat(outputs) == RunEach(expert, base, Expand(tokensPerExpert[..i]), sortedTokens)
    {
      var numTokens := tokensPerExpert[i];
      NextBlock(expert, base, tokensPerExpert, sortedTokens, i);
      var endIdx := startIdx + numTokens;
      if numTokens == 0 {
        i := i + 1;
        continue;
      }
      var tokensForThisExpert := sortedTokens[startIdx..endIdx];
      var expertOut := OneExpert(expert, base + i, tokensForThisExpert);
      outputs := outputs + [expertOut];
      assert outputs[..|outputs| - 1] + [expertOut] == outputs;
      startIdx := endIdx;
      i := i + 1;
    }
    assert tokensPerExpert[..i] == tokensPerExpert;
    outs := Concat(outputs);
  }

  /** Expert i's block follows those of the experts before it. */
  lemma {:induction false} NextBlock<X, Y>(expert: (nat, X) -> Y, base: nat, c: seq<nat>, toks: seq<X>, i: nat)
    requires Sum(c) <= |toks| && i < |c|
    ensures Sum(c[..i + 1]) == Sum(c[..i]) + c[i] <= |toks|
    ensures RunEach(expert, base, Expand(c[..i + 1]), toks)
            == RunEach(expert, base, Expand(c[..i]), toks)
               + OneExpert(expert, base + i, toks[Sum(c[..i])..Sum(c[..i]) + c[i]])
    ensures c[i] == 0 ==> RunEach(expert, base, Expand(c[..i + 1]), toks) == RunEach(expert, base, Expand(c[..i]), toks)
  {
    SumNext(c, i);
    RunEachAppend(expert, base, Expand(c[..i]), i, c[i], toks);
  }

  lemma {:induction false} SumNext(c: seq<nat>, i: nat)
    requires i < |c|
    ensures Sum(c[..i + 1]) == Sum(c[..i]) + c[i] <= Sum(c)
    ensures Expand(c[..i + 1]) == Expand(c[..i]) + Repeat(i, c[i])
  {
    assert c == c[..i + 1] + c[i + 1..];
    SumSplit(c[..i + 1], c[i + 1..]);
    assert c[..i + 1][..i] == c[..i];
  }

  lemma {:induction false} RunEachAppend<X, Y>(expert: (nat, X) -> Y, base: nat, a: seq<nat>, e: nat, k: nat,
                                               toks: seq<X>)
    requires |a| + k <= |toks|
    ensures RunEach(expert, base, a + Repeat(e, k), toks)
            == RunEach(expert, base, a, toks) + OneExpert(expert, base + e, toks[|a|..|a| + k])
  {
  }

  /** `new_x[p] = outs` into fresh space of the same size as `outs`: fails if a position lies outside. */
  method ScatterRows<Y>(p: seq<nat>, outs: seq<Y>) returns (r: Result<seq<Y>, Failure>)
    requires |outs| <= |p| && Distinct(p)
    ensures r.Ok? <==> (|outs| == |p| && forall i :: 0 <= i < |p| ==> p[i] < |outs|)
    ensures r.Ok? ==> |r.value| == |outs| && forall i :: 0 <= i < |p| ==> r.value[p[i]] == outs[i]
  {
    if |outs| != |p| {
      PigeonHole(p, |outs|);
      return Err(IndexOutOfRange);
    }
    var newX := outs;
    var i := 0;
    while i < |p|
      invariant 0 <= i <= |p| && |newX| == |outs|
      invariant forall j :: 0 <= j < i ==> p[j] < |outs| && newX[p[j]] == outs[j]
    {
      if p[i] >= |outs| {
        return Err(IndexOutOfRange);
      }
      newX := newX[p[i] := outs[i]];
      i := i + 1;
    }
    return Ok(newX);
  }

  /** More distinct positions than room: one of them lies outside. */
  lemma {:induction false} PigeonHole(p: seq<nat>, room: nat)
    requires Distinct(p) && room < |p|
    ensures exists i :: 0 <= i < |p| && p[i] >= room
  {
    if forall i :: 0 <= i < |p| ==> p[i] < room {
      DistinctSize(p);
      SubsetSize((set c | c in p), Below(room));
      assert false;
    }
  }

  /** Sorting, running in blocks and putting back is the same as running each token on the spot. */
  lemma {:induction false} DispatchIsPointwise<X, Y>(expert: (nat, X) -> Y, base: nat, labels: seq<nat>, toks: seq<X>,
                                                     p: seq<nat>, c: seq<nat>, newX: seq<Y>)
    requires |toks| == |labels| == |newX| && IsArgsort(labels, p) && IsHistogram(c, labels)
    requires Sum(c) == |labels|
    requires forall i :: 0 <= i < |p| ==> newX[p[i]] == RunEach(expert, base, Expand(c), Pick(toks, p))[i]
    ensures newX == RunEach(expert, base, labels, toks)
  {
    ArgsortIsExpand(labels, p, c);
    forall x | 0 <= x < |newX| ensures newX[x] == expert(base + labels[x], toks[x]) {
      var i := PermutationHits(p, |labels|, x);
      assert Pick(labels, p)[i] == labels[x];
    }
  }

  // ---- counting tokens per expert -------------------------------------------------------------

  predicate InRange(ids: seq<seq<int>>, n: nat) {
    forall t, j :: 0 <= t < |ids| && 0 <= j < |ids[t]| ==> 0 <= ids[t][j] < n
  }

  predicate DistinctRows<T(==)>(m: seq<seq<T>>) {
    forall t :: 0 <= t < |m| ==> Distinct(m[t])
  }

  /** The ids as labels, once they are known to be in range. */
  function Labels(ids: seq<seq<int>>, n: nat): (r: seq<seq<nat>>)
    requires InRange(ids, n)
    ensures |r| == |ids|
    ensures forall t :: 0 <= t < |ids| ==> |r[t]| == |ids[t]|
    ensures forall t, j :: 0 <= t < |ids| && 0 <= j < |ids[t]| ==> r[t][j] == ids[t][j] < n
  {
    seq(|ids|, t requires 0 <= t < |ids| => seq(|ids[t]|, j requires 0 <= j < |ids[t]| => ids[t][j]))
  }

  /** One row of `cnts` after `cnts.scatter_(1, topk_ids, 1)`. */
  function OneHot(row: seq<nat>, n: nat): (r: seq<nat>)
    ensures |r| == n && forall e :: 0 <= e < n ==> r[e] == if e in row then 1 else 0
  {
    seq(n, e => if e in row then 1 else 0)
  }

  function Plus(a: seq<nat>, b: seq<nat>): (r: seq<nat>)
    requires |a| == |b|
    ensures |r| == |a| && forall e :: 0 <= e < |a| ==> r[e] == a[e] + b[e]
  {
    seq(|a|, e requires 0 <= e < |a| => a[e] + b[e])
  }

  /** `cnts.sum(dim=0)`. */
  function TokensPerExpert(rows: seq<seq<nat>>, n: nat): (r: seq<nat>)
    ensures |r| == n
    decreases |rows|
  {
    if rows == [] then Repeat(0, n)
    else Plus(TokensPerExpert(rows[..|rows| - 1], n), OneHot(rows[|rows| - 1], n))
  }

  lemma {:induction false} DistinctCount(row: seq<nat>, e: nat)
    requires Distinct(row)
    ensures Count(row, e) == if e in row then 1 else 0
    decreases |row|
  {
    if row != [] {
      var m := |row| - 1;
      assert row == row[..m] + [row[m]];
      assert forall i :: 0 <= i < m ==> row[i] != row[m];
      DistinctCount(row[..m], e);
    }
  }

  /** With distinct ids in every row, the scattered counts are the histogram of the flattened ids. */
  lemma {:induction false} CountsAreHistogram(rows: seq<seq<nat>>, n: nat)
    requires DistinctRows(rows) && forall t, j :: 0 <= t < |rows| && 0 <= j < |rows[t]| ==> rows[t][j] < n
    ensures IsHistogram(TokensPerExpert(rows, n), Concat(rows))
    decreases |rows|
  {
    if rows != [] {
      var m := |rows| - 1;
      var row := rows[m];
      CountsAreHistogram(rows[..m], n);
      assert multiset(Concat(rows)) == multiset(Concat(rows[..m])) + multiset(row);
      forall e | 0 <= e < n ensures Count(Concat(rows), e) == TokensPerExpert(rows, n)[e] {
        DistinctCount(row, e);
        assert Count(Concat(rows), e) == Count(Concat(rows[..m]), e) + Count(row, e);
      }
    }
  }

  lemma {:induction false} SumPlus(a: seq<nat>, b: seq<nat>)
    requires |a| == |b|
    ensures Sum(Plus(a, b)) == Sum(a) + Sum(b)
    decreases |a|
  {
    if a != [] {
      var m := |a| - 1;
      assert Plus(a, b)[..m] == Plus(a[..m], b[..m]);
      SumPlus(a[..m], b[..m]);
    }
  }

  lemma {:induction false} SumZeros(n: nat)
    ensures Sum(Repeat(0, n)) == 0
    decreases n
  {
    var zeros: seq<nat> := Repeat(0, n);
    if n > 0 {
      var shorter: seq<nat> := Repeat(0, n - 1);
      SumZeros(n - 1);
      assert zeros[..|zeros| - 1] == shorter;
      assert Sum(zeros) == Sum(shorter) + zeros[n - 1];
    } else {
      assert zeros == [];
    }
  }

  /** A one-hot row adds up to the number of different ids below n. */
  lemma {:induction false} SumOneHot(row: seq<nat>, n: nat)
    ensures Sum(OneHot(row, n)) == |set e | e in row && e < n|
    decreases n
  {
    if n == 0 {
      assert (set e | e in row && e < 0) == {};
    } else {
      SumOneHot(row, n - 1);
      assert OneHot(row, n)[..n - 1] == OneHot(row, n - 1);
      var below := set e | e in row && e < n - 1;
      assert (set e | e in row && e < n) == if n - 1 in row then below + {n - 1} else below;
    }
  }

  /** The counts add up to the number of pairs exactly when no row repeats an id. */
  lemma {:induction false} CountsAddUp(rows: seq<seq<nat>>, n: nat)
    requires forall t, j :: 0 <= t < |rows| && 0 <= j < |rows[t]| ==> rows[t][j] < n
    ensures Sum(TokensPerExpert(rows, n)) <= |Concat(rows)|
    ensures Sum(TokensPerExpert(rows, n)) == |Concat(rows)| <==> DistinctRows(rows)
    decreases |rows|
  {
    if rows == [] {
      SumZeros(n);
    } else {
      var m := |rows| - 1;
      var row := rows[m];
      CountsAddUp(rows[..m], n);
      SumPlus(TokensPerExpert(rows[..m], n), OneHot(row, n));
      OneHotAddsUp(row, n);
      assert DistinctRows(rows) <==> DistinctRows(rows[..m]) && Distinct(row);
    }
  }

  lemma {:induction false} OneHotAddsUp(row: seq<nat>, n: nat)
    requires forall j :: 0 <= j < |row| ==> row[j] < n
    ensures Sum(OneHot(row, n)) <= |row| && (Sum(OneHot(row, n)) == |row| <==> Distinct(row))
  {
    SumOneHot(row, n);
    ElementsSize(row, set e | e in row && e < n);
  }

  // ---- one rank -------------------------------------------------------------------------------

  function Component(v: Vec, c: nat): real {
    if c < |v| then v[c] else 0.0
  }

  /** Component c of each of some vectors. */
  function Components(ys: seq<Vec>, c: nat): (r: Vec)
    ensures |r| == |ys| && forall j :: 0 <= j < |r| ==> r[j] == Component(ys[j], c)
  {
    seq(|ys|, j requires 0 <= j < |ys| => Component(ys[j], c))
  }

  /** `new_x.view(...).mul_(topk_weight).sum(dim=1)` for one token; h is the hidden size. */
  function Combine(w: seq<real>, ys: seq<Vec>, h: nat): (r: Vec)
    requires |w| == |ys|
    ensures |r| == h && forall c :: 0 <= c < h ==> r[c] == Dot(w, Components(ys, c))
  {
    seq(h, c requires 0 <= c => Dot(w, Components(ys, c)))
  }

  /** Component c of what each expert chosen for a token makes of it. */
  function Outputs<X>(expert: (nat, X) -> Vec, ids: seq<int>, x: X, c: nat): (r: Vec)
    requires forall j :: 0 <= j < |ids| ==> 0 <= ids[j]
    ensures |r| == |ids| && forall j :: 0 <= j < |r| ==> r[j] == Component(expert(ids[j], x), c)
  {
    seq(|ids|, j requires 0 <= j < |ids| => Component(expert(ids[j], x), c))
  }

  /** Every component of every token's result is the sum, weighted by the token's routing weights, of what the
      experts chosen for the token make of it. */
  predicate IsMixture<X>(expert: (nat, X) -> Vec, x: seq<X>, ids: seq<seq<int>>, w: seq<seq<real>>, h: nat,
                         out: seq<Vec>)
    requires |x| == |ids| == |w| && forall t :: 0 <= t < |x| ==> |ids[t]| == |w[t]|
    requires forall t, j :: 0 <= t < |ids| && 0 <= j < |ids[t]| ==> 0 <= ids[t][j]
  {
    && |out| == |x|
    && forall t :: 0 <= t < |x| ==>
         && |out[t]| == h
         && forall c :: 0 <= c < h ==> out[t][c] == Dot(w[t], Outputs(expert, ids[t], x[t], c))
  }

  lemma {:induction false} NaiveIsMixture<X>(expert: (nat, X) -> Vec, x: seq<X>, ids: seq<seq<int>>,
                                             w: seq<seq<real>>, k: nat, h: nat, n: nat)
    requires |x| == |ids| == |w| && Rows(ids, k) && Rows(w, k) && InRange(ids, n)
    ensures IsMixture(expert, x, ids, w, h, Naive(expert, x, Labels(ids, n), w, k, h))
  {
    var rows := Labels(ids, n);
    forall t, c | 0 <= t < |x| && 0 <= c < h
      ensures Components(RunEach(expert, 0, rows[t], Repeat(x[t], k)), c) == Outputs(expert, ids[t], x[t], c)
    {
    }
  }

  /** The direct double loop: for each token, each of its experts on it, weighted and summed. */
  function Naive<X>(expert: (nat, X) -> Vec, x: seq<X>, rows: seq<seq<nat>>, w: seq<seq<real>>, k: nat, h: nat)
    : seq<Vec>
    requires |x| == |rows| == |w| && Rows(rows, k) && Rows(w, k)
  {
    seq(|x|, t requires 0 <= t < |x| => Combine(w[t], RunEach(expert, 0, rows[t], Repeat(x[t], k)), h))
  }

  /** The token of every (token, position) pair: `idxs // topk` before sorting. */
  function Tokens<X>(x: seq<X>, k: nat): (r: seq<seq<X>>)
    ensures |r| == |x| && Rows(r, k)
    ensures forall t, j :: 0 <= t < |r| && 0 <= j < k ==> r[t][j] == x[t]
  {
    seq(|x|, t requires 0 <= t < |x| => Repeat(x[t], k))
  }

  /** `moe_infer` with ep_size 1.  `idxs` is what `topk_ids.view(-1).argsort()` returned, `h` the hidden size.

      It succeeds exactly when there is something to compute, every id names an expert, and no token repeats an
      id (as the gate's top-k never does): a repeated id is counted once, so the slices miss a token and the
      scatter runs out of range; and on an empty batch the final `view` cannot infer its last dimension.
      When it succeeds, the result is the direct double loop. */
  method MoeInfer<X>(expert: (nat, X) -> Vec, numExperts: nat, x: seq<X>, ids: seq<seq<int>>, w: seq<seq<real>>,
                     k: nat, h: nat, idxs: seq<nat>)
    returns (r: Result<seq<Vec>, Failure>)
    requires |x| == |ids| == |w| && Rows(ids, k) && Rows(w, k)
    requires InRange(ids, numExperts) ==> IsArgsort(Concat(Labels(ids, numExperts)), idxs)
    ensures r.Ok? <==> InRange(ids, numExperts) && DistinctRows(ids) && |x| * k > 0
    ensures r.Ok? ==> r.value == Naive(expert, x, Labels(ids, numExperts), w, k, h)
    ensures r.Ok? ==> IsMixture(expert, x, ids, w, h, r.value)
  {
    if !InRange(ids, numExperts) {
      return Err(IndexOutOfRange);
    }
    var rows := Labels(ids, numExperts);
    SameDistinct(ids, numExperts);
    ConcatLength(rows, k);
    CountsAddUp(rows, numExperts);
    var tokensPerExpert := TokensPerExpert(rows, numExperts);
    var sortedTokens := SortedTokens(x, idxs, k);
    var outs := RunExperts(expert, 0, tokensPerExpert, sortedTokens);
    var newX := ScatterRows(idxs, outs);
    if newX.Err? {
      return Err(IndexOutOfRange);
    }
    if |newX.value| == 0 {
      return Err(AmbiguousView);
    }
    PutBackIsNaive(expert, x, rows, w, k, h, numExperts, idxs, newX.value);
    NaiveIsMixture(expert, x, ids, w, k, h, numExperts);
    r := Ok(Finish(newX.value, w, k, h));
  }

  /** `x[idxs // topk]`. */
  function SortedTokens<X>(x: seq<X>, idxs: seq<nat>, k: nat): (r: seq<X>)
    requires forall i :: 0 <= i < |idxs| ==> idxs[i] < |x| * k
    ensures |r| == |idxs|
  {
    seq(|idxs|, i requires 0 <= i < |idxs| => TokenOf(idxs[i], |x|, k); x[idxs[i] / k])
  }

  lemma {:induction false} TokenOf(p: nat, n: nat, k: nat)
    requires p < n * k
    ensures k > 0 && p / k < n && p == p / k * k + p % k
  {
  }

  lemma {:induction false} SortedTokensArePicked<X>(x: seq<X>, idxs: seq<nat>, k: nat)
    requires forall i :: 0 <= i < |idxs| ==> idxs[i] < |x| * k
    ensures |Concat(Tokens(x, k))| == |x| * k
    ensures SortedTokens(x, idxs, k) == Pick(Concat(Tokens(x, k)), idxs)
  {
    ConcatLength(Tokens(x, k), k);
    forall i | 0 <= i < |idxs| ensures SortedTokens(x, idxs, k)[i] == Concat(Tokens(x, k))[idxs[i]] {
      TokenAt(x, idxs[i], k);
    }
  }

  lemma {:induction false} TokenAt<X>(x: seq<X>, p: nat, k: nat)
    requires p < |x| * k
    ensures k > 0 && 0 <= p / k < |x| && p < |Concat(Tokens(x, k))| && Concat(Tokens(x, k))[p] == x[p / k]
  {
    TokenOf(p, |x|, k);
    ConcatAt(Tokens(x, k), k, p / k, p % k);
  }

  /** Weighted sum over each token's k rows of `new_x`. */
  function Finish(newX: seq<Vec>, w: seq<seq<real>>, k: nat, h: nat): (r: seq<Vec>)
    requires |newX| == |w| * k && Rows(w, k)
  {
    seq(|w|, t requires 0 <= t < |w| => RowEnds(t, |w|, k); Combine(w[t], newX[t * k..t * k + k], h))
  }

  /** The rows that were put back, combined, are the double loop. */
  lemma {:induction false} PutBackIsNaive<X>(expert: (nat, X) -> Vec, x: seq<X>, rows: seq<seq<nat>>, w: seq<seq<real>>,
                                             k: nat, h: nat, n: nat, idxs: seq<nat>, newX: seq<Vec>)
    requires |x| == |rows| == |w| && Rows(rows, k) && Rows(w, k) && DistinctRows(rows)
    requires forall t, j :: 0 <= t < |rows| && 0 <= j < |rows[t]| ==> rows[t][j] < n
    requires |Concat(rows)| == |x| * k && IsArgsort(Concat(rows), idxs) && |newX| == |x| * k
    requires Sum(TokensPerExpert(rows, n)) == |x| * k
    requires forall i :: 0 <= i < |idxs| ==>
               newX[idxs[i]] == RunEach(expert, 0, Expand(TokensPerExpert(rows, n)), SortedTokens(x, idxs, k))[i]
    ensures Finish(newX, w, k, h) == Naive(expert, x, rows, w, k, h)
  {
    SortedTokensArePicked(x, idxs, k);
    CountsAreHistogram(rows, n);
    DispatchIsPointwise(expert, 0, Concat(rows), Concat(Tokens(x, k)), idxs, TokensPerExpert(rows, n), newX);
    FinishPointwise(expert, x, rows, w, k, h, newX);
  }

  lemma {:induction false} FinishPointwise<X>(expert: (nat, X) -> Vec, x: seq<X>, rows: seq<seq<nat>>,
                                              w: seq<seq<real>>, k: nat, h: nat, newX: seq<Vec>)
    requires |x| == |rows| == |w| && Rows(rows, k) && Rows(w, k) && |Concat(rows)| == |x| * k == |Concat(Tokens(x, k))|
    requires newX == RunEach(expert, 0, Concat(rows), Concat(Tokens(x, k)))
    ensures Finish(newX, w, k, h) == Naive(expert, x, rows, w, k, h)
  {
    forall t | 0 <= t < |x| ensures Finish(newX, w, k, h)[t] == Naive(expert, x, rows, w, k, h)[t] {
      RowEnds(t, |x|, k);
      RowPointwise(expert, x, rows, k, newX, t);
    }
  }

  lemma {:induction false} RowPointwise<X>(expert: (nat, X) -> Vec, x: seq<X>, rows: seq<seq<nat>>, k: nat,
                                           newX: seq<Vec>, t: nat)
    requires |x| == |rows| && Rows(rows, k) && |Concat(rows)| == |x| * k == |Concat(Tokens(x, k))|
    requires newX == RunEach(expert, 0, Concat(rows), Concat(Tokens(x, k))) && t < |x|
    requires t * k + k <= |newX|
    ensures newX[t * k..t * k + k] == RunEach(expert, 0, rows[t], Repeat(x[t], k))
  {
    var direct := RunEach(expert, 0, rows[t], Repeat(x[t], k));
    var at := t * k;
    forall j | 0 <= j < k ensures newX[at..at + k][j] == direct[j] {
      ConcatAt(rows, k, t, j);
      ConcatAt(Tokens(x, k), k, t, j);
    }
  }

  lemma {:induction false} SameDistinct(ids: seq<seq<int>>, n: nat)
    requires InRange(ids, n)
    ensures DistinctRows(Labels(ids, n)) <==> DistinctRows(ids)
  {
    var rows := Labels(ids, n);
    if DistinctRows(rows) {
      forall t | 0 <= t < |ids| ensures Distinct(ids[t]) { assert Distinct(rows[t]); }
    }
    if DistinctRows(ids) {
      forall t | 0 <= t < |ids| ensures Distinct(rows[t]) { assert Distinct(ids[t]); }
    }
  }
}
