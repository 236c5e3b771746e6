/**
 `moe_infer` with the experts spread over several ranks (`ep_size > 1` in `examples/modeling_deepseek_v3.py`):
 the ranks exchange counts, send every token to the rank that owns its expert, regroup what they received by
 local expert, run their experts, undo the regrouping and send the results back.

 All ranks are modelled side by side; a collective is a function of what every rank puts in.
 */
module ExpertParallel {
  import opened Prelude
  import opened Sequences
  import opened Arithmetic
  import opened Vectors
  import opened MoeDispatch

  // ---- splitting and exchanging ---------------------------------------------------------------

  /** `t.split(sizes)`. */
  function Split<T>(t: seq<T>, sizes: seq<nat>): (r: seq<seq<T>>)
    requires Sum(sizes) == |t|
    ensures |r| == |sizes|
    ensures forall i :: 0 <= i < |sizes| ==> |r[i]| == sizes[i]
    decreases |sizes|
  {
    if sizes == [] then []
    else
      var n := |sizes| - 1;
      Split(t[..|t| - sizes[n]], sizes[..n]) + [t[|t| - sizes[n]..]]
  }

  lemma {:induction false} ConcatOfSplit<T>(t: seq<T>, sizes: seq<nat>)
    requires Sum(sizes) == |t|
    ensures Concat(Split(t, sizes)) == t
    decreases |sizes|
  {
    if sizes != [] {
      var n := |sizes| - 1;
      ConcatOfSplit(t[..|t| - sizes[n]], sizes[..n]);
      assert Split(t, sizes)[..n] == Split(t[..|t| - sizes[n]], sizes[..n]);
    }
  }

  function Lengths<T>(parts: seq<seq<T>>): (r: seq<nat>)
    ensures |r| == |parts| && forall i :: 0 <= i < |r| ==> r[i] == |parts[i]|
  {
    seq(|parts|, i requires 0 <= i < |parts| => |parts[i]|)
  }

  lemma {:induction false} SplitOfConcat<T>(parts: seq<seq<T>>)
    ensures Sum(Lengths(parts)) == |Concat(parts)|
    ensures Split(Concat(parts), Lengths(parts)) == parts
    decreases |parts|
  {
    if parts != [] {
      var n := |parts| - 1;
      var front, sizes := Concat(parts[..n]), Lengths(parts);
      assert sizes[..n] == Lengths(parts[..n]);
      SplitOfConcat(parts[..n]);
      var whole := Concat(parts);
      assert whole == front + parts[n] && Sum(sizes) == |whole|;
      assert whole[..|whole| - sizes[n]] == front && whole[|whole| - sizes[n]..] == parts[n];
      assert Split(whole, sizes) == Split(front, sizes[..n]) + [parts[n]];
    }
  }

  predicate HasColumn<T>(m: seq<seq<T>>, r: nat) {
    forall s :: 0 <= s < |m| ==> r < |m[s]|
  }

  /** What every rank receives when rank s sends `m[s][r]` to rank r. */
  function Received<T>(m: seq<seq<T>>, r: nat): (c: seq<T>)
    requires HasColumn(m, r)
    ensures |c| == |m| && forall s :: 0 <= s < |m| ==> c[s] == m[s][r]
  {
    seq(|m|, s requires 0 <= s < |m| => m[s][r])
  }

  function Sums(rows: seq<seq<nat>>): (r: seq<nat>)
    ensures |r| == |rows| && forall i :: 0 <= i < |r| ==> r[i] == Sum(rows[i])
  {
    seq(|rows|, i requires 0 <= i < |rows| => Sum(rows[i]))
  }

  function Expands(rows: seq<seq<nat>>): (r: seq<seq<nat>>)
    ensures |r| == |rows| && forall i :: 0 <= i < |r| ==> r[i] == Expand(rows[i])
  {
    seq(|rows|, i requires 0 <= i < |rows| => Expand(rows[i]))
  }

  lemma {:induction false} SumOfConcat(rows: seq<seq<nat>>)
    ensures Sum(Concat(rows)) == Sum(Sums(rows))
    decreases |rows|
  {
    if rows != [] {
      var n := |rows| - 1;
      SumOfConcat(rows[..n]);
      SumSplit(Concat(rows[..n]), rows[n]);
      assert Sums(rows)[..n] == Sums(rows[..n]);
    }
  }

  // ---- regrouping by local expert -------------------------------------------------------------

  /** Labels in the order the tokens arrive: i % expertsPerRank, as often as entry i says. */
  function ArrivalLabels(group: seq<nat>, epr: nat): (r: seq<nat>)
    requires epr > 0
    ensures |r| == Sum(group)
    decreases |group|
  {
    if group == [] then []
    else
      var n := |group| - 1;
      ArrivalLabels(group[..n], epr) + Repeat(n % epr, group[n])
  }

  /** The loop that fills `gatherd_idxs` slice by slice. */
  method FillLabels(group: seq<nat>, epr: nat) returns (labels: seq<nat>)
    requires epr > 0
    ensures labels == ArrivalLabels(group, epr)
  {
    labels := Repeat(0, Sum(group));
    var s := 0;
    var i := 0;
    while i < |group|
      invariant 0 <= i <= |group|
      invariant s == Sum(group[..i]) <= |labels| == Sum(group)
      invariant labels[..s] == ArrivalLabels(group[..i], epr)
    {
      var k := group[i];
      assert group == group[..i + 1] + group[i + 1..];
      SumSplit(group[..i + 1], group[i + 1..]);
      assert group[..i + 1][..i] == group[..i];
      var filled := labels[..s] + Repeat(i % epr, k);
      labels := filled + labels[s + k..];
      s := s + k;
      assert labels[..s] == filled;
      i := i + 1;
    }
    assert group[..i] == group;
  }

  /** Arrival labels row by row: within each sender's row they count up from local expert 0. */
  lemma {:induction false} ArrivalIsExpand(rows: seq<seq<nat>>, epr: nat)
    requires epr > 0 && Rows(rows, epr)
    ensures ArrivalLabels(Concat(rows), epr) == Concat(Expands(rows))
    decreases |rows|
  {
    if rows != [] {
      var n := |rows| - 1;
      ArrivalIsExpand(rows[..n], epr);
      ConcatLength(rows[..n], epr);
      ArrivalOfRow(Concat(rows[..n]), n, rows[n], epr);
      assert Expands(rows)[..n] == Expands(rows[..n]);
    }
  }

  lemma {:induction false} ArrivalOfRow(before: seq<nat>, n: nat, row: seq<nat>, epr: nat)
    requires epr > 0 && |before| == n * epr && |row| <= epr
    ensures ArrivalLabels(before + row, epr) == ArrivalLabels(before, epr) + Expand(row)
    decreases |row|
  {
    if row == [] {
      assert before + row == before;
    } else {
      var j := |row| - 1;
      ArrivalOfRow(before, n, row[..j], epr);
      assert (before + row)[..|before + row| - 1] == before + row[..j];
      DivisionIs(n * epr + j, epr, n, j);
    }
  }

  /** `tokens_per_expert_group.view(ep_size, experts_per_rank).sum(dim=0)`. */
  function SumRows(rows: seq<seq<nat>>, epr: nat): (r: seq<nat>)
    requires Rows(rows, epr)
    ensures |r| == epr
    decreases |rows|
  {
    if rows == [] then Repeat(0, epr) else Plus(SumRows(rows[..|rows| - 1], epr), rows[|rows| - 1])
  }

  lemma {:induction false} ExpandHistogram(c: seq<nat>)
    ensures IsHistogram(c, Expand(c))
    decreases |c|
  {
    if c != [] {
      var n: nat := |c| - 1;
      var front := Expand(c[..n]);
      assert IsHistogram(c[..n], front) by { ExpandHistogram(c[..n]); }
      JoinHistogram(front, c, n);
      assert Expand(c) == front + Repeat(n, c[n]);
    }
  }

  lemma {:induction false} CountAppend(a: seq<nat>, b: seq<nat>)
    ensures forall e :: Count(a + b, e) == Count(a, e) + Count(b, e)
  {
    assert multiset(a + b) == multiset(a) + multiset(b);
  }

  /** The counts after the gather are the histogram of the labels that arrived. */
  lemma {:induction false} SumRowsHistogram(rows: seq<seq<nat>>, epr: nat)
    requires Rows(rows, epr)
    ensures IsHistogram(SumRows(rows, epr), Concat(Expands(rows)))
    ensures Sum(SumRows(rows, epr)) == Sum(Concat(rows))
    decreases |rows|
  {
    if rows == [] {
      SumZeros(epr);
    } else {
      var n := |rows| - 1;
      SumRowsHistogram(rows[..n], epr);
      ExpandHistogram(rows[n]);
      assert Expands(rows)[..n] == Expands(rows[..n]);
      CountAppend(Concat(Expands(rows[..n])), Expand(rows[n]));
      SumPlus(SumRows(rows[..n], epr), rows[n]);
      SumSplit(Concat(rows[..n]), rows[n]);
    }
  }

  // ---- running in pieces ----------------------------------------------------------------------

  /** The pieces of a computation: labels and tokens piece by piece, the base moving by `step` each time. */
  function Pieces<X, Y>(expert: (nat, X) -> Y, base: nat, step: nat, labels: seq<seq<nat>>, toks: seq<seq<X>>)
    : (r: seq<seq<Y>>)
    requires |labels| == |toks| && forall i :: 0 <= i < |labels| ==> |labels[i]| == |toks[i]|
    ensures |r| == |labels|
    ensures forall i :: 0 <= i < |r| ==> r[i] == RunEach(expert, base + i * step, labels[i], toks[i])
  {
    seq(|labels|, i requires 0 <= i < |labels| => RunEach(expert, base + i * step, labels[i], toks[i]))
  }

  lemma {:induction false} SameLengths<A, B>(a: seq<seq<A>>, b: seq<seq<B>>)
    requires |a| == |b| && forall i :: 0 <= i < |a| ==> |a[i]| == |b[i]|
    ensures |Concat(a)| == |Concat(b)|
    decreases |a|
  {
    if a != [] { SameLengths(a[..|a| - 1], b[..|b| - 1]); }
  }

  lemma {:induction false} RunEachConcat<X, Y>(expert: (nat, X) -> Y, base: nat, a: seq<nat>, b: seq<nat>, x: seq<X>,
                                               y: seq<X>)
    requires |a| == |x| && |b| == |y|
    ensures RunEach(expert, base, a + b, x + y) == RunEach(expert, base, a, x) + RunEach(expert, base, b, y)
  {
  }

  /** Received pieces, one base for all: running the whole is running the pieces. */
  lemma {:induction false} RunReceived<X, Y>(expert: (nat, X) -> Y, base: nat, labels: seq<seq<nat>>, toks: seq<seq<X>>)
    requires |labels| == |toks| && forall i :: 0 <= i < |labels| ==> |labels[i]| == |toks[i]|
    ensures |Concat(labels)| == |Concat(toks)|
    ensures RunEach(expert, base, Concat(labels), Concat(toks)) == Concat(Pieces(expert, base, 0, labels, toks))
    decreases |labels|
  {
    SameLengths(labels, toks);
    if labels != [] {
      var n := |labels| - 1;
      RunReceived(expert, base, labels[..n], toks[..n]);
      var pieces := Pieces(expert, base, 0, labels, toks);
      assert pieces[..n] == Pieces(expert, base, 0, labels[..n], toks[..n]);
      assert pieces[n] == RunEach(expert, base, labels[n], toks[n]);
      RunEachConcat(expert, base, Concat(labels[..n]), labels[n], Concat(toks[..n]), toks[n]);
    }
  }

  /** Sent pieces, rank r's experts starting at r * epr: running the whole on global labels is running the
      pieces on local ones. */
  lemma {:induction false} RunSent<X, Y>(expert: (nat, X) -> Y, epr: nat, rows: seq<seq<nat>>, toks: seq<seq<X>>)
    requires Rows(rows, epr) && |rows| == |toks| && forall i :: 0 <= i < |rows| ==> Sum(rows[i]) == |toks[i]|
    ensures Sum(Concat(rows)) == |Concat(toks)|
    ensures RunEach(expert, 0, Expand(Concat(rows)), Concat(toks))
            == Concat(Pieces(expert, 0, epr, Expands(rows), toks))
    decreases |rows|
  {
    if rows != [] {
      var n := |rows| - 1;
      RunSent(expert, epr, rows[..n], toks[..n]);
      var before := Concat(rows[..n]);
      var pieces := Pieces(expert, 0, epr, Expands(rows), toks);
      assert pieces[..n] == Pieces(expert, 0, epr, Expands(rows[..n]), toks[..n]);
      ConcatLength(rows[..n], epr);
      SumSplit(before, rows[n]);
      ExpandAppend(before, rows[n]);
      RunEachConcat(expert, 0, Expand(before), Shift(Expand(rows[n]), |before|), Concat(toks[..n]), toks[n]);
      RunShifted(expert, |before|, Expand(rows[n]), toks[n]);
      assert pieces[n] == RunEach(expert, |before|, Expand(rows[n]), toks[n]);
    }
  }

  lemma {:induction false} RunShifted<X, Y>(expert: (nat, X) -> Y, offset: nat, labels: seq<nat>, toks: seq<X>)
    requires |labels| == |toks|
    ensures RunEach(expert, 0, Shift(labels, offset), toks) == RunEach(expert, offset, labels, toks)
  {
    forall q | 0 <= q < |labels|
      ensures RunEach(expert, 0, Shift(labels, offset), toks)[q] == RunEach(expert, offset, labels, toks)[q]
    {
      assert Shift(labels, offset)[q] == labels[q] + offset;
    }
  }

  function Shift(labels: seq<nat>, offset: nat): (r: seq<nat>)
    ensures |r| == |labels| && forall i :: 0 <= i < |r| ==> r[i] == labels[i] + offset
  {
    seq(|labels|, i requires 0 <= i < |labels| => labels[i] + offset)
  }

  lemma {:induction false} ExpandAppend(a: seq<nat>, b: seq<nat>)
    ensures Expand(a + b) == Expand(a) + Shift(Expand(b), |a|)
    decreases |b|
  {
    if b == [] {
      assert a + b == a;
    } else {
      var n := |b| - 1;
      ExpandAppend(a, b[..n]);
      assert (a + b)[..|a + b| - 1] == a + b[..n];
      ShiftAppend(Expand(b[..n]), n, b[n], |a|);
      assert Expand(a + b) == Expand(a + b[..n]) + Repeat(|a| + n, b[n]);
    }
  }

  lemma {:induction false} ShiftAppend(labels: seq<nat>, v: nat, k: nat, offset: nat)
    ensures Shift(labels + Repeat(v, k), offset) == Shift(labels, offset) + Repeat(offset + v, k)
  {
  }

  // ---- the ranks ------------------------------------------------------------------------------

  /** One rank's batch, and what `argsort` returned for its ids. */
  datatype Rank<X> = Rank(x: seq<X>, ids: seq<seq<int>>, w: seq<seq<real>>, idxs: seq<nat>)

  ghost predicate RankOk<X>(rank: Rank<X>, n: nat, k: nat) {
    && |rank.x| == |rank.ids| == |rank.w| && Rows(rank.ids, k) && Rows(rank.w, k)
    && Permutation(rank.idxs, |rank.x| * k)
    && (InRange(rank.ids, n) ==> IsArgsort(Concat(Labels(rank.ids, n)), rank.idxs))
  }

  /** Every id names an expert and no token repeats one. */
  predicate Routable<X>(rank: Rank<X>, n: nat) {
    InRange(rank.ids, n) && DistinctRows(rank.ids)
  }

  lemma {:induction false} SumRepeat(epr: nat, ranks: nat)
    ensures Sum(Repeat(epr, ranks)) == ranks * epr
    decreases ranks
  {
    var sizes: seq<nat> := Repeat(epr, ranks);
    if ranks == 0 {
      assert sizes == [];
    } else {
      var shorter: seq<nat> := Repeat(epr, ranks - 1);
      assert sizes[..|sizes| - 1] == shorter;
      SumRepeat(epr, ranks - 1);
      assert Sum(sizes) == Sum(shorter) + epr;
    }
  }

  /** `view(ep_size, experts_per_rank)`: a row for each rank. */
  function ByRank(counts: seq<nat>, epr: nat, ranks: nat): (rows: seq<seq<nat>>)
    requires |counts| == ranks * epr
    ensures |rows| == ranks && Rows(rows, epr)
  {
    SumRepeat(epr, ranks);
    Split(counts, Repeat(epr, ranks))
  }

  lemma {:induction false} ByRankParts(counts: seq<nat>, epr: nat, ranks: nat)
    requires |counts| == ranks * epr
    ensures Concat(ByRank(counts, epr, ranks)) == counts
  {
    SumRepeat(epr, ranks);
    ConcatOfSplit(counts, Repeat(epr, ranks));
  }

  lemma {:induction false} ByRankOfConcat(rows: seq<seq<nat>>, epr: nat)
    requires Rows(rows, epr)
    ensures |Concat(rows)| == |rows| * epr && ByRank(Concat(rows), epr, |rows|) == rows
  {
    ConcatLength(rows, epr);
    SplitOfConcat(rows);
    SumRepeat(epr, |rows|);
    assert Lengths(rows) == Repeat(epr, |rows|);
  }

  /** The rank's counts, a row for each destination. */
  function CountRows<X>(rank: Rank<X>, epr: nat, ranks: nat): (rows: seq<seq<nat>>)
    requires InRange(rank.ids, ranks * epr)
    ensures |rows| == ranks && Rows(rows, epr)
  {
    ByRank(TokensPerExpert(Labels(rank.ids, ranks * epr), ranks * epr), epr, ranks)
  }

  /** Up to the two exchanges: counts and sorted tokens, cut up by destination.  Splitting the tokens raises
      exactly when some token repeats an id, for then the counts do not add up to the number of tokens. */
  method SendPhase<X>(rank: Rank<X>, epr: nat, ranks: nat, k: nat)
    returns (r: Result<(seq<seq<nat>>, seq<seq<X>>), Failure>)
    requires RankOk(rank, ranks * epr, k)
    ensures r.Ok? <==> Routable(rank, ranks * epr)
    ensures r.Ok? ==>
              && r.value.0 == CountRows(rank, epr, ranks)
              && |r.value.1| == ranks
              && (forall d :: 0 <= d < ranks ==> |r.value.1[d]| == Sum(r.value.0[d]))
              && Concat(r.value.1) == SortedTokens(rank.x, rank.idxs, k)
  {
    var n := ranks * epr;
    if !InRange(rank.ids, n) {
      return Err(IndexOutOfRange);
    }
    var rows := Labels(rank.ids, n);
    SameDistinct(rank.ids, n);
    ConcatLength(rows, k);
    CountsAddUp(rows, n);
    var tokensPerExpert := TokensPerExpert(rows, n);
    var countRows := ByRank(tokensPerExpert, epr, ranks);
    ByRankParts(tokensPerExpert, epr, ranks);
    SumOfConcat(countRows);
    var inputSplits := Sums(countRows);
    var sortedTokens := SortedTokens(rank.x, rank.idxs, k);
    if Sum(inputSplits) != |sortedTokens| {
      return Err(SplitMismatch);
    }
    ConcatOfSplit(sortedTokens, inputSplits);
    r := Ok((countRows, Split(sortedTokens, inputSplits)));
  }

  /** Sort by label, run each label's expert on its block, put the results back where they came from. */
  method RunGrouped<X, Y>(expert: (nat, X) -> Y, base: nat, labels: seq<nat>, tokens: seq<X>, perm: seq<nat>,
                          counts: seq<nat>)
    returns (newX: seq<Y>)
    requires IsArgsort(labels, perm) && IsHistogram(counts, labels) && |labels| == |tokens| == Sum(counts)
    ensures newX == RunEach(expert, base, labels, tokens)
  {
    var outs := RunExperts(expert, base, counts, Pick(tokens, perm));
    var scattered := ScatterRows(perm, outs);
    newX := scattered.value;
    DispatchIsPointwise(expert, base, labels, tokens, perm, counts, newX);
  }

  /** Between the exchanges, on the rank whose experts start at `base`: regroup what arrived by local expert, run
      the experts, undo the regrouping, and cut the result up by where the tokens came from.  `perm` is the argsort
      of the labels.  What goes back to rank s is each of its tokens through the expert it was sent for, in the
      order sent. */
  method ServePhase<X, Y>(expert: (nat, X) -> Y, base: nat, epr: nat, countsIn: seq<seq<nat>>, tokensIn: seq<seq<X>>,
                          perm: seq<nat>)
    returns (back: seq<seq<Y>>)
    requires epr > 0 && Rows(countsIn, epr) && |countsIn| == |tokensIn|
    requires forall s :: 0 <= s < |countsIn| ==> Sum(countsIn[s]) == |tokensIn[s]|
    requires IsArgsort(ArrivalLabels(Concat(countsIn), epr), perm)
    ensures back == Pieces(expert, base, 0, Expands(countsIn), tokensIn)
  {
    var labels := FillLabels(Concat(countsIn), epr);
    var byRank := ViewByRank(countsIn, epr);
    var counts := SumRows(byRank, epr);
    ArrivedSizes(countsIn, tokensIn, epr);
    var newX := RunGrouped(expert, base, labels, Concat(tokensIn), perm, counts);
    ServedPieces(expert, base, countsIn, tokensIn);
    back := Split(newX, Sums(byRank));
  }

  /** `tokens_per_expert_group.view(ep_size, -1)` gives back the senders' rows. */
  method ViewByRank(countsIn: seq<seq<nat>>, epr: nat) returns (byRank: seq<seq<nat>>)
    requires Rows(countsIn, epr)
    ensures byRank == countsIn
  {
    ByRankOfConcat(countsIn, epr);
    byRank := ByRank(Concat(countsIn), epr, |countsIn|);
  }

  /** What arrived has as many labels as tokens, and the counts after the gather add up to them. */
  lemma {:induction false} ArrivedSizes<X>(countsIn: seq<seq<nat>>, tokensIn: seq<seq<X>>, epr: nat)
    requires epr > 0 && Rows(countsIn, epr) && |countsIn| == |tokensIn|
    requires forall s :: 0 <= s < |countsIn| ==> Sum(countsIn[s]) == |tokensIn[s]|
    ensures ArrivalLabels(Concat(countsIn), epr) == Concat(Expands(countsIn))
    ensures |Concat(Expands(countsIn))| == |Concat(tokensIn)| == Sum(SumRows(countsIn, epr))
    ensures IsHistogram(SumRows(countsIn, epr), Concat(Expands(countsIn)))
  {
    ArrivalIsExpand(countsIn, epr);
    SameLengths(Expands(countsIn), tokensIn);
    SumRowsHistogram(countsIn, epr);
  }

  lemma {:induction false} ServedPieces<X, Y>(expert: (nat, X) -> Y, base: nat, countsIn: seq<seq<nat>>,
                                              tokensIn: seq<seq<X>>)
    requires |countsIn| == |tokensIn| && forall s :: 0 <= s < |countsIn| ==> Sum(countsIn[s]) == |tokensIn[s]|
    ensures |Concat(Expands(countsIn))| == |Concat(tokensIn)| == Sum(Sums(countsIn))
    ensures Split(RunEach(expert, base, Concat(Expands(countsIn)), Concat(tokensIn)), Sums(countsIn))
            == Pieces(expert, base, 0, Expands(countsIn), tokensIn)
  {
    RunReceived(expert, base, Expands(countsIn), tokensIn);
    var pieces := Pieces(expert, base, 0, Expands(countsIn), tokensIn);
    SplitOfConcat(pieces);
    assert Sums(countsIn) == Lengths(pieces);
  }

  /** What a rank puts into the two exchanges. */
  ghost predicate Sent<X>(rank: Rank<X>, countRows: seq<seq<nat>>, toks: seq<seq<X>>, epr: nat, ranks: nat, k: nat)
    requires RankOk(rank, ranks * epr, k)
  {
    && Routable(rank, ranks * epr)
    && countRows == CountRows(rank, epr, ranks)
    && |toks| == ranks
    && (forall d :: 0 <= d < ranks ==> |toks[d]| == Sum(countRows[d]))
    && Concat(toks) == SortedTokens(rank.x, rank.idxs, k)
  }

  /** Every rank's part before the exchanges; one rank raising ends the run, for the others wait for it. */
  method SendAll<X>(world: seq<Rank<X>>, epr: nat, k: nat)
    returns (r: Result<(seq<seq<seq<nat>>>, seq<seq<seq<X>>>), Failure>)
    requires forall s :: 0 <= s < |world| ==> RankOk(world[s], |world| * epr, k)
    ensures r.Ok? <==> forall s :: 0 <= s < |world| ==> Routable(world[s], |world| * epr)
    ensures r.Ok? ==> |r.value.0| == |r.value.1| == |world|
    ensures r.Ok? ==> forall s :: 0 <= s < |world| ==> Sent(world[s], r.value.0[s], r.value.1[s], epr, |world|, k)
  {
    var counts: seq<seq<seq<nat>>> := [];
    var tokens: seq<seq<seq<X>>> := [];
    while |counts| < |world|
      invariant |counts| == |tokens| <= |world|
      invariant forall s :: 0 <= s < |counts| ==> Sent(world[s], counts[s], tokens[s], epr, |world|, k)
    {
      var sent := SendPhase(world[|counts|], epr, |world|, k);
      if sent.Err? {
        return Err(sent.error);
      }
      counts, tokens := counts + [sent.value.0], tokens + [sent.value.1];
    }
    r := Ok((counts, tokens));
  }

  /** A rank has run everything it received, cell by cell: each token through the expert it was sent for. */
  ghost predicate Served<X, Y>(expert: (nat, X) -> Y, base: nat, countsIn: seq<seq<nat>>, tokensIn: seq<seq<X>>,
                               back: seq<seq<Y>>)
  {
    && |countsIn| == |tokensIn| == |back|
    && (forall s :: 0 <= s < |countsIn| ==> Sum(countsIn[s]) == |tokensIn[s]|)
    && back == Pieces(expert, base, 0, Expands(countsIn), tokensIn)
  }

  /** A cell for each pair of ranks, counts and tokens agreeing. */
  ghost predicate Exchangeable<X>(epr: nat, counts: seq<seq<seq<nat>>>, tokens: seq<seq<seq<X>>>) {
    && |counts| == |tokens|
    && (forall s :: 0 <= s < |counts| ==> |counts[s]| == |tokens[s]| == |counts| && Rows(counts[s], epr))
    && (forall s, r :: 0 <= s < |counts| && 0 <= r < |counts| ==> Sum(counts[s][r]) == |tokens[s][r]|)
  }

  /** Every rank has served what it received. */
  ghost predicate Exchanged<X, Y>(expert: (nat, X) -> Y, epr: nat, counts: seq<seq<seq<nat>>>,
                                  tokens: seq<seq<seq<X>>>, back: seq<seq<seq<Y>>>)
  {
    && Exchangeable(epr, counts, tokens) && |back| == |counts|
    && forall r :: 0 <= r < |counts| ==>
         Served(expert, r * epr, Received(counts, r), Received(tokens, r), back[r])
  }

  /** Every rank's part between the exchanges. */
  method ServeAll<X, Y>(expert: (nat, X) -> Y, epr: nat, counts: seq<seq<seq<nat>>>, tokens: seq<seq<seq<X>>>,
                        argsort: (nat, seq<nat>) -> seq<nat>)
    returns (back: seq<seq<seq<Y>>>)
    requires epr > 0 && Exchangeable(epr, counts, tokens)
    requires forall me, labels :: IsArgsort(labels, argsort(me, labels))
    ensures Exchanged(expert, epr, counts, tokens, back)
  {
    back := [];
    while |back| < |counts|
      invariant |back| <= |counts|
      invariant forall r :: 0 <= r < |back| ==>
                  Served(expert, r * epr, Received(counts, r), Received(tokens, r), back[r])
    {
      var me := |back|;
      var countsIn, tokensIn := Received(counts, me), Received(tokens, me);
      var order := argsort(me, ArrivalLabels(Concat(countsIn), epr));
      var results := ServePhase(expert, me * epr, epr, countsIn, tokensIn, order);
      back := back + [results];
    }
  }

  lemma {:induction false} ServedCell<X, Y>(expert: (nat, X) -> Y, base: nat, countsIn: seq<seq<nat>>,
                                            tokensIn: seq<seq<X>>, back: seq<seq<Y>>, s: nat)
    requires Served(expert, base, countsIn, tokensIn, back) && s < |countsIn|
    ensures s < |back| && back[s] == RunEach(expert, base, Expand(countsIn[s]), tokensIn[s])
  {
  }

  /** After the exchange back, sender s holds its own tokens run through their experts, in sorted order. */
  lemma {:induction false} ReturnedIsRun<X, Y>(expert: (nat, X) -> Y, epr: nat, counts: seq<seq<seq<nat>>>,
                                               tokens: seq<seq<seq<X>>>, back: seq<seq<seq<Y>>>, s: nat)
    requires Exchanged(expert, epr, counts, tokens, back) && s < |counts|
    ensures Sum(Concat(counts[s])) == |Concat(tokens[s])|
    ensures HasColumn(back, s)
    ensures Concat(Received(back, s)) == RunEach(expert, 0, Expand(Concat(counts[s])), Concat(tokens[s]))
  {
    RunSent(expert, epr, counts[s], tokens[s]);
    var pieces := Pieces(expert, 0, epr, Expands(counts[s]), tokens[s]);
    assert HasColumn(back, s) && Received(back, s) == pieces by {
      ReturnedCells(expert, epr, counts, tokens, back, s);
    }
  }

  lemma {:induction false} ReturnedCells<X, Y>(expert: (nat, X) -> Y, epr: nat, counts: seq<seq<seq<nat>>>,
                                               tokens: seq<seq<seq<X>>>, back: seq<seq<seq<Y>>>, s: nat)
    requires Exchanged(expert, epr, counts, tokens, back) && s < |counts|
    ensures HasColumn(back, s)
    ensures Received(back, s) == Pieces(expert, 0, epr, Expands(counts[s]), tokens[s])
  {
    var pieces := Pieces(expert, 0, epr, Expands(counts[s]), tokens[s]);
    forall r | 0 <= r < |back| ensures s < |back[r]| && back[r][s] == pieces[r] {
      ServedCell(expert, r * epr, Received(counts, r), Received(tokens, r), back[r], s);
    }
  }

  /** What came back to a rank is, in sorted order, its tokens run through their experts. */
  ghost predicate Returned<X, Y>(expert: (nat, X) -> Y, rank: Rank<X>, n: nat, k: nat, parts: seq<seq<Y>>)
    requires RankOk(rank, n, k) && Routable(rank, n)
  {
    var counts := TokensPerExpert(Labels(rank.ids, n), n);
    && Sum(counts) == |rank.x| * k
    && Concat(parts) == RunEach(expert, 0, Expand(counts), SortedTokens(rank.x, rank.idxs, k))
  }

  /** The tail of `moe_infer`: undo the sort, weigh and sum. */
  method CombinePhase<X>(expert: (nat, X) -> Vec, rank: Rank<X>, n: nat, k: nat, h: nat, parts: seq<seq<Vec>>)
    returns (r: Result<seq<Vec>, Failure>)
    requires RankOk(rank, n, k) && Routable(rank, n) && Returned(expert, rank, n, k, parts)
    ensures r == Finished(expert, rank, n, k, h)
  {
    var rows := Labels(rank.ids, n);
    SameDistinct(rank.ids, n);
    ConcatLength(rows, k);
    CountsAddUp(rows, n);
    var newX := ScatterRows(rank.idxs, Concat(parts));
    if |newX.value| == 0 {
      return Err(AmbiguousView);
    }
    PutBackIsNaive(expert, rank.x, rows, rank.w, k, h, n, rank.idxs, newX.value);
    r := Ok(Finish(newX.value, rank.w, k, h));
  }

  /** What `moe_infer` on one rank holding all experts yields for a routable batch (see `MoeDispatch.MoeInfer`). */
  ghost function Finished<X>(expert: (nat, X) -> Vec, rank: Rank<X>, n: nat, k: nat, h: nat): Result<seq<Vec>, Failure>
    requires RankOk(rank, n, k) && Routable(rank, n)
  {
    if |rank.x| * k == 0 then Err(AmbiguousView)
    else Ok(Naive(expert, rank.x, Labels(rank.ids, n), rank.w, k, h))
  }

  /** Every rank's part after the exchange back. */
  method CombineAll<X>(expert: (nat, X) -> Vec, world: seq<Rank<X>>, n: nat, k: nat, h: nat,
                       back: seq<seq<seq<Vec>>>)
    returns (results: seq<Result<seq<Vec>, Failure>>)
    requires |world| == |back|
    requires forall s :: 0 <= s < |world| ==> RankOk(world[s], n, k) && Routable(world[s], n)
    requires forall s :: 0 <= s < |world| ==> HasColumn(back, s)
    requires forall s :: 0 <= s < |world| ==> Returned(expert, world[s], n, k, Received(back, s))
    ensures EachFinished(expert, world, n, k, h, results)
  {
    results := [];
    while |results| < |world|
      invariant FirstFinished(expert, world, n, k, h, results)
    {
      var s := |results|;
      var result := CombinePhase(expert, world[s], n, k, h, Received(back, s));
      OneMoreFinished(expert, world, n, k, h, results, result);
      results := results + [result];
    }
  }

  /** The results so far are those of the first ranks. */
  ghost predicate FirstFinished<X>(expert: (nat, X) -> Vec, world: seq<Rank<X>>, n: nat, k: nat, h: nat,
                                   results: seq<Result<seq<Vec>, Failure>>)
    requires forall s :: 0 <= s < |world| ==> RankOk(world[s], n, k) && Routable(world[s], n)
  {
    |results| <= |world| && forall s :: 0 <= s < |results| ==> results[s] == Finished(expert, world[s], n, k, h)
  }

  lemma {:induction false} OneMoreFinished<X>(expert: (nat, X) -> Vec, world: seq<Rank<X>>, n: nat, k: nat, h: nat,
                                              results: seq<Result<seq<Vec>, Failure>>,
                                              result: Result<seq<Vec>, Failure>)
    requires forall s :: 0 <= s < |world| ==> RankOk(world[s], n, k) && Routable(world[s], n)
    requires FirstFinished(expert, world, n, k, h, results) && |results| < |world|
    requires result == Finished(expert, world[|results|], n, k, h)
    ensures FirstFinished(expert, world, n, k, h, results + [result])
  {
  }

  lemma {:induction false} SentWhole<X>(rank: Rank<X>, countRows: seq<seq<nat>>, toks: seq<seq<X>>, epr: nat,
                                        ranks: nat, k: nat)
    requires RankOk(rank, ranks * epr, k) && Sent(rank, countRows, toks, epr, ranks, k)
    ensures Concat(countRows) == TokensPerExpert(Labels(rank.ids, ranks * epr), ranks * epr)
    ensures Concat(toks) == SortedTokens(rank.x, rank.idxs, k)
  {
    ByRankParts(TokensPerExpert(Labels(rank.ids, ranks * epr), ranks * epr), epr, ranks);
  }

  lemma {:induction false} SentShapes<X>(world: seq<Rank<X>>, counts: seq<seq<seq<nat>>>, tokens: seq<seq<seq<X>>>,
                                         epr: nat, k: nat)
    requires |world| == |counts| == |tokens|
    requires forall s :: 0 <= s < |world| ==> RankOk(world[s], |world| * epr, k)
    requires forall s :: 0 <= s < |world| ==> Sent(world[s], counts[s], tokens[s], epr, |world|, k)
    ensures Exchangeable(epr, counts, tokens)
  {
    forall s | 0 <= s < |counts| ensures |counts[s]| == |tokens[s]| == |counts| && Rows(counts[s], epr) {
      assert Sent(world[s], counts[s], tokens[s], epr, |world|, k);
    }
    forall s, r | 0 <= s < |counts| && 0 <= r < |counts| ensures Sum(counts[s][r]) == |tokens[s][r]| {
      assert Sent(world[s], counts[s], tokens[s], epr, |world|, k);
    }
  }

  lemma {:induction false} ReturnedToSender<X, Y>(expert: (nat, X) -> Y, rank: Rank<X>, countRows: seq<seq<nat>>,
                                                  toks: seq<seq<X>>, epr: nat, ranks: nat, k: nat, parts: seq<seq<Y>>)
    requires RankOk(rank, ranks * epr, k) && Sent(rank, countRows, toks, epr, ranks, k)
    requires Sum(Concat(countRows)) == |Concat(toks)|
    requires Concat(parts) == RunEach(expert, 0, Expand(Concat(countRows)), Concat(toks))
    ensures Routable(rank, ranks * epr) && Returned(expert, rank, ranks * epr, k, parts)
  {
    SentWhole(rank, countRows, toks, epr, ranks, k);
  }

  lemma {:induction false} AllReturned<X, Y>(expert: (nat, X) -> Y, world: seq<Rank<X>>, epr: nat, k: nat,
                                             counts: seq<seq<seq<nat>>>, tokens: seq<seq<seq<X>>>,
                                             back: seq<seq<seq<Y>>>)
    requires |world| == |counts| == |tokens| == |back|
    requires forall s :: 0 <= s < |world| ==> RankOk(world[s], |world| * epr, k)
    requires forall s :: 0 <= s < |world| ==> Sent(world[s], counts[s], tokens[s], epr, |world|, k)
    requires Exchanged(expert, epr, counts, tokens, back)
    ensures forall s :: 0 <= s < |world| ==> RankOk(world[s], |world| * epr, k) && Routable(world[s], |world| * epr)
    ensures forall s :: 0 <= s < |world| ==> HasColumn(back, s)
    ensures forall s :: 0 <= s < |world| ==> Returned(expert, world[s], |world| * epr, k, Received(back, s))
  {
    forall s | 0 <= s < |world|
      ensures Routable(world[s], |world| * epr) && HasColumn(back, s)
      ensures Returned(expert, world[s], |world| * epr, k, Received(back, s))
    {
      ReturnedIsRun(expert, epr, counts, tokens, back, s);
      ReturnedToSender(expert, world[s], counts[s], tokens[s], epr, |world|, k, Received(back, s));
    }
  }

  ghost predicate EachFinished<X>(expert: (nat, X) -> Vec, world: seq<Rank<X>>, n: nat, k: nat, h: nat,
                                  results: seq<Result<seq<Vec>, Failure>>)
    requires forall s :: 0 <= s < |world| ==> RankOk(world[s], n, k) && Routable(world[s], n)
  {
    |results| == |world| && FirstFinished(expert, world, n, k, h, results)
  }

  /** A rank gets what its own tokens' weights and experts make of them, wherever the experts are; an empty batch
      fails. */
  predicate Mixed<X>(expert: (nat, X) -> Vec, rank: Rank<X>, n: nat, k: nat, h: nat, result: Result<seq<Vec>, Failure>)
    requires |rank.x| == |rank.ids| == |rank.w| && Rows(rank.ids, k) && Rows(rank.w, k) && InRange(rank.ids, n)
  {
    if |rank.x| * k == 0 then result == Err(AmbiguousView)
    else result.Ok? && IsMixture(expert, rank.x, rank.ids, rank.w, h, result.value)
  }

  lemma {:induction false} FinishedIsMixed<X>(expert: (nat, X) -> Vec, rank: Rank<X>, n: nat, k: nat, h: nat)
    requires RankOk(rank, n, k) && Routable(rank, n)
    ensures Mixed(expert, rank, n, k, h, Finished(expert, rank, n, k, h))
  {
    NaiveIsMixture(expert, rank.x, rank.ids, rank.w, k, h, n);
  }

  /** `moe_infer` on all ranks, `epr` experts each; `argsort(me, ..)` is the sort rank `me` applies to the labels
      it receives.  All ranks get through the exchanges exactly when every rank's batch is routable and there are
      experts at all; then each gets what it would get holding all the experts itself. */
  method MoeInferParallel<X>(expert: (nat, X) -> Vec, world: seq<Rank<X>>, epr: nat, k: nat, h: nat,
                             argsort: (nat, seq<nat>) -> seq<nat>)
    returns (r: Result<seq<Result<seq<Vec>, Failure>>, Failure>)
    requires forall s :: 0 <= s < |world| ==> RankOk(world[s], |world| * epr, k)
    requires forall me, labels :: IsArgsort(labels, argsort(me, labels))
    ensures r.Ok? <==> epr > 0 && forall s :: 0 <= s < |world| ==> Routable(world[s], |world| * epr)
    ensures r.Ok? ==> EachFinished(expert, world, |world| * epr, k, h, r.value)
    ensures r.Ok? ==>
              && |r.value| == |world|
              && forall s :: 0 <= s < |world| ==>
                   && RankOk(world[s], |world| * epr, k) && Routable(world[s], |world| * epr)
                   && Mixed(expert, world[s], |world| * epr, k, h, r.value[s])
  {
    var sent := SendAll(world, epr, k);
    if sent.Err? {
      return Err(sent.error);
    }
    if epr == 0 {
      return Err(AmbiguousView);
    }
    var counts, tokens := sent.value.0, sent.value.1;
    SentShapes(world, counts, tokens, epr, k);
    var back := ServeAll(expert, epr, counts, tokens, argsort);
    AllReturned(expert, world, epr, k, counts, tokens, back);
    var results := CombineAll(expert, world, |world| * epr, k, h, back);
    forall s | 0 <= s < |world| ensures Mixed(expert, world[s], |world| * epr, k, h, results[s]) {
      FinishedIsMixed(expert, world[s], |world| * epr, k, h);
    }
    r := Ok(results);
  }
}
