/** The in-place tree reduction of `operators/reduce.hpp`: `data[0]` ends up holding the sum of all the groups. */
module Reduce {
  import opened Sequences
  import opened Vectors

  /** What the groups hold. */
  ghost function Contents(data: seq<array<real>>): (r: seq<seq<real>>)
    reads data
    ensures |r| == |data| && forall k :: 0 <= k < |r| ==> r[k] == data[k][..]
  {
    seq(|data|, k requires 0 <= k < |data| reads data => data[k][..])
  }

  /** Every group reaches position n. */
  predicate Reach(groups: seq<seq<real>>, n: nat) {
    forall k :: 0 <= k < |groups| ==> n <= |groups[k]|
  }

  /** Position i of every group. */
  function Column(groups: seq<seq<real>>, i: nat): (r: seq<real>)
    requires Reach(groups, i + 1)
    ensures |r| == |groups| && forall k :: 0 <= k < |r| ==> r[k] == groups[k][i]
  {
    seq(|groups|, k requires 0 <= k < |groups| => groups[k][i])
  }

  /** Only positions begin .. end have changed. */
  predicate SameOutside(before: seq<seq<real>>, after: seq<seq<real>>, begin: nat, end: nat) {
    && |after| == |before|
    && (forall k :: 0 <= k < |before| ==> |after[k]| == |before[k]|)
    && (forall k, i :: 0 <= k < |before| && 0 <= i < |before[k]| && !(begin <= i < end) ==> after[k][i] == before[k][i])
  }

  /** Column by column, the tree reduction of positions begin .. end. */
  predicate IsReduced(before: seq<seq<real>>, after: seq<seq<real>>, begin: nat, end: nat) {
    && Reach(before, end) && Reach(after, end) && SameOutside(before, after, begin, end)
    && (forall i :: begin <= i < end ==> Column(after, i) == Reduced(Column(before, i)))
  }

  /** What the recursion leaves in one column: pairs are added like leaves of a tree, the left one keeping the sum. */
  function Reduced(c: seq<real>): (r: seq<real>)
    ensures |r| == |c|
    decreases |c|
  {
    if |c| <= 1 then c
    else if |c| == 2 then [c[0] + c[1], c[1]]
    else
      var part1 := |c| / 2;
      var left, right := Reduced(c[..part1]), Reduced(c[part1..]);
      (left + right)[0 := left[0] + right[0]]
  }

  lemma {:induction false} ReducedStep(c: seq<real>, p: nat, left: seq<real>, right: seq<real>)
    requires |c| > 2 && p == |c| / 2 && left == Reduced(c[..p]) && right == Reduced(c[p..])
    ensures |left| == p && |right| == |c| - p
    ensures Reduced(c) == (left + right)[0 := left[0] + right[0]]
  {
  }

  /** The tree's root holds the sum of the column. */
  lemma {:induction false} ReducedHead(c: seq<real>)
    requires c != []
    ensures Reduced(c)[0] == Total(c)
    decreases |c|
  {
    if |c| == 1 {
      TotalOfOne(c[0]);
      assert c == [c[0]];
    } else if |c| == 2 {
      assert c[..1][..0] == [] && c[..1][0] == c[0];
      assert Total(c[..1]) == c[0];
    } else {
      var part1 := |c| / 2;
      var left, right := c[..part1], c[part1..];
      ReducedHead(left);
      ReducedHead(right);
      ReducedStep(c, part1, Reduced(left), Reduced(right));
      assert Total(c) == Total(left) + Total(right) by {
        TotalSplit(left, right);
        assert c == left + right;
      }
    }
  }

  /** Two reduced parts, the second one's head then added to the first one's. */
  lemma {:induction false} PartsJoin(before: seq<seq<real>>, parts: seq<seq<real>>, after: seq<seq<real>>, begin: nat,
                                     end: nat)
    requires |before| == |parts| == |after| > 2
    requires IsReduced(before[..|before| / 2], parts[..|before| / 2], begin, end)
    requires IsReduced(before[|before| / 2..], parts[|before| / 2..], begin, end)
    requires SameOutside(parts, after, begin, end)
    requires forall k :: 1 <= k < |after| ==> after[k] == parts[k]
    requires forall i :: begin <= i < end && i < |parts[0]| && i < |parts[|before| / 2]| ==>
               after[0][i] == parts[0][i] + parts[|before| / 2][i]
    ensures IsReduced(before, after, begin, end)
  {
    var p := |before| / 2;
    PartsReach(before, p, end);
    PartsReach(parts, p, end);
    SameInParts(before, parts, begin, end, p);
    forall i | begin <= i < end ensures Column(after, i) == Reduced(Column(before, i)) {
      ColumnJoin(before, parts, after, p, i);
    }
  }

  lemma {:induction false} SameInParts(before: seq<seq<real>>, parts: seq<seq<real>>, begin: nat, end: nat, p: nat)
    requires p <= |before| == |parts|
    requires SameOutside(before[..p], parts[..p], begin, end) && SameOutside(before[p..], parts[p..], begin, end)
    ensures SameOutside(before, parts, begin, end)
  {
    forall k | 0 <= k < |before| ensures |parts[k]| == |before[k]| {
      if k < p { assert before[..p][k] == before[k]; } else { assert before[p..][k - p] == before[k]; }
    }
    forall k, i | 0 <= k < |before| && 0 <= i < |before[k]| && !(begin <= i < end) ensures parts[k][i] == before[k][i] {
      if k < p { assert before[..p][k] == before[k]; } else { assert before[p..][k - p] == before[k]; }
    }
  }

  lemma {:induction false} PartsReach(groups: seq<seq<real>>, p: nat, n: nat)
    requires p <= |groups| && Reach(groups[..p], n) && Reach(groups[p..], n)
    ensures Reach(groups, n)
  {
    forall k | 0 <= k < |groups| ensures n <= |groups[k]| {
      if k < p { assert groups[..p][k] == groups[k]; } else { assert groups[p..][k - p] == groups[k]; }
    }
  }

  lemma {:induction false} ColumnJoin(before: seq<seq<real>>, parts: seq<seq<real>>, after: seq<seq<real>>, p: nat,
                                      i: nat)
    requires |before| == |parts| == |after| > 2 && p == |before| / 2
    requires Reach(before, i + 1) && Reach(parts, i + 1) && Reach(after, i + 1)
    requires Column(parts[..p], i) == Reduced(Column(before[..p], i))
    requires Column(parts[p..], i) == Reduced(Column(before[p..], i))
    requires forall k :: 1 <= k < |after| ==> after[k] == parts[k]
    requires after[0][i] == parts[0][i] + parts[p][i]
    ensures Column(after, i) == Reduced(Column(before, i))
  {
    ColumnParts(before, p, i);
    ReducedStep(Column(before, i), p, Column(parts[..p], i), Column(parts[p..], i));
    JoinedColumn(parts, after, p, i);
  }

  lemma {:induction false} JoinedColumn(parts: seq<seq<real>>, after: seq<seq<real>>, p: nat, i: nat)
    requires 0 < p < |after| == |parts| && Reach(parts, i + 1) && Reach(after, i + 1)
    requires forall k :: 1 <= k < |after| ==> after[k] == parts[k]
    requires after[0][i] == parts[0][i] + parts[p][i]
    ensures var left, right := Column(parts[..p], i), Column(parts[p..], i);
            |left| > 0 && |right| > 0 && Column(after, i) == (left + right)[0 := left[0] + right[0]]
  {
  }

  lemma {:induction false} ColumnParts(parts: seq<seq<real>>, p: nat, i: nat)
    requires p <= |parts| && Reach(parts, i + 1)
    ensures Column(parts[..p], i) == Column(parts, i)[..p] && Column(parts[p..], i) == Column(parts, i)[p..]
  {
  }

  /** `reduce_sum(data, data_groups_count, begin, end)`.  Positions begin .. end of every group become what the tree
      reduction of that column leaves; nothing else changes. */
  method ReduceSum(data: seq<array<real>>, begin: nat, end: nat)
    requires Distinct(data) && Reach(Contents(data), end)
    modifies data
    ensures IsReduced(old(Contents(data)), Contents(data), begin, end)
    decreases |data|, 1
  {
    ghost var before := Contents(data);
    if |data| <= 1 {
    } else if |data| == 2 {
      AddRange(data[0], data[1], begin, end);
      PairIsReduced(before, Contents(data), begin, end);
    } else {
      var part1 := |data| / 2;
      Halves(data, part1, end);
      ReduceBoth(data[..part1], data[part1..], begin, end);
      AddHalves(data, begin, end, before);
    }
  }

  /** Both halves are reduced; the second one's first group is added into the first one's. */
  method AddHalves(data: seq<array<real>>, begin: nat, end: nat, ghost before: seq<seq<real>>)
    requires Distinct(data) && |before| == |data| > 2 && Reach(before, end)
    requires IsReduced(before[..|data| / 2], Contents(data[..|data| / 2]), begin, end)
    requires IsReduced(before[|data| / 2..], Contents(data[|data| / 2..]), begin, end)
    requires forall k :: 0 <= k < |data| ==> data[k].Length == |before[k]|
    modifies data[0]
    ensures IsReduced(before, Contents(data), begin, end)
  {
    ghost var parts := Contents(data);
    ContentsOfHalves(data, |data| / 2);
    AddRange(data[0], data[|data| / 2], begin, end);
    PartsJoin(before, parts, Contents(data), begin, end);
  }

  lemma {:induction false} ContentsOfHalves(data: seq<array<real>>, p: nat)
    requires p <= |data|
    ensures Contents(data[..p]) == Contents(data)[..p] && Contents(data[p..]) == Contents(data)[p..]
  {
  }

  lemma {:induction false} Halves(data: seq<array<real>>, p: nat, n: nat)
    requires Distinct(data) && p <= |data| && Reach(Contents(data), n)
    ensures Distinct(data[..p]) && Distinct(data[p..]) && Apart(data[..p], data[p..])
    ensures Contents(data[..p]) == Contents(data)[..p] && Contents(data[p..]) == Contents(data)[p..]
    ensures Reach(Contents(data[..p]), n) && Reach(Contents(data[p..]), n)
  {
    ContentsOfHalves(data, p);
  }

  predicate Apart(left: seq<array<real>>, right: seq<array<real>>) {
    forall j, k :: 0 <= j < |left| && 0 <= k < |right| ==> left[j] != right[k]
  }

  /** The two recursive calls: neither touches the other's groups. */
  method ReduceBoth(left: seq<array<real>>, right: seq<array<real>>, begin: nat, end: nat)
    requires Distinct(left) && Distinct(right) && Apart(left, right)
    requires Reach(Contents(left), end) && Reach(Contents(right), end)
    modifies left, right
    ensures IsReduced(old(Contents(left)), Contents(left), begin, end)
    ensures IsReduced(old(Contents(right)), Contents(right), begin, end)
    decreases if |left| > |right| then |left| else |right|, 2
  {
    ReduceSum(left, begin, end);
    ghost var done := Contents(left);
    assert Contents(right) == old(Contents(right));
    ReduceSum(right, begin, end);
    assert Contents(left) == done;
  }

  lemma {:induction false} PairIsReduced(before: seq<seq<real>>, after: seq<seq<real>>, begin: nat, end: nat)
    requires |before| == |after| == 2 && Reach(before, end) && SameOutside(before, after, begin, end)
    requires after[1] == before[1]
    requires forall i :: begin <= i < end ==> after[0][i] == before[0][i] + before[1][i]
    ensures IsReduced(before, after, begin, end)
  {
    forall i | begin <= i < end ensures Column(after, i) == Reduced(Column(before, i)) {
      assert Column(after, i) == [before[0][i] + before[1][i], before[1][i]];
    }
  }

  method AddRange(a: array<real>, b: array<real>, begin: nat, end: nat)
    requires a != b && end <= a.Length && end <= b.Length
    modifies a
    ensures forall i :: begin <= i < end ==> a[i] == old(a[i]) + b[i]
    ensures forall i :: 0 <= i < a.Length && !(begin <= i < end) ==> a[i] == old(a[i])
  {
    var i := begin;
    while i < end
      invariant begin <= i && (i == begin || i <= end)
      invariant forall p :: begin <= p < i ==> a[p] == old(a[p]) + b[p]
      invariant forall p :: 0 <= p < a.Length && !(begin <= p < i) ==> a[p] == old(a[p])
    {
      a[i] := a[i] + b[i];
      i := i + 1;
    }
  }

  /** What callers want from it: the first group holds the sums. */
  lemma {:induction false} HeadIsSum(before: seq<seq<real>>, after: seq<seq<real>>, begin: nat, end: nat, i: nat)
    requires IsReduced(before, after, begin, end) && before != [] && begin <= i < end
    ensures after[0][i] == Total(Column(before, i))
  {
    ReducedHead(Column(before, i));
    assert Column(after, i)[0] == after[0][i];
  }

  /** Some calls, one after the other: call j takes the groups from states[j] to states[j + 1]. */
  predicate AreCalls(states: seq<seq<seq<real>>>, ranges: seq<(nat, nat)>) {
    && |states| == |ranges| + 1
    && forall j :: 0 <= j < |ranges| ==> IsReduced(states[j], states[j + 1], ranges[j].0, ranges[j].1)
  }

  predicate In(range: (nat, nat), i: nat) {
    range.0 <= i < range.1
  }

  predicate Covered(ranges: seq<(nat, nat)>, i: nat) {
    exists j :: 0 <= j < |ranges| && In(ranges[j], i)
  }

  ghost predicate Disjoint(ranges: seq<(nat, nat)>) {
    forall j, k, i: nat :: 0 <= j < k < |ranges| && In(ranges[j], i) ==> !In(ranges[k], i)
  }

  /** Calls on disjoint ranges, in any order, compose to the reduction of the union of the ranges. */
  lemma {:induction false} RangesCompose(states: seq<seq<seq<real>>>, ranges: seq<(nat, nat)>, i: nat)
    requires AreCalls(states, ranges) && Disjoint(ranges) && Reach(states[0], i + 1)
    ensures Reach(states[|ranges|], i + 1) && |states[|ranges|]| == |states[0]|
    ensures Column(states[|ranges|], i)
            == if Covered(ranges, i) then Reduced(Column(states[0], i)) else Column(states[0], i)
    decreases |ranges|
  {
    if ranges != [] {
      var n := |ranges| - 1;
      RangesCompose(states[..n + 1], ranges[..n], i);
      var was, now := states[n], states[n + 1];
      assert IsReduced(was, now, ranges[n].0, ranges[n].1);
      if In(ranges[n], i) {
        assert Covered(ranges, i);
        assert !Covered(ranges[..n], i);
      } else {
        assert Column(now, i) == Column(was, i);
        CoveredBefore(ranges, i);
      }
    }
  }

  lemma {:induction false} CoveredBefore(ranges: seq<(nat, nat)>, i: nat)
    requires ranges != [] && !In(ranges[|ranges| - 1], i)
    ensures Covered(ranges, i) <==> Covered(ranges[..|ranges| - 1], i)
  {
    var front := ranges[..|ranges| - 1];
    if Covered(ranges, i) {
      var j :| 0 <= j < |ranges| && In(ranges[j], i);
      assert In(front[j], i);
    }
    if Covered(front, i) {
      var j :| 0 <= j < |front| && In(front[j], i);
      assert In(ranges[j], i);
    }
  }
}
