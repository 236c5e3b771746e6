/**
 Splitting a batch's routed experts into the ones a layer runs at once and the ones it defers
 (`BaseMoEWrapper.select_deferred_experts` in `python/experts_base.py`).
 */
module Deferral {
  import opened Prelude
  import opened Sequences

  type Ids = seq<seq<int>>
  type Scores = seq<seq<real>>

  datatype Failure = IndexOutOfRange

  predicate Shaped<T>(m: seq<seq<T>>, rows: nat, cols: nat) {
    |m| == rows && forall t :: 0 <= t < rows ==> |m[t]| == cols
  }

  /** `torch.topk` along a row: k different positions, none of the others scoring above any of them.  Which
      positions win among equal scores, and in which order they come, is left open. */
  ghost predicate IsTopK(row: seq<real>, k: nat, chosen: seq<nat>) {
    && |chosen| == k
    && (forall i :: 0 <= i < k ==> chosen[i] < |row|)
    && (forall i, j :: 0 <= i < j < k ==> chosen[i] != chosen[j])
    && (forall i, j :: 0 <= i < k && 0 <= j < |row| && j !in chosen ==> row[j] <= row[chosen[i]])
  }

  function Clamp(protectedK: int, topk: nat): (k: nat)
    ensures k <= topk
    ensures 0 <= protectedK <= topk ==> k == protectedK
    ensures protectedK <= 0 ==> k == 0
    ensures topk <= protectedK ==> k == topk
  {
    if protectedK < 0 then 0 else if protectedK > topk then topk else protectedK
  }

  /** `torch.gather(ids, -1, chosen)`. */
  function Gather(ids: Ids, chosen: seq<seq<nat>>): (r: Ids)
    requires |chosen| == |ids|
    requires forall t, i :: 0 <= t < |ids| && 0 <= i < |chosen[t]| ==> chosen[t][i] < |ids[t]|
    ensures |r| == |ids|
    ensures forall t :: 0 <= t < |r| ==> |r[t]| == |chosen[t]|
    ensures forall t, i :: 0 <= t < |r| && 0 <= i < |r[t]| ==> r[t][i] == ids[t][chosen[t][i]]
  {
    seq(|ids|, t requires 0 <= t < |ids| =>
      seq(|chosen[t]|, i requires 0 <= i < |chosen[t]| => ids[t][chosen[t][i]]))
  }

  /** `flag.scatter_(0, index, 1)`. */
  function Scatter(flag: seq<int>, index: seq<int>): (r: seq<int>)
    requires forall i :: 0 <= i < |index| ==> 0 <= index[i] < |flag|
    decreases |index|
    ensures |r| == |flag|
    ensures forall e :: 0 <= e < |flag| ==> r[e] == if e in index then 1 else flag[e]
  {
    if index == [] then flag
    else
      assert forall e :: e in index <==> e == index[0] || e in index[1..];
      Scatter(flag[index[0] := 1], index[1..])
  }

  predicate AllInRange(ids: Ids, numExperts: nat) {
    forall t, j :: 0 <= t < |ids| && 0 <= j < |ids[t]| ==> 0 <= ids[t][j] < numExperts
  }

  /** `ids.masked_fill(mask == keep, -1)`: the id where the flag of its expert is `keep`, -1 elsewhere. */
  function Masked(ids: Ids, flag: seq<int>, keep: bool): (r: Ids)
    requires AllInRange(ids, |flag|)
    ensures |r| == |ids|
    ensures forall t :: 0 <= t < |ids| ==> |r[t]| == |ids[t]|
    ensures forall t, j :: 0 <= t < |ids| && 0 <= j < |ids[t]| ==>
              r[t][j] == if (flag[ids[t][j]] != 0) == keep then ids[t][j] else -1
  {
    seq(|ids|, t requires 0 <= t < |ids| =>
      seq(|ids[t]|, j requires 0 <= j < |ids[t]| => if (flag[ids[t][j]] != 0) == keep then ids[t][j] else -1))
  }

  /** `select_deferred_experts`; `chosen` is what `torch.topk` returned for this batch of scores.
      With nothing protected everything is deferred and no id is looked up; otherwise an id outside
      [0, numExperts) makes the scatter or the gather raise. */
  function Select(numExperts: nat, topk: nat, ids: Ids, chosen: seq<seq<nat>>, protectedK: int)
    : Result<(Ids, Ids), Failure>
    requires Shaped(ids, |ids|, topk)
    requires Shaped(chosen, |ids|, Clamp(protectedK, topk))
    requires forall t, i :: 0 <= t < |ids| && 0 <= i < |chosen[t]| ==> chosen[t][i] < topk
  {
    if Clamp(protectedK, topk) == 0 then
      Ok((seq(|ids|, t requires 0 <= t < |ids| => seq(topk, j => -1)), ids))
    else if !AllInRange(ids, numExperts) then
      Err(IndexOutOfRange)
    else
      var protectedIds := Concat(Gather(ids, chosen));
      GatheredInRange(ids, chosen, numExperts);
      var flag := Scatter(seq(numExperts, _ => 0), protectedIds);
      Ok((Masked(ids, flag, true), Masked(ids, flag, false)))
  }

  lemma {:induction false} GatheredInRange(ids: Ids, chosen: seq<seq<nat>>, numExperts: nat)
    requires Gather.requires(ids, chosen) && AllInRange(ids, numExperts)
    ensures forall i :: 0 <= i < |Concat(Gather(ids, chosen))| ==> 0 <= Concat(Gather(ids, chosen))[i] < numExperts
  {
    var g := Gather(ids, chosen);
    forall i | 0 <= i < |Concat(g)| ensures 0 <= Concat(g)[i] < numExperts {
      ConcatMembers(g, Concat(g)[i]);
      var t :| 0 <= t < |g| && Concat(g)[i] in g[t];
      var j :| 0 <= j < |g[t]| && g[t][j] == Concat(g)[i];
    }
  }

  /** At every position exactly one of the two results carries the id; the other holds -1. */
  ghost predicate Partition(ids: Ids, imm: Ids, def: Ids) {
    && |imm| == |ids| == |def|
    && (forall t :: 0 <= t < |ids| ==> |imm[t]| == |ids[t]| == |def[t]|)
    && (forall t, j :: 0 <= t < |ids| && 0 <= j < |ids[t]| ==>
          (imm[t][j] == ids[t][j] && def[t][j] == -1) || (imm[t][j] == -1 && def[t][j] == ids[t][j]))
  }

  /** The expert of this position was picked by some token's protected positions. */
  ghost predicate ProtectedSomewhere(ids: Ids, chosen: seq<seq<nat>>, e: int)
    requires Gather.requires(ids, chosen)
  {
    exists t, i :: 0 <= t < |ids| && 0 <= i < |chosen[t]| && ids[t][chosen[t][i]] == e
  }

  lemma {:induction false} FlagMeansProtected(ids: Ids, chosen: seq<seq<nat>>, e: int)
    requires Gather.requires(ids, chosen)
    ensures e in Concat(Gather(ids, chosen)) <==> ProtectedSomewhere(ids, chosen, e)
  {
    var g := Gather(ids, chosen);
    ConcatMembers(g, e);
    if e in Concat(g) {
      var t :| 0 <= t < |g| && e in g[t];
      var i :| 0 <= i < |g[t]| && g[t][i] == e;
      assert ids[t][chosen[t][i]] == e;
    }
    if ProtectedSomewhere(ids, chosen, e) {
      var t, i :| 0 <= t < |ids| && 0 <= i < |chosen[t]| && ids[t][chosen[t][i]] == e;
      assert g[t][i] == e;
    }
  }

  /** The positions of a row that hold something other than -1. */
  function Kept(row: seq<int>): set<nat> {
    set j: nat | j < |row| && row[j] != -1
  }

  /** What a successful split promises, for every batch and every choice `torch.topk` may make. */
  ghost predicate SoundSplit(topk: nat, ids: Ids, scores: Scores, chosen: seq<seq<nat>>, k: nat, imm: Ids, def: Ids)
    requires Shaped(ids, |ids|, topk) && Shaped(scores, |ids|, topk)
    requires Shaped(chosen, |ids|, k) && Gather.requires(ids, chosen)
  {
    && Partition(ids, imm, def)
    // a token defers at most topk - k entries, none scoring above one of its protected entries
    && (forall t :: 0 <= t < |ids| ==> |Kept(def[t])| <= topk - k)
    && (forall t, j, i :: 0 <= t < |ids| && 0 <= j < topk && 0 <= i < k && def[t][j] != -1 ==>
          j != chosen[t][i] && scores[t][j] <= scores[t][chosen[t][i]])
    // an expert is immediate exactly when some token of the batch protects it ...
    && (forall t, j :: 0 <= t < |ids| && 0 <= j < topk && ids[t][j] != -1 ==>
          (imm[t][j] != -1 <==> ProtectedSomewhere(ids, chosen, ids[t][j])))
    // ... so it is never immediate for one token and deferred for another
    && (forall t, j, u, l ::
          0 <= t < |ids| && 0 <= j < topk && 0 <= u < |ids| && 0 <= l < topk && imm[t][j] != -1 && def[u][l] != -1 ==>
            ids[t][j] != ids[u][l])
  }

  lemma {:induction false} SelectIsSound(numExperts: nat, topk: nat, ids: Ids, scores: Scores, chosen: seq<seq<nat>>,
                                         protectedK: int)
    requires Shaped(ids, |ids|, topk) && Shaped(scores, |ids|, topk) && |chosen| == |ids|
    requires forall t :: 0 <= t < |ids| ==> IsTopK(scores[t], Clamp(protectedK, topk), chosen[t])
    ensures Shaped(chosen, |ids|, Clamp(protectedK, topk)) && Gather.requires(ids, chosen)
    ensures Select(numExperts, topk, ids, chosen, protectedK).Ok? <==>
            (Clamp(protectedK, topk) == 0 || AllInRange(ids, numExperts))
    ensures var r := Select(numExperts, topk, ids, chosen, protectedK);
            r.Ok? ==> SoundSplit(topk, ids, scores, chosen, Clamp(protectedK, topk), r.value.0, r.value.1)
  {
    var k := Clamp(protectedK, topk);
    var r := Select(numExperts, topk, ids, chosen, protectedK);
    if r.Ok? {
      var (imm, def) := r.value;
      if k == 0 {
        forall t | 0 <= t < |ids| ensures |Kept(def[t])| <= topk { KeptSize(def[t], {}, topk); }
        forall t, j | 0 <= t < |ids| && 0 <= j < topk ensures !ProtectedSomewhere(ids, chosen, ids[t][j]) {}
      } else {
        forall e ensures e in Concat(Gather(ids, chosen)) <==> ProtectedSomewhere(ids, chosen, e) {
          FlagMeansProtected(ids, chosen, e);
        }
        assert forall t, j :: 0 <= t < |ids| && 0 <= j < topk ==>
            (imm[t][j] != -1 <==> ProtectedSomewhere(ids, chosen, ids[t][j]));
        forall t, i | 0 <= t < |ids| && 0 <= i < k ensures def[t][chosen[t][i]] == -1 {
          assert ProtectedSomewhere(ids, chosen, ids[t][chosen[t][i]]);
        }
        forall t | 0 <= t < |ids| ensures |Kept(def[t])| <= topk - k {
          assert Distinct(chosen[t]);
          DistinctSize(chosen[t]);
          KeptSize(def[t], (set c | c in chosen[t]), topk);
        }
        forall t, j, i | 0 <= t < |ids| && 0 <= j < topk && 0 <= i < k && def[t][j] != -1
          ensures j != chosen[t][i] && scores[t][j] <= scores[t][chosen[t][i]]
        {
          assert forall l :: 0 <= l < k ==> chosen[t][l] != j;
          assert IsTopK(scores[t], k, chosen[t]);
        }
      }
    }
  }

  lemma {:induction false} KeptSize(row: seq<int>, dropped: set<nat>, n: nat)
    requires |row| == n
    requires forall c :: c in dropped ==> c < n && row[c] == -1
    ensures |Kept(row)| <= n - |dropped|
  {
    var all := Below(n);
    assert Kept(row) <= all - dropped;
    assert dropped <= all;
    SubsetSize(Kept(row), all - dropped);
  }
}
