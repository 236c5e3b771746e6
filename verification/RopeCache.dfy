/** The imperative half of `operators/rope.hpp`: building the table of cosines and sines, and applying it in place. */
module RopeCache {
  import opened Prelude
  import opened Arithmetic
  import opened Vectors
  import opened Rope

  /** `mscale * cos` and `mscale * sin` of n positions, half a dimension each, row after row. */
  ghost predicate IsTable(cos: Vec, sin: Vec, us: seq<Pair>, mscale: real, n: nat) {
    && |cos| == |sin| == n * |us|
    && forall at, j :: 0 <= at < n && 0 <= j < |us| ==> IsEntry(cos, sin, us, mscale, n, at, j)
  }

  ghost predicate IsEntry(cos: Vec, sin: Vec, us: seq<Pair>, mscale: real, n: nat, at: nat, j: nat)
    requires |cos| == |sin| == n * |us| && at < n && j < |us|
  {
    RowEnds(at, n, |us|);
    Pair(cos[at * |us| + j], sin[at * |us| + j]) == Entry(us[j], mscale, at)
  }

  /** The tables, entry by entry: position 0 is `mscale` and 0, and each further position is the one before, turned
      by the frequency once more. */
  ghost predicate StartsUnturned(cos: Vec, sin: Vec, us: seq<Pair>, mscale: real, n: nat)
    requires |cos| == |sin| == n * |us|
  {
    n > 0 ==> |us| <= |cos| && forall j :: 0 <= j < |us| ==> cos[j] == mscale && sin[j] == 0.0
  }

  ghost predicate TurnsOnce(cos: Vec, sin: Vec, us: seq<Pair>, n: nat, at: nat, j: nat)
    requires |cos| == |sin| == n * |us| && at + 1 < n && j < |us|
  {
    RowEnds(at, n, |us|);
    RowEnds(at + 1, n, |us|);
    var p, q := at * |us| + j, (at + 1) * |us| + j;
    && cos[q] == us[j].re * cos[p] - us[j].im * sin[p]
    && sin[q] == us[j].im * cos[p] + us[j].re * sin[p]
  }

  lemma {:induction false} TableTurns(cos: Vec, sin: Vec, us: seq<Pair>, mscale: real, n: nat)
    requires IsTable(cos, sin, us, mscale, n)
    ensures StartsUnturned(cos, sin, us, mscale, n)
    ensures forall at, j :: 0 <= at && at + 1 < n && 0 <= j < |us| ==> TurnsOnce(cos, sin, us, n, at, j)
  {
    if n > 0 {
      RowEnds(0, n, |us|);
      forall j | 0 <= j < |us| ensures cos[j] == mscale && sin[j] == 0.0 {
        assert IsEntry(cos, sin, us, mscale, n, 0, j);
        EntrySteps(us[j], mscale, 0);
      }
    }
    forall at, j | 0 <= at && at + 1 < n && 0 <= j < |us| ensures TurnsOnce(cos, sin, us, n, at, j) {
      assert IsEntry(cos, sin, us, mscale, n, at, j) && IsEntry(cos, sin, us, mscale, n, at + 1, j);
      EntryTurns(cos, sin, us, mscale, n, at, j);
    }
  }

  lemma {:induction false} EntryTurns(cos: Vec, sin: Vec, us: seq<Pair>, mscale: real, n: nat, at: nat, j: nat)
    requires |cos| == |sin| == n * |us| && at + 1 < n && j < |us|
    requires IsEntry(cos, sin, us, mscale, n, at, j) && IsEntry(cos, sin, us, mscale, n, at + 1, j)
    ensures TurnsOnce(cos, sin, us, n, at, j)
  {
    EntrySteps(us[j], mscale, at);
    RowEnds(at, n, |us|);
    RowEnds(at + 1, n, |us|);
    var p, q := at * |us| + j, (at + 1) * |us| + j;
    TurnParts(us[j], Pair(cos[p], sin[p]), Pair(cos[q], sin[q]));
  }

  lemma {:induction false} TurnParts(u: Pair, a: Pair, b: Pair)
    requires b == Times(u, a)
    ensures b.re == u.re * a.re - u.im * a.im && b.im == u.im * a.re + u.re * a.im
  {
  }

  /** Reading tables pairwise. */
  function Zip(cos: Vec, sin: Vec): (r: seq<Pair>)
    requires |cos| == |sin|
    ensures |r| == |cos| && forall j :: 0 <= j < |r| ==> r[j] == Pair(cos[j], sin[j])
  {
    seq(|cos|, j requires 0 <= j < |cos| => Pair(cos[j], sin[j]))
  }

  /** The row that the pointers for a position lead to. */
  lemma {:induction false} RowIsTableRow(cos: Vec, sin: Vec, us: seq<Pair>, mscale: real, n: nat, at: nat)
    requires IsTable(cos, sin, us, mscale, n) && at < n
    ensures 0 <= at * |us| <= at * |us| + |us| <= n * |us|
    ensures Zip(cos[at * |us|..at * |us| + |us|], sin[at * |us|..at * |us| + |us|]) == TableRow(us, mscale, at)
  {
    RowEnds(at, n, |us|);
    forall j | 0 <= j < |us| ensures Pair(cos[at * |us| + j], sin[at * |us| + j]) == Entry(us[j], mscale, at) {
      assert IsEntry(cos, sin, us, mscale, n, at, j);
    }
  }

  lemma {:induction false} PointersLeadToRow(cos: Vec, sin: Vec, dim: nat, us: seq<Pair>, mscale: real, n: nat,
                                             pos: nat, half: nat)
    requires IsTable(cos, sin, us, mscale, n) && dim % 2 == 0 && |us| == dim / 2 && pos < n && half <= |us|
    ensures 0 <= pos * dim / 2 <= pos * dim / 2 + half <= |cos|
    ensures Zip(cos[pos * dim / 2..][..half], sin[pos * dim / 2..][..half]) == TableRow(us, mscale, pos)[..half]
  {
    RowIsTableRow(cos, sin, us, mscale, n, pos);
    HalfProduct(pos, dim);
    var row := Zip(cos[pos * |us|..pos * |us| + |us|], sin[pos * |us|..pos * |us| + |us|]);
    assert Zip(cos[pos * |us|..][..half], sin[pos * |us|..][..half]) == row[..half];
  }

  /** So rotating by them is rotating for the position. */
  lemma {:induction false} PointersRotate(cos: Vec, sin: Vec, dim: nat, us: seq<Pair>, mscale: real, n: nat, pos: nat,
                                          start: int, x: Vec)
    requires IsTable(cos, sin, us, mscale, n) && dim % 2 == 0 && |us| == dim / 2 && pos < n
    requires start == pos * dim / 2 && |x| % 2 == 0 && |x| / 2 <= |us|
    ensures 0 <= start && start + |x| / 2 <= |cos| && |sin| == |cos|
    ensures Rotated(x, Zip(cos[start..][..|x| / 2], sin[start..][..|x| / 2])) == RotatedAt(us, mscale, x, pos)
  {
    PointersLeadToRow(cos, sin, dim, us, mscale, n, pos, |x| / 2);
  }

  /** `i * dim / 2` is a row start: the product is halved, not the dimension, but the dimension is even. */
  lemma {:induction false} HalfProduct(i: nat, dim: nat)
    requires dim % 2 == 0
    ensures i * dim / 2 == i * (dim / 2)
  {
    var half := dim / 2;
    assert i * dim == i * half * 2;
  }

  class RotaryEmbedding {
    const dim: nat
    const us: seq<Pair>
    const mscale: real
    var cosCached: Vec
    var sinCached: Vec
    var maxSeqLen: nat

    ghost predicate Valid()
      reads this
    {
      && dim % 2 == 0 && |us| == dim / 2
      && IsTable(cosCached, sinCached, us, mscale, maxSeqLen)
    }

    constructor (dim: nat, us: seq<Pair>, mscale: real)
      requires dim % 2 == 0 && |us| == dim / 2
      ensures Valid() && this.dim == dim && this.us == us && this.mscale == mscale && maxSeqLen == 0
    {
      this.dim, this.us, this.mscale := dim, us, mscale;
      cosCached, sinCached, maxSeqLen := [], [], 0;
    }

    /** `set_cos_sin_cache`: both tables are resized, whatever they held, and filled position by position. */
    method SetCosSinCache(seqLen: nat)
      requires dim % 2 == 0 && |us| == dim / 2
      modifies this
      ensures Valid() && maxSeqLen == seqLen
      ensures StartsUnturned(cosCached, sinCached, us, mscale, seqLen)
      ensures forall at, j :: 0 <= at && at + 1 < seqLen && 0 <= j < |us| ==>
                TurnsOnce(cosCached, sinCached, us, seqLen, at, j)
    {
      HalfProduct(seqLen, dim);
      cosCached := Resized(cosCached, seqLen * dim / 2);
      sinCached := Resized(sinCached, seqLen * dim / 2);
      var i := 0;
      while i < seqLen
        invariant 0 <= i <= seqLen && |cosCached| == |sinCached| == seqLen * |us|
        invariant forall at, j :: 0 <= at < i && 0 <= j < |us| ==>
                    IsEntry(cosCached, sinCached, us, mscale, seqLen, at, j)
      {
        var j := 0;
        while j < |us|
          invariant 0 <= j <= |us| && |cosCached| == |sinCached| == seqLen * |us|
          invariant forall at, k :: 0 <= at < i && 0 <= k < |us| ==>
                      IsEntry(cosCached, sinCached, us, mscale, seqLen, at, k)
          invariant forall k :: 0 <= k < j ==> IsEntry(cosCached, sinCached, us, mscale, seqLen, i, k)
        {
          HalfProduct(i, dim);
          var idx1 := i * dim / 2 + j;
          var entry := Entry(us[j], mscale, i);
          RowEnds(i, seqLen, |us|);
          EntriesKept(cosCached, sinCached, us, mscale, seqLen, i, j, entry);
          cosCached := cosCached[idx1 := entry.re];
          sinCached := sinCached[idx1 := entry.im];
          j := j + 1;
        }
        i := i + 1;
      }
      maxSeqLen := seqLen;
      TableTurns(cosCached, sinCached, us, mscale, seqLen);
    }
  }

  /** `vector::resize`. */
  function Resized(v: Vec, n: nat): (r: Vec)
    ensures |r| == n
  {
    if |v| >= n then v[..n] else v + seq(n - |v|, _ => 0.0)
  }

  /** Writing one entry leaves the entries before it alone. */
  lemma {:induction false} EntriesKept(cos: Vec, sin: Vec, us: seq<Pair>, mscale: real, n: nat, i: nat, j: nat,
                                       entry: Pair)
    requires |cos| == |sin| == n * |us| && i < n && j < |us| && 0 <= i * |us| + j < n * |us|
    ensures var cos', sin' := cos[i * |us| + j := entry.re], sin[i * |us| + j := entry.im];
            && (entry == Entry(us[j], mscale, i) ==> IsEntry(cos', sin', us, mscale, n, i, j))
            && (forall at, k :: 0 <= at < i && 0 <= k < |us| && IsEntry(cos, sin, us, mscale, n, at, k) ==>
                  IsEntry(cos', sin', us, mscale, n, at, k))
            && (forall k :: 0 <= k < j && IsEntry(cos, sin, us, mscale, n, i, k) ==>
                  IsEntry(cos', sin', us, mscale, n, i, k))
  {
    var cos', sin' := cos[i * |us| + j := entry.re], sin[i * |us| + j := entry.im];
    forall at, k | 0 <= at < i && 0 <= k < |us| && IsEntry(cos, sin, us, mscale, n, at, k)
      ensures IsEntry(cos', sin', us, mscale, n, at, k)
    {
      StrictMultiple(at, i, |us|);
    }
  }

  /** `dim` must be even; otherwise the constructor throws. */
  method MakeEmbedding(dim: nat, maxPositionEmbeddings: nat, us: seq<Pair>, mscale: real)
    returns (r: Result<RotaryEmbedding, RopeError>)
    requires |us| == dim / 2
    ensures r.Ok? <==> dim % 2 == 0
    ensures r.Ok? ==> fresh(r.value) && r.value.Valid() && r.value.maxSeqLen == maxPositionEmbeddings
    ensures r.Ok? ==> r.value.dim == dim && r.value.us == us && r.value.mscale == mscale
    ensures r.Ok? ==> StartsUnturned(r.value.cosCached, r.value.sinCached, us, mscale, maxPositionEmbeddings)
  {
    if dim % 2 != 0 {
      return Err(OddDimension);
    }
    var emb := new RotaryEmbedding(dim, us, mscale);
    emb.SetCosSinCache(maxPositionEmbeddings);
    r := Ok(emb);
  }

  // ---- applying -------------------------------------------------------------------------------

  class Applier {
    /** The thread's scratch vector; it only grows. */
    var v2: Vec

    constructor () {
      v2 := [];
    }

    /** `apply_single` on the vector of `size` components at `at`.  `cos` and `sin` are what the pointers for its
        position lead to. */
    method ApplySingle(cos: Vec, sin: Vec, v: array<real>, at: nat, size: nat) returns (r: Result<(), RopeError>)
      requires at + size <= v.Length && size / 2 <= |cos| && size / 2 <= |sin|
      modifies this, v
      ensures r.Ok? <==> size % 2 == 0
      ensures r.Err? ==> v[..] == old(v[..])
      ensures r.Ok? ==>
                v[..] == Spliced(old(v[..]),
                                 Rotated(old(v[..])[at..at + size], Zip(cos[..size / 2], sin[..size / 2])), at)
    {
      if size == 0 {
        return Ok(());
      }
      if size % 2 != 0 {
        return Err(OddDimension);
      }
      if |v2| < size {
        v2 := Resized(v2, size);
      }
      TurnIntoScratch(cos, sin, v, at, size);
      Overwrite(v, at, v2[..size]);
      r := Ok(());
    }

    method TurnIntoScratch(cos: Vec, sin: Vec, v: array<real>, at: nat, size: nat)
      requires at + size <= v.Length && size % 2 == 0 && size / 2 <= |cos| && size / 2 <= |sin| && size <= |v2|
      modifies this
      ensures size <= |v2| && v2[..size] == Rotated(v[..][at..at + size], Zip(cos[..size / 2], sin[..size / 2]))
    {
      ghost var was := v[..][at..at + size];
      ghost var p := Turn(Zip(cos[..size / 2], sin[..size / 2]), Pairs(was));
      var i := 0;
      while i < size / 2
        invariant 0 <= i <= size / 2 && |v2| >= size
        invariant forall k :: 0 <= k < i ==> v2[k] == p[k].re && v2[k + size / 2] == p[k].im
      {
        var a, b := v[at + 2 * i], v[at + 2 * i + 1];
        var re, im := cos[i] * a - sin[i] * b, sin[i] * a + cos[i] * b;
        assert Pair(re, im) == p[i] by { assert Pairs(was)[i] == Pair(a, b); }
        v2 := v2[i := re];
        v2 := v2[i + size / 2 := im];
        i := i + 1;
      }
      assert v2[..size] == Res(p) + Ims(p);
    }

    /** `apply_multiple`: vector i of a block sits at position posStart + i. */
    method ApplyMultiple(emb: RotaryEmbedding, v: array<real>, size: nat, posStart: nat, posLen: nat)
      returns (r: Result<(), RopeError>)
      requires emb.Valid() && size <= emb.dim && posStart + posLen <= emb.maxSeqLen && 0 <= posLen * size <= v.Length
      modifies this, v
      ensures r.Ok? <==> size % 2 == 0 || posLen == 0
      ensures r.Err? ==> v[..] == old(v[..])
      ensures r.Ok? && size % 2 == 0 ==>
                v[..] == BlockRotated(emb.us, emb.mscale, old(v[..]), size, posLen, posStart, posLen)
      ensures r.Ok? && size % 2 == 1 ==> v[..] == old(v[..])
    {
      if size == 0 || posLen == 0 {
        if size == 0 { NothingRotated(emb.us, emb.mscale, v[..], posLen, posStart, posLen); }
        return Ok(());
      }
      if size % 2 != 0 {
        return Err(OddDimension);
      }
      ApplyBlock(emb.cosCached, emb.sinCached, emb.dim, emb.us, emb.mscale, emb.maxSeqLen, v, size, posStart, posLen);
      r := Ok(());
    }

    /** The loop: vector i of the block sits at position posStart + i. */
    method ApplyBlock(cos: Vec, sin: Vec, dim: nat, ghost us: seq<Pair>, ghost mscale: real, ghost n: nat,
                      v: array<real>, size: nat, posStart: nat, posLen: nat)
      requires IsTable(cos, sin, us, mscale, n) && dim % 2 == 0 && |us| == dim / 2
      requires size <= dim && size % 2 == 0 && posStart + posLen <= n && 0 <= posLen * size <= v.Length
      modifies this, v
      ensures v[..] == BlockRotated(us, mscale, old(v[..]), size, posLen, posStart, posLen)
    {
      var i := 0;
      while i < posLen
        invariant 0 <= i <= posLen
        invariant v[..] == BlockRotated(us, mscale, old(v[..]), size, posLen, posStart, i)
      {
        ghost var after := BlockStep(us, mscale, v[..], size, posLen, posStart, i);
        ApplyRow(cos, sin, dim, us, mscale, n, v, size, posStart, posLen, i, after);
        i := i + 1;
      }
    }

    /** The loop's body: vector i. */
    method ApplyRow(cos: Vec, sin: Vec, dim: nat, ghost us: seq<Pair>, ghost mscale: real, ghost n: nat,
                    v: array<real>, size: nat, posStart: nat, posLen: nat, i: nat, ghost after: Vec)
      requires IsTable(cos, sin, us, mscale, n) && dim % 2 == 0 && |us| == dim / 2 && i < posLen
      requires size <= dim && size % 2 == 0 && posStart + posLen <= n && 0 <= posLen * size <= v.Length
      requires after == BlockStep(us, mscale, v[..], size, posLen, posStart, i)
      modifies this, v
      ensures v[..] == after
    {
      var at := RowStart(i, posLen, size);
      ApplyNext(cos, sin, dim, us, mscale, n, v, size, at, posStart + i, after);
    }

    /** `apply_single(emb, ..)` on one vector; the pointers are row starts of the tables. */
    method ApplyNext(cos: Vec, sin: Vec, dim: nat, ghost us: seq<Pair>, ghost mscale: real, ghost n: nat,
                     v: array<real>, size: nat, at: nat, pos: nat, ghost after: Vec)
      requires IsTable(cos, sin, us, mscale, n) && dim % 2 == 0 && |us| == dim / 2
      requires size <= dim && size % 2 == 0 && pos < n && at + size <= v.Length
      requires after == ApplyStep(us, mscale, v[..], size, at, pos)
      modifies this, v
      ensures v[..] == after
    {
      var start := pos * dim / 2;
      PointersRotate(cos, sin, dim, us, mscale, n, pos, start, v[..][at..at + size]);
      var done := ApplySingle(cos[start..], sin[start..], v, at, size);
    }
  }

  /** A vector of up to `dim` components, rotated for a position. */
  ghost function RotatedAt(us: seq<Pair>, mscale: real, x: Vec, pos: nat): (r: Vec)
    requires |x| % 2 == 0 && |x| / 2 <= |us|
    ensures |r| == |x|
  {
    Rotated(x, TableRow(us, mscale, pos)[..|x| / 2])
  }

  lemma {:induction false} RowPrefix(us: seq<Pair>, mscale: real, at: nat, half: nat)
    requires half <= |us|
    ensures TableRow(us, mscale, at)[..half] == TableRow(us[..half], mscale, at)
  {
  }

  /** At position 0, with mscale 1, a vector is only de-interleaved. */
  lemma {:induction false} RotatedAtStart(us: seq<Pair>, x: Vec)
    requires |x| % 2 == 0 && |x| / 2 <= |us|
    ensures RotatedAt(us, 1.0, x, 0) == Deinterleave(x)
  {
    RowPrefix(us, 1.0, 0, |x| / 2);
    AtStart(x, us[..|x| / 2]);
  }

  /** A block of n vectors after the first i calls of `apply_single`. */
  ghost function BlockRotated(us: seq<Pair>, mscale: real, was: Vec, size: nat, n: nat, posStart: nat, i: nat): (r: Vec)
    requires size % 2 == 0 && size / 2 <= |us| && i <= n && 0 <= n * size <= |was|
    ensures |r| == |was|
  {
    if i == 0 then was
    else
      BlockStep(us, mscale, BlockRotated(us, mscale, was, size, n, posStart, i - 1), size, n, posStart, i - 1)
  }

  /** Where vector k of a block of n begins. */
  function RowStart(k: nat, n: nat, size: nat): (at: nat)
    requires k < n
    ensures at == k * size && at + size <= n * size
  {
    RowEnds(k, n, size);
    k * size
  }

  ghost function BlockStep(us: seq<Pair>, mscale: real, v: Vec, size: nat, n: nat, posStart: nat, k: nat): (r: Vec)
    requires size % 2 == 0 && size / 2 <= |us| && k < n && 0 <= n * size <= |v|
    ensures |r| == |v|
  {
    ApplyStep(us, mscale, v, size, RowStart(k, n, size), posStart + k)
  }

  /** One call, on the vector at `at`. */
  ghost function ApplyStep(us: seq<Pair>, mscale: real, v: Vec, size: nat, at: nat, pos: nat): (r: Vec)
    requires size % 2 == 0 && size / 2 <= |us| && at + size <= |v|
    ensures |r| == |v|
  {
    Spliced(v, RotatedAt(us, mscale, v[at..at + size], pos), at)
  }

  lemma {:induction false} NothingRotated(us: seq<Pair>, mscale: real, was: Vec, n: nat, posStart: nat, i: nat)
    requires i <= n
    ensures BlockRotated(us, mscale, was, 0, n, posStart, i) == was
    decreases i
  {
    if i > 0 {
      NothingRotated(us, mscale, was, n, posStart, i - 1);
    }
  }

  /** The first i vectors are rotated, vector k for position posStart + k, and nothing else has changed. */
  ghost predicate FirstRotated(us: seq<Pair>, mscale: real, was: Vec, now: Vec, size: nat, n: nat, posStart: nat,
                               i: nat)
    requires size % 2 == 0 && size / 2 <= |us| && i <= n && 0 <= n * size <= |was| == |now|
  {
    && (forall k :: 0 <= k < i ==>
          RowAt(now, size, n, k) == RotatedAt(us, mscale, RowAt(was, size, n, k), posStart + k))
    && (forall k :: i <= k < n ==> RowAt(now, size, n, k) == RowAt(was, size, n, k))
    && now[n * size..] == was[n * size..]
  }

  /** What the calls amount to: `now` is the block after the first i of them. */
  lemma {:induction false} BlockRows(us: seq<Pair>, mscale: real, was: Vec, now: Vec, size: nat, n: nat, posStart: nat,
                                     i: nat)
    requires size % 2 == 0 && size / 2 <= |us| && i <= n && 0 <= n * size <= |was|
    requires now == BlockRotated(us, mscale, was, size, n, posStart, i)
    ensures FirstRotated(us, mscale, was, now, size, n, posStart, i)
    decreases i
  {
    if i == 0 {
      NoneRotated(us, mscale, was, size, n, posStart);
    } else {
      var before := BlockRotated(us, mscale, was, size, n, posStart, i - 1);
      BlockRows(us, mscale, was, before, size, n, posStart, i - 1);
      NextRotated(us, mscale, was, before, now, size, n, posStart, i - 1);
    }
  }

  lemma {:induction false} NoneRotated(us: seq<Pair>, mscale: real, was: Vec, size: nat, n: nat, posStart: nat)
    requires size % 2 == 0 && size / 2 <= |us| && 0 <= n * size <= |was|
    ensures FirstRotated(us, mscale, was, was, size, n, posStart, 0)
  {
  }

  lemma {:induction false} NextRotated(us: seq<Pair>, mscale: real, was: Vec, now: Vec, next: Vec, size: nat,
                                       n: nat, posStart: nat, k: nat)
    requires size % 2 == 0 && size / 2 <= |us| && k < n && 0 <= n * size <= |was| == |now|
    requires FirstRotated(us, mscale, was, now, size, n, posStart, k)
    requires next == BlockStep(us, mscale, now, size, n, posStart, k)
    ensures FirstRotated(us, mscale, was, next, size, n, posStart, k + 1)
  {
    BlockStepRows(us, mscale, now, size, n, posStart, k);
  }

  lemma {:induction false} StepRows(us: seq<Pair>, mscale: real, v: Vec, size: nat, n: nat, k: nat, at: nat, pos: nat)
    requires size % 2 == 0 && size / 2 <= |us| && k < n && 0 <= n * size <= |v| && at == k * size && at + size <= |v|
    ensures var after := ApplyStep(us, mscale, v, size, at, pos);
            && RowAt(after, size, n, k) == RotatedAt(us, mscale, RowAt(v, size, n, k), pos)
            && (forall k' :: 0 <= k' < n && k' != k ==> RowAt(after, size, n, k') == RowAt(v, size, n, k'))
            && after[n * size..] == v[n * size..]
  {
    RowAtIs(v, size, n, k);
    var row := RotatedAt(us, mscale, RowAt(v, size, n, k), pos);
    RowsWritten(v, Spliced(v, row, at), row, size, n, k, at);
  }

  lemma {:induction false} BlockStepRows(us: seq<Pair>, mscale: real, v: Vec, size: nat, n: nat, posStart: nat, k: nat)
    requires size % 2 == 0 && size / 2 <= |us| && k < n && 0 <= n * size <= |v|
    ensures var after := BlockStep(us, mscale, v, size, n, posStart, k);
            && RowAt(after, size, n, k) == RotatedAt(us, mscale, RowAt(v, size, n, k), posStart + k)
            && (forall k' :: 0 <= k' < n && k' != k ==> RowAt(after, size, n, k') == RowAt(v, size, n, k'))
            && after[n * size..] == v[n * size..]
  {
    StepRows(us, mscale, v, size, n, k, RowStart(k, n, size), posStart + k);
  }
}
