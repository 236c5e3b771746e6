/**
 Rotary position embedding: the one-pass loop of `operators/rope.hpp` with its table of cosines and sines, against
 the view / transpose / rotate_half form of `examples/modeling_deepseek_v3.py`.  Over the reals, with the cosine and
 sine of position i and frequency j taken as the i-th power of a unit pair, times `mscale`.
 */
module Rope {
  import opened Vectors

  datatype RopeError = OddDimension

  // ---- rotations ------------------------------------------------------------------------------

  /** A plane vector, or a rotation given by its cosine and sine. */
  datatype Pair = Pair(re: real, im: real)

  function Times(a: Pair, b: Pair): Pair {
    Pair(a.re * b.re - a.im * b.im, a.im * b.re + a.re * b.im)
  }

  function Inner(a: Pair, b: Pair): real {
    a.re * b.re + a.im * b.im
  }

  function Norm(a: Pair): real {
    a.re * a.re + a.im * a.im
  }

  predicate Unit(a: Pair) {
    Norm(a) == 1.0
  }

  function Power(u: Pair, n: nat): Pair {
    if n == 0 then Pair(1.0, 0.0) else Times(u, Power(u, n - 1))
  }

  lemma {:induction false} TimesAssociative(a: Pair, b: Pair, c: Pair)
    ensures Times(Times(a, b), c) == Times(a, Times(b, c))
  {
  }

  lemma {:induction false} PowerAdds(u: Pair, m: nat, n: nat)
    ensures Power(u, m + n) == Times(Power(u, m), Power(u, n))
    decreases m
  {
    if m > 0 {
      PowerAdds(u, m - 1, n);
      TimesAssociative(u, Power(u, m - 1), Power(u, n));
    }
  }

  lemma {:induction false} NormOfTimes(a: Pair, b: Pair)
    ensures Norm(Times(a, b)) == Norm(a) * Norm(b)
  {
    InnerOfTimes(a, b, b);
  }

  /** Rotating two vectors alike scales their inner product by the squared length of the rotation. */
  lemma {:induction false} InnerOfTimes(r: Pair, a: Pair, b: Pair)
    ensures Inner(Times(r, a), Times(r, b)) == Norm(r) * Inner(a, b)
  {
    var x, y := r.re * r.re, r.im * r.im;
    assert (r.re * a.re - r.im * a.im) * (r.re * b.re - r.im * b.im)
           == x * (a.re * b.re) - r.re * r.im * (a.re * b.im) - r.re * r.im * (a.im * b.re) + y * (a.im * b.im);
    assert (r.im * a.re + r.re * a.im) * (r.im * b.re + r.re * b.im)
           == y * (a.re * b.re) + r.re * r.im * (a.re * b.im) + r.re * r.im * (a.im * b.re) + x * (a.im * b.im);
  }

  lemma {:induction false} PowerIsUnit(u: Pair, n: nat)
    requires Unit(u)
    ensures Unit(Power(u, n))
  {
    if n > 0 {
      PowerIsUnit(u, n - 1);
      NormOfTimes(u, Power(u, n - 1));
    }
  }

  /** The table entry of frequency u at a position. */
  function Entry(u: Pair, mscale: real, at: nat): Pair {
    Times(Pair(mscale, 0.0), Power(u, at))
  }

  /** Position 0 is not turned, only scaled; every further position is turned by the frequency once more. */
  lemma {:induction false} EntrySteps(u: Pair, mscale: real, at: nat)
    ensures Entry(u, mscale, 0) == Pair(mscale, 0.0)
    ensures Entry(u, mscale, at + 1) == Times(u, Entry(u, mscale, at))
  {
    var k, p := Pair(mscale, 0.0), Power(u, at);
    TimesAssociative(k, u, p);
    TimesAssociative(u, k, p);
    assert Times(k, u) == Times(u, k);
  }

  /** Shifting both positions by d rotates both vectors by the same unit rotation. */
  lemma {:induction false} EntryShift(u: Pair, mscale: real, at: nat, d: nat, a: Pair)
    ensures Times(Entry(u, mscale, at + d), a) == Times(Power(u, d), Times(Entry(u, mscale, at), a))
  {
    var k, p, q := Pair(mscale, 0.0), Power(u, d), Power(u, at);
    PowerAdds(u, d, at);
    TimesAssociative(k, p, q);
    TimesAssociative(p, k, q);
    assert Times(k, p) == Times(p, k);
    TimesAssociative(p, Times(k, q), a);
  }

  lemma {:induction false} InnerAtEqual(u: Pair, mscale: real, at: nat, a: Pair, b: Pair)
    requires Unit(u)
    ensures Inner(Times(Entry(u, mscale, at), a), Times(Entry(u, mscale, at), b)) == mscale * mscale * Inner(a, b)
  {
    PowerIsUnit(u, at);
    NormOfTimes(Pair(mscale, 0.0), Power(u, at));
    InnerOfTimes(Entry(u, mscale, at), a, b);
  }

  lemma {:induction false} InnerShift(u: Pair, mscale: real, m: nat, n: nat, d: nat, a: Pair, b: Pair)
    requires Unit(u)
    ensures Inner(Times(Entry(u, mscale, m + d), a), Times(Entry(u, mscale, n + d), b))
            == Inner(Times(Entry(u, mscale, m), a), Times(Entry(u, mscale, n), b))
  {
    PowerIsUnit(u, d);
    EntryShift(u, mscale, m, d, a);
    EntryShift(u, mscale, n, d, b);
    InnerOfTimes(Power(u, d), Times(Entry(u, mscale, m), a), Times(Entry(u, mscale, n), b));
  }

  // ---- the two forms --------------------------------------------------------------------------

  /** Consecutive components, taken as plane vectors. */
  function Pairs(v: Vec): (r: seq<Pair>)
    requires |v| % 2 == 0
    ensures |r| == |v| / 2 && forall j :: 0 <= j < |r| ==> r[j] == Pair(v[2 * j], v[2 * j + 1])
  {
    seq(|v| / 2, j requires 0 <= j < |v| / 2 => Pair(v[2 * j], v[2 * j + 1]))
  }

  function Res(p: seq<Pair>): (r: Vec)
    ensures |r| == |p| && forall j :: 0 <= j < |r| ==> r[j] == p[j].re
  {
    seq(|p|, j requires 0 <= j < |p| => p[j].re)
  }

  function Ims(p: seq<Pair>): (r: Vec)
    ensures |r| == |p| && forall j :: 0 <= j < |r| ==> r[j] == p[j].im
  {
    seq(|p|, j requires 0 <= j < |p| => p[j].im)
  }

  /** Every plane vector turned by its own table entry. */
  function Turn(t: seq<Pair>, p: seq<Pair>): (r: seq<Pair>)
    requires |t| == |p|
    ensures |r| == |p| && forall j :: 0 <= j < |r| ==> r[j] == Times(t[j], p[j])
  {
    seq(|p|, j requires 0 <= j < |p| => Times(t[j], p[j]))
  }

  /** What the loop leaves in v: its consecutive pairs, turned; all first components, then all second ones. */
  function Rotated(v: Vec, t: seq<Pair>): (r: Vec)
    requires |v| == 2 * |t|
    ensures |r| == |v|
  {
    var p := Turn(t, Pairs(v));
    Res(p) + Ims(p)
  }

  /** `view(.., d // 2, 2)`: consecutive pairs. */
  function ViewPairs(v: Vec): (r: seq<Vec>)
    requires |v| % 2 == 0
    ensures |r| == |v| / 2 && forall i :: 0 <= i < |r| ==> r[i] == [v[2 * i], v[2 * i + 1]]
  {
    seq(|v| / 2, i requires 0 <= i < |v| / 2 => [v[2 * i], v[2 * i + 1]])
  }

  /** `transpose(4, 3)`. */
  function Transpose(m: seq<Vec>): (r: seq<Vec>)
    requires forall i :: 0 <= i < |m| ==> |m[i]| == 2
    ensures |r| == 2 && |r[0]| == |r[1]| == |m|
    ensures forall i :: 0 <= i < |m| ==> r[0][i] == m[i][0] && r[1][i] == m[i][1]
  {
    [seq(|m|, i requires 0 <= i < |m| => m[i][0]), seq(|m|, i requires 0 <= i < |m| => m[i][1])]
  }

  /** `view`, `transpose`, `reshape`. */
  function Deinterleave(v: Vec): (r: Vec)
    requires |v| % 2 == 0
    ensures |r| == |v|
  {
    var t := Transpose(ViewPairs(v));
    t[0] + t[1]
  }

  function Negated(v: Vec): (r: Vec)
    ensures |r| == |v| && forall i :: 0 <= i < |v| ==> r[i] == -v[i]
  {
    seq(|v|, i requires 0 <= i < |v| => -v[i])
  }

  function RotateHalf(v: Vec): (r: Vec)
    ensures |r| == |v|
  {
    Negated(v[|v| / 2..]) + v[..|v| / 2]
  }

  function Multiply(a: Vec, b: Vec): (r: Vec)
    requires |a| == |b|
    ensures |r| == |a| && forall i :: 0 <= i < |r| ==> r[i] == a[i] * b[i]
  {
    seq(|a|, i requires 0 <= i < |a| => a[i] * b[i])
  }

  function Plus(a: Vec, b: Vec): (r: Vec)
    requires |a| == |b|
    ensures |r| == |a| && forall i :: 0 <= i < |r| ==> r[i] == a[i] + b[i]
  {
    seq(|a|, i requires 0 <= i < |a| => a[i] + b[i])
  }

  /** `apply_rotary_pos_emb` on one vector. */
  function ApplyRotary(v: Vec, cos: Vec, sin: Vec): (r: Vec)
    requires |v| % 2 == 0 && |cos| == |sin| == |v|
    ensures |r| == |v|
  {
    var q := Deinterleave(v);
    Plus(Multiply(q, cos), Multiply(RotateHalf(q), sin))
  }

  lemma {:induction false} DeinterleaveIsFlat(v: Vec)
    requires |v| % 2 == 0
    ensures Deinterleave(v) == Res(Pairs(v)) + Ims(Pairs(v))
  {
    var m := ViewPairs(v);
    assert Transpose(m)[0] == Res(Pairs(v)) && Transpose(m)[1] == Ims(Pairs(v));
  }

  /** The loop computes the reference form, for every even-length vector and every table; the reference's tables
      repeat each row (`cat((freqs, freqs))`). */
  lemma {:induction false} LoopIsReference(v: Vec, t: seq<Pair>)
    requires |v| == 2 * |t|
    ensures Rotated(v, t) == ApplyRotary(v, Res(t) + Res(t), Ims(t) + Ims(t))
  {
    DeinterleaveIsFlat(v);
    var a, b, c, s := Res(Pairs(v)), Ims(Pairs(v)), Res(t), Ims(t);
    assert (a + b)[|a + b| / 2..] == b && (a + b)[..|a + b| / 2] == a;
    assert RotateHalf(a + b) == Negated(b) + a;
    TurnedParts(t, Pairs(v));
    MultiplyHalves(a, b, c, c);
    MultiplyHalves(Negated(b), a, s, s);
    PlusHalves(Multiply(a, c), Multiply(b, c), Multiply(Negated(b), s), Multiply(a, s));
  }

  lemma {:induction false} TurnedParts(t: seq<Pair>, p: seq<Pair>)
    requires |t| == |p|
    ensures Res(Turn(t, p)) == Plus(Multiply(Res(p), Res(t)), Multiply(Negated(Ims(p)), Ims(t)))
    ensures Ims(Turn(t, p)) == Plus(Multiply(Ims(p), Res(t)), Multiply(Res(p), Ims(t)))
  {
    var re, im := Plus(Multiply(Res(p), Res(t)), Multiply(Negated(Ims(p)), Ims(t))),
                  Plus(Multiply(Ims(p), Res(t)), Multiply(Res(p), Ims(t)));
    forall j | 0 <= j < |p| ensures Res(Turn(t, p))[j] == re[j] && Ims(Turn(t, p))[j] == im[j] {
      TimesParts(t[j], p[j]);
    }
  }

  lemma {:induction false} TimesParts(t: Pair, p: Pair)
    ensures Times(t, p).re == p.re * t.re + (-p.im) * t.im
    ensures Times(t, p).im == p.im * t.re + p.re * t.im
  {
    assert p.re * t.re == t.re * p.re && p.im * t.re == t.re * p.im && p.re * t.im == t.im * p.re;
    assert (-p.im) * t.im == -(t.im * p.im);
  }

  lemma {:induction false} MultiplyHalves(a: Vec, b: Vec, c: Vec, d: Vec)
    requires |a| == |b| == |c| == |d|
    ensures Multiply(a + b, c + d) == Multiply(a, c) + Multiply(b, d)
  {
    var n := |a|;
    forall i | 0 <= i < 2 * n ensures Multiply(a + b, c + d)[i] == (Multiply(a, c) + Multiply(b, d))[i] {
      if i < n {
        assert (a + b)[i] == a[i] && (c + d)[i] == c[i];
      } else {
        assert (a + b)[i] == b[i - n] && (c + d)[i] == d[i - n];
      }
    }
  }

  lemma {:induction false} PlusHalves(a: Vec, b: Vec, c: Vec, d: Vec)
    requires |a| == |b| == |c| == |d|
    ensures Plus(a + b, c + d) == Plus(a, c) + Plus(b, d)
  {
  }

  // ---- inner products -------------------------------------------------------------------------

  function Inners(p: seq<Pair>, q: seq<Pair>): (r: seq<real>)
    requires |p| == |q|
    ensures |r| == |p|
  {
    seq(|p|, j requires 0 <= j < |p| => Inner(p[j], q[j]))
  }

  function InnerTotal(p: seq<Pair>, q: seq<Pair>): real
    requires |p| == |q|
  {
    Total(Inners(p, q))
  }

  lemma {:induction false} LastInner(p: seq<Pair>, q: seq<Pair>)
    requires |p| == |q| > 0
    ensures var k := |p| - 1; InnerTotal(p, q) == InnerTotal(p[..k], q[..k]) + Inner(p[k], q[k])
  {
    var k := |p| - 1;
    assert Inners(p, q)[..k] == Inners(p[..k], q[..k]);
  }

  lemma {:induction false} PartsTotal(p: seq<Pair>, q: seq<Pair>)
    requires |p| == |q|
    ensures Dot(Res(p), Res(q)) + Dot(Ims(p), Ims(q)) == InnerTotal(p, q)
    decreases |p|
  {
    if p != [] {
      var n := |p| - 1;
      PartsTotal(p[..n], q[..n]);
      LastInner(p, q);
      LastParts(p, q);
    }
  }

  lemma {:induction false} LastParts(p: seq<Pair>, q: seq<Pair>)
    requires |p| == |q| > 0
    ensures var k := |p| - 1;
            Dot(Res(p), Res(q)) + Dot(Ims(p), Ims(q))
            == Dot(Res(p[..k]), Res(q[..k])) + Dot(Ims(p[..k]), Ims(q[..k])) + Inner(p[k], q[k])
  {
    var k := |p| - 1;
    LastProduct(Res(p), Res(q), Res(p[..k]), Res(q[..k]));
    LastProduct(Ims(p), Ims(q), Ims(p[..k]), Ims(q[..k]));
  }

  lemma {:induction false} LastProduct(v: Vec, w: Vec, v': Vec, w': Vec)
    requires |v| == |w| > 0 && v' == v[..|v| - 1] && w' == w[..|w| - 1]
    ensures Dot(v, w) == Dot(v', w') + v[|v| - 1] * w[|w| - 1]
  {
  }

  lemma {:induction false} RotatedDot(v: Vec, w: Vec, t: seq<Pair>, u: seq<Pair>)
    requires |v| == |w| == 2 * |t| && |u| == |t|
    ensures Dot(Rotated(v, t), Rotated(w, u)) == InnerTotal(Turn(t, Pairs(v)), Turn(u, Pairs(w)))
  {
    var p, q := Turn(t, Pairs(v)), Turn(u, Pairs(w));
    PartsTotal(p, q);
    DotSplit(Res(p), Res(q), Ims(p), Ims(q));
  }

  lemma {:induction false} LastTwo(v: Vec, w: Vec)
    requires |v| == |w| >= 2
    ensures var n := |v| - 2; Dot(v, w) == Dot(v[..n], w[..n]) + (v[n] * w[n] + v[n + 1] * w[n + 1])
  {
    var n := |v| - 2;
    assert v[..n + 1][..n] == v[..n] && w[..n + 1][..n] == w[..n];
    assert Dot(v[..n + 1], w[..n + 1]) == Dot(v[..n], w[..n]) + v[n] * w[n];
  }

  lemma {:induction false} PlainDot(v: Vec, w: Vec)
    requires |v| == |w| && |v| % 2 == 0
    ensures Dot(v, w) == InnerTotal(Pairs(v), Pairs(w))
    decreases |v|
  {
    if v != [] {
      var n := |v| - 2;
      PlainDot(v[..n], w[..n]);
      LastTwo(v, w);
      var p, q := Pairs(v), Pairs(w);
      assert p[..n / 2] == Pairs(v[..n]) && q[..n / 2] == Pairs(w[..n]);
      LastInner(p, q);
      assert Inner(p[n / 2], q[n / 2]) == v[n] * w[n] + v[n + 1] * w[n + 1];
    }
  }

  /** The table row of a position: every frequency's entry. */
  function TableRow(us: seq<Pair>, mscale: real, at: nat): (r: seq<Pair>)
    ensures |r| == |us|
  {
    seq(|us|, j requires 0 <= j < |us| => Entry(us[j], mscale, at))
  }

  /** At position 0, with mscale 1, a vector is only de-interleaved. */
  lemma {:induction false} AtStart(v: Vec, us: seq<Pair>)
    requires |v| == 2 * |us|
    ensures Rotated(v, TableRow(us, 1.0, 0)) == Deinterleave(v)
  {
    StartTurnsNothing(Pairs(v), us);
    DeinterleaveIsFlat(v);
  }

  lemma {:induction false} StartTurnsNothing(p: seq<Pair>, us: seq<Pair>)
    requires |p| == |us|
    ensures Turn(TableRow(us, 1.0, 0), p) == p
  {
    var row := TableRow(us, 1.0, 0);
    var turned := Turn(row, p);
    forall j | 0 <= j < |us| ensures turned[j] == p[j] {
      EntrySteps(us[j], 1.0, 0);
      TimesOne(row[j], p[j]);
    }
    assert turned == p;
  }

  lemma {:induction false} TimesOne(one: Pair, a: Pair)
    requires one == Pair(1.0, 0.0)
    ensures Times(one, a) == a
  {
  }

  /** One position further every plane is turned by its frequency once more. */
  lemma {:induction false} NextPosition(p: seq<Pair>, us: seq<Pair>, mscale: real, at: nat)
    requires |p| == |us|
    ensures Turn(TableRow(us, mscale, at + 1), p) == Turn(us, Turn(TableRow(us, mscale, at), p))
  {
    forall j | 0 <= j < |us|
      ensures Times(Entry(us[j], mscale, at + 1), p[j]) == Times(us[j], Times(Entry(us[j], mscale, at), p[j]))
    {
      EntrySteps(us[j], mscale, at);
      TimesAssociative(us[j], Entry(us[j], mscale, at), p[j]);
    }
  }

  predicate AllUnit(us: seq<Pair>) {
    forall j :: 0 <= j < |us| ==> Unit(us[j])
  }

  lemma {:induction false} TotalShift(p: seq<Pair>, q: seq<Pair>, us: seq<Pair>, mscale: real, m: nat, n: nat, d: nat)
    requires AllUnit(us) && |p| == |q| == |us|
    ensures InnerTotal(Turn(TableRow(us, mscale, m + d), p), Turn(TableRow(us, mscale, n + d), q))
            == InnerTotal(Turn(TableRow(us, mscale, m), p), Turn(TableRow(us, mscale, n), q))
  {
    var shifted := Inners(Turn(TableRow(us, mscale, m + d), p), Turn(TableRow(us, mscale, n + d), q));
    var plain := Inners(Turn(TableRow(us, mscale, m), p), Turn(TableRow(us, mscale, n), q));
    forall j | 0 <= j < |us| ensures shifted[j] == plain[j] {
      InnerShift(us[j], mscale, m, n, d, p[j], q[j]);
    }
    assert shifted == plain;
  }

  lemma {:induction false} TotalAtEqual(p: seq<Pair>, q: seq<Pair>, us: seq<Pair>, mscale: real, m: nat)
    requires AllUnit(us) && |p| == |q| == |us|
    ensures InnerTotal(Turn(TableRow(us, mscale, m), p), Turn(TableRow(us, mscale, m), q))
            == mscale * mscale * InnerTotal(p, q)
  {
    var turned := Inners(Turn(TableRow(us, mscale, m), p), Turn(TableRow(us, mscale, m), q));
    var w := mscale * mscale;
    forall j | 0 <= j < |us| ensures turned[j] == w * Inners(p, q)[j] {
      InnerAtEqual(us[j], mscale, m, p[j], q[j]);
      assert turned[j] == Inner(Times(Entry(us[j], mscale, m), p[j]), Times(Entry(us[j], mscale, m), q[j]));
    }
    TotalScaled(turned, Inners(p, q), w);
  }

  lemma {:induction false} TotalScaled(scaled: seq<real>, plain: seq<real>, w: real)
    requires |scaled| == |plain| && forall j :: 0 <= j < |plain| ==> scaled[j] == w * plain[j]
    ensures Total(scaled) == w * Total(plain)
    decreases |plain|
  {
    if plain != [] {
      var k := |plain| - 1;
      TotalScaled(scaled[..k], plain[..k], w);
      Distribute(w, Total(plain[..k]), plain[k], Total(scaled), Total(plain));
    }
  }

  lemma {:induction false} Distribute(w: real, a: real, b: real, scaled: real, plain: real)
    requires scaled == w * a + w * b && plain == a + b
    ensures scaled == w * plain
  {
  }

  /** Relative positions: the inner product of q at m with k at n does not change when both positions shift. */
  lemma {:induction false} ShiftInvariant(q: Vec, k: Vec, us: seq<Pair>, mscale: real, m: nat, n: nat, d: nat)
    requires AllUnit(us) && |q| == |k| == 2 * |us|
    ensures Dot(Rotated(q, TableRow(us, mscale, m + d)), Rotated(k, TableRow(us, mscale, n + d)))
            == Dot(Rotated(q, TableRow(us, mscale, m)), Rotated(k, TableRow(us, mscale, n)))
  {
    RotatedDot(q, k, TableRow(us, mscale, m + d), TableRow(us, mscale, n + d));
    RotatedDot(q, k, TableRow(us, mscale, m), TableRow(us, mscale, n));
    TotalShift(Pairs(q), Pairs(k), us, mscale, m, n, d);
  }

  /** At equal positions the rotation only scales inner products, by mscale squared: not at all when mscale is 1. */
  lemma {:induction false} EqualPositions(q: Vec, k: Vec, us: seq<Pair>, mscale: real, m: nat)
    requires AllUnit(us) && |q| == |k| == 2 * |us|
    ensures Dot(Rotated(q, TableRow(us, mscale, m)), Rotated(k, TableRow(us, mscale, m))) == mscale * mscale * Dot(q, k)
  {
    RotatedDot(q, k, TableRow(us, mscale, m), TableRow(us, mscale, m));
    TotalAtEqual(Pairs(q), Pairs(k), us, mscale, m);
    PlainDot(q, k);
  }
}
