/** Result and option types shared by the model's modules. */
module Prelude {
  datatype Option<+T> = None | Some(value: T)

  datatype Result<+T, +E> = Ok(value: T) | Err(error: E)
}

/** Sequences and finite sets: the few notions that several modules share. */
module Sequences {

  function Concat<T>(ss: seq<seq<T>>): (r: seq<T>)
    decreases |ss|
  {
    if ss == [] then [] else Concat(ss[..|ss| - 1]) + ss[|ss| - 1]
  }

  function Sum(c: seq<nat>): nat
    decreases |c|
  {
    if c == [] then 0 else Sum(c[..|c| - 1]) + c[|c| - 1]
  }

  lemma {:induction false} SumOfOne(n: nat)
    ensures Sum([n]) == n
  {
    assert [n][..0] == [];
  }

  function Repeat<T>(v: T, k: nat): seq<T> {
    seq(k, _ => v)
  }

  function Map<A, B>(f: A -> B, s: seq<A>): (r: seq<B>)
    ensures |r| == |s| && forall i :: 0 <= i < |s| ==> r[i] == f(s[i])
  {
    seq(|s|, i requires 0 <= i < |s| => f(s[i]))
  }

  /** The steps between two moments of a run that are not spins, which change nothing. */
  function Moves<S(==)>(run: seq<S>, a: nat, b: nat): nat
    requires a <= b < |run|
    decreases b - a
  {
    if a == b then 0 else (if run[a + 1] == run[a] then 0 else 1) + Moves(run, a + 1, b)
  }

  /** How often v occurs. */
  function Occurrences<T(==)>(s: seq<T>, v: T): nat {
    if s == [] then 0 else (if s[0] == v then 1 else 0) + Occurrences(s[1..], v)
  }

  lemma {:induction false} OccurrencesConcat<T>(a: seq<T>, b: seq<T>, v: T)
    ensures Occurrences(a + b, v) == Occurrences(a, v) + Occurrences(b, v)
  {
    if a == [] {
      assert a + b == b;
    } else {
      assert (a + b)[1..] == a[1..] + b;
      OccurrencesConcat(a[1..], b, v);
    }
  }

  lemma {:induction false} OccurrencesAreMultiplicity<T>(s: seq<T>, v: T)
    ensures multiset(s)[v] == Occurrences(s, v)
  {
    if s != [] {
      assert s == [s[0]] + s[1..];
      OccurrencesAreMultiplicity(s[1..], v);
    }
  }

  /** The numbers below n. */
  function Below(n: nat): (r: set<nat>)
    ensures |r| == n && forall j: nat :: j in r <==> j < n
  {
    if n == 0 then {} else Below(n - 1) + {n - 1}
  }

  predicate Distinct<T(==)>(s: seq<T>) {
    forall i, j :: 0 <= i < j < |s| ==> s[i] != s[j]
  }

  lemma {:induction false} ElementsSize<T>(s: seq<T>, elements: set<T>)
    requires forall c :: c in elements <==> c in s
    ensures |elements| <= |s| && (|elements| == |s| <==> Distinct(s))
  {
    assert elements == set c | c in s;
    DistinctSize(s);
  }

  lemma {:induction false} DistinctSize<T>(s: seq<T>)
    ensures |(set c | c in s)| <= |s|
    ensures Distinct(s) <==> |(set c | c in s)| == |s|
  {
    if s != [] {
      var n := |s| - 1;
      DistinctSize(s[..n]);
      assert (set c | c in s) == (set c | c in s[..n]) + {s[n]};
      if s[n] in s[..n] {
        var i :| 0 <= i < n && s[i] == s[n];
        assert (set c | c in s) == (set c | c in s[..n]);
      } else if Distinct(s[..n]) {
        forall i, j | 0 <= i < j < |s| ensures s[i] != s[j] {
          if j == n { assert s[i] in s[..n]; } else { assert s[..n][i] != s[..n][j]; }
        }
      } else {
        var i, j :| 0 <= i < j < n && s[..n][i] == s[..n][j];
        assert s[i] == s[j];
      }
    }
  }

  lemma {:induction false} SubsetSize<T>(a: set<T>, b: set<T>)
    requires a <= b
    ensures |a| <= |b|
    ensures |a| == |b| ==> a == b
  {
    assert b == a + (b - a);
  }

  lemma {:induction false} ConcatMembers<T>(m: seq<seq<T>>, e: T)
    ensures e in Concat(m) <==> exists t :: 0 <= t < |m| && e in m[t]
    decreases |m|
  {
    if m != [] {
      var n := |m| - 1;
      ConcatMembers(m[..n], e);
      if e in Concat(m[..n]) {
        var t :| 0 <= t < n && e in m[..n][t];
        assert e in m[t];
      }
      if exists t :: 0 <= t < |m| && e in m[t] {
        var t :| 0 <= t < |m| && e in m[t];
        if t < n { assert e in m[..n][t]; }
      }
    }
  }

  lemma {:induction false} ConcatSplit<T>(a: seq<seq<T>>, b: seq<seq<T>>)
    ensures Concat(a + b) == Concat(a) + Concat(b)
    decreases |b|
  {
    if b == [] {
      assert a + b == a;
    } else {
      var n := |b| - 1;
      ConcatSplit(a, b[..n]);
      assert (a + b)[..|a + b| - 1] == a + b[..n];
    }
  }

  lemma {:induction false} SumSplit(a: seq<nat>, b: seq<nat>)
    ensures Sum(a + b) == Sum(a) + Sum(b)
    decreases |b|
  {
    if b == [] {
      assert a + b == a;
    } else {
      var n := |b| - 1;
      SumSplit(a, b[..n]);
      assert (a + b)[..|a + b| - 1] == a + b[..n];
    }
  }

  /** A matrix with k columns. */
  predicate Rows<T>(m: seq<seq<T>>, k: nat) {
    forall t :: 0 <= t < |m| ==> |m[t]| == k
  }

  lemma {:induction false} ConcatLength<T>(rows: seq<seq<T>>, k: nat)
    requires Rows(rows, k)
    ensures |Concat(rows)| == |rows| * k
    decreases |rows|
  {
    if rows != [] {
      var m := |rows| - 1;
      ConcatLength(rows[..m], k);
      assert |rows[m]| == k;
      assert |rows| * k == m * k + k;
    }
  }

  /** Row t and column j of a matrix with k columns, flattened. */
  lemma {:induction false} ConcatAt<T>(rows: seq<seq<T>>, k: nat, t: nat, j: nat)
    requires Rows(rows, k) && t < |rows| && j < k
    ensures t * k + j < |Concat(rows)| && Concat(rows)[t * k + j] == rows[t][j]
    decreases |rows|
  {
    var m := |rows| - 1;
    ConcatLength(rows[..m], k);
    if t < m { ConcatAt(rows[..m], k, t, j); }
  }
}

/** Positions in row-major storage. */
module Arithmetic {

  lemma {:induction false} StrictMultiple(a: int, b: int, k: nat)
    requires a < b
    ensures a * k + k <= b * k
  {
    var d := b - a - 1;
    assert b * k == a * k + k + d * k;
    assert 0 <= d * k;
  }

  /** Quotient and remainder are the only ones of their kind. */
  lemma {:induction false} DivisionIs(x: int, m: nat, q: int, r: nat)
    requires x == q * m + r && r < m
    ensures x / m == q && x % m == r
  {
    var q', r' := x / m, x % m;
    assert x == q' * m + r';
    if q < q' { StrictMultiple(q, q', m); }
    if q' < q { StrictMultiple(q', q, m); }
  }

  lemma {:induction false} NextRowStart(t: nat, n: nat, k: nat, at: int)
    requires t < n && at == t * k
    ensures 0 <= at && at + k == (t + 1) * k && at + k <= n * k
  {
    RowEnds(t, n, k);
  }

  lemma {:induction false} RowEnds(t: nat, n: nat, k: nat)
    requires t < n
    ensures t * k + k <= n * k
  {
    StrictMultiple(t, n, k);
  }
}

/** Vectors of reals: sums and inner products. */
module Vectors {
  import opened Arithmetic

  type Vec = seq<real>

  function Total(s: seq<real>): real
    decreases |s|
  {
    if s == [] then 0.0 else Total(s[..|s| - 1]) + s[|s| - 1]
  }

  lemma {:induction false} TotalSplit(a: seq<real>, b: seq<real>)
    ensures Total(a + b) == Total(a) + Total(b)
    decreases |b|
  {
    if b == [] {
      assert a + b == a;
    } else {
      TotalSplit(a, b[..|b| - 1]);
      assert (a + b)[..|a + b| - 1] == a + b[..|b| - 1];
    }
  }

  lemma {:induction false} TotalOfOne(x: real)
    ensures Total([x]) == x
  {
    assert [x][..0] == [];
  }

  function Dot(a: Vec, b: Vec): real
    requires |a| == |b|
    decreases |a|
  {
    if a == [] then 0.0 else Dot(a[..|a| - 1], b[..|b| - 1]) + a[|a| - 1] * b[|b| - 1]
  }

  lemma {:induction false} DotSplit(a: Vec, b: Vec, a': Vec, b': Vec)
    requires |a| == |b| && |a'| == |b'|
    ensures Dot(a + a', b + b') == Dot(a, b) + Dot(a', b')
    decreases |a'|
  {
    if a' == [] {
      assert a + a' == a && b + b' == b;
    } else {
      var m := |a'| - 1;
      DotSplit(a, b, a'[..m], b'[..m]);
      assert (a + a')[..|a + a'| - 1] == a + a'[..m] && (b + b')[..|b + b'| - 1] == b + b'[..m];
    }
  }

  lemma {:induction false} DotOfOne(x: real, y: real)
    ensures Dot([x], [y]) == x * y
  {
    assert [x][..0] == [] && [y][..0] == [];
  }

  /** Row t of a buffer of n rows, h components each. */
  function RowAt(buffer: Vec, h: nat, n: nat, t: nat): (r: Vec)
    requires t < n && n * h <= |buffer|
    ensures |r| == h
    decreases t
  {
    OneRowLess(n, h);
    if t == 0 then buffer[..h] else RowAt(buffer[h..], h, n - 1, t - 1)
  }

  lemma {:induction false} OneRowLess(n: nat, h: nat)
    requires n > 0
    ensures n * h == (n - 1) * h + h && (n - 1) * h >= 0
  {
  }

  lemma {:induction false} RowAtIs(buffer: Vec, h: nat, n: nat, t: nat)
    requires t < n && n * h <= |buffer|
    ensures 0 <= t * h && t * h + h <= n * h && RowAt(buffer, h, n, t) == buffer[t * h..t * h + h]
    decreases t
  {
    RowEnds(t, n, h);
    if t > 0 {
      OneRowLess(n, h);
      OneRowLess(t, h);
      RowAtIs(buffer[h..], h, n - 1, t - 1);
    }
  }

  /** Overwrite part of a vector. */
  function Spliced(v: Vec, part: Vec, at: nat): (r: Vec)
    requires at + |part| <= |v|
    ensures |r| == |v|
  {
    v[..at] + part + v[at + |part|..]
  }

  /** Element-wise copy into a stretch of an array. */
  method Overwrite(a: array<real>, at: nat, part: Vec)
    requires at + |part| <= a.Length
    modifies a
    ensures a[..] == Spliced(old(a[..]), part, at)
  {
    var i := 0;
    while i < |part|
      invariant 0 <= i <= |part|
      invariant forall p :: at <= p < at + i ==> a[p] == part[p - at]
      invariant forall p :: 0 <= p < a.Length && !(at <= p < at + i) ==> a[p] == old(a[p])
    {
      a[at + i] := part[i];
      i := i + 1;
    }
    forall p | 0 <= p < a.Length ensures a[..][p] == Spliced(old(a[..]), part, at)[p] { }
  }

  /** Overwriting row t leaves the other rows alone, and what lies behind them. */
  lemma {:induction false} RowsWritten(before: Vec, after: Vec, row: Vec, h: nat, n: nat, t: nat, at: nat)
    requires t < n && n * h <= |before| && |row| == h && at == t * h && at + h <= |before|
    requires after == before[..at] + row + before[at + h..]
    ensures n * h >= 0 && RowAt(after, h, n, t) == row && after[n * h..] == before[n * h..]
    ensures forall t' :: 0 <= t' < n && t' != t ==> RowAt(after, h, n, t') == RowAt(before, h, n, t')
  {
    RowAtIs(after, h, n, t);
    forall t' | 0 <= t' < n && t' != t ensures RowAt(after, h, n, t') == RowAt(before, h, n, t') {
      OtherRow(before, after, row, h, n, t, at, t');
    }
  }

  lemma {:induction false} OtherRow(before: Vec, after: Vec, row: Vec, h: nat, n: nat, t: nat, at: nat, t': nat)
    requires t < n && n * h <= |before| && |row| == h && at == t * h && at + h <= |before|
    requires after == before[..at] + row + before[at + h..] && t' < n && t' != t
    ensures RowAt(after, h, n, t') == RowAt(before, h, n, t')
  {
    RowAtIs(after, h, n, t');
    RowAtIs(before, h, n, t');
    if t' < t { StrictMultiple(t', t, h); } else { StrictMultiple(t, t', h); }
  }
}
