/** Mixed-radix task ids: `TaskCounter` of `operators/common.hpp`.  Sizes are unbounded here. */
module TaskCounter {
  import opened Prelude
  import opened Arithmetic

  datatype AtError = OutOfRange | DivisionByZero

  function Product(s: seq<nat>): nat {
    if s == [] then 1 else s[0] * Product(s[1..])
  }

  lemma {:induction false} ProductPush(s: seq<nat>, i: nat)
    ensures Product(s + [i]) == Product(s) * i
    decreases |s|
  {
    if s == [] {
      assert s + [i] == [i] && [i][1..] == [];
    } else {
      ProductPush(s[1..], i);
      assert (s + [i])[1..] == s[1..] + [i];
      assert s[0] * (Product(s[1..]) * i) == s[0] * Product(s[1..]) * i;
    }
  }

  predicate Positive(s: seq<nat>) {
    forall k :: 0 <= k < |s| ==> s[k] > 0
  }

  lemma {:induction false} ProductPositive(s: seq<nat>)
    ensures Product(s) > 0 <==> Positive(s)
    decreases |s|
  {
    if s != [] {
      ProductPositive(s[1..]);
      if Positive(s) {
        assert Positive(s[1..]);
        Product2(s[0], Product(s[1..]));
      } else if s[0] > 0 {
        var k :| 0 <= k < |s| && s[k] == 0;
        assert s[1..][k - 1] == 0;
        assert Product(s[1..]) == 0;
      }
    }
  }

  lemma {:induction false} Product2(a: nat, b: nat)
    ensures a > 0 && b > 0 ==> a * b > 0
  {
  }

  class TaskCounter {
    var fold: seq<nat>
    var card: seq<nat>

    /** card[k] is the number of ids that share everything before position k. */
    ghost predicate Valid()
      reads this
    {
      |card| == |fold| + 1 && forall k :: 0 <= k < |card| ==> card[k] == Product(fold[k..])
    }

    constructor (factors: seq<nat>)
      ensures Valid() && fold == factors
    {
      fold, card := [], [1];
      new;
      var j := 0;
      while j < |factors|
        invariant 0 <= j <= |factors| && Valid() && fold == factors[..j]
      {
        PushBack(factors[j]);
        j := j + 1;
      }
    }

    method PushBack(i: nat)
      requires Valid()
      modifies this
      ensures Valid() && fold == old(fold) + [i]
    {
      ghost var before := fold;
      fold := fold + [i];
      var k := 0;
      while k < |card|
        invariant 0 <= k <= |card| == |before| + 1 && fold == before + [i]
        invariant forall l :: 0 <= l < k ==> card[l] == Product(before[l..]) * i
        invariant forall l :: k <= l < |card| ==> card[l] == Product(before[l..])
      {
        card := card[k := card[k] * i];
        k := k + 1;
      }
      forall l | 0 <= l < |card| ensures Product(fold[l..]) == card[l] {
        ProductPush(before[l..], i);
        assert fold[l..] == before[l..] + [i];
      }
      assert fold[|card|..] == [];
      card := card + [1];
    }

    method Count() returns (n: nat)
      requires Valid()
      ensures n == Product(fold)
    {
      assert fold[0..] == fold;
      n := card[0];
    }

    /** `at`: `vector::at` throws beyond the end; a zero factor at or behind the position divides by zero. */
    method At(id: nat, which: nat) returns (r: Result<nat, AtError>)
      requires Valid()
      ensures r == Err(OutOfRange) <==> which >= |fold|
      ensures r == Err(DivisionByZero) <==> which < |fold| && !Positive(fold[which..])
      ensures r.Ok? ==> r.value == Digit(fold, id, which)
    {
      if which >= |fold| {
        return Err(OutOfRange);
      }
      ProductPositive(fold[which..]);
      if card[which] == 0 {
        return Err(DivisionByZero);
      }
      ProductPositive(fold[which + 1..]);
      assert Positive(fold[which + 1..]) by { TailPositive(fold, which); }
      r := Ok(id % card[which] / card[which + 1]);
    }
  }

  lemma {:induction false} TailPositive(fold: seq<nat>, k: nat)
    requires k < |fold| && Positive(fold[k..])
    ensures fold[k] > 0 && Positive(fold[k + 1..])
  {
    assert fold[k..][0] == fold[k];
    var tail := fold[k + 1..];
    forall l | 0 <= l < |tail| ensures tail[l] > 0 { assert fold[k..][l + 1] == tail[l]; }
  }

  /** Position k of an id. */
  function Digit(fold: seq<nat>, id: nat, k: nat): nat
    requires k < |fold| && Positive(fold[k..])
  {
    TailPositive(fold, k);
    ProductPositive(fold[k..]);
    ProductPositive(fold[k + 1..]);
    id % Product(fold[k..]) / Product(fold[k + 1..])
  }

  /** All positions of an id. */
  function Digits(fold: seq<nat>, id: nat): (d: seq<nat>)
    requires Positive(fold)
    ensures |d| == |fold|
    decreases |fold|
  {
    if fold == [] then [] else
      PositiveTail(fold);
      [First(fold, id)] + Digits(fold[1..], id)
  }

  function First(fold: seq<nat>, id: nat): nat
    requires Positive(fold) && fold != []
  {
    PositiveTail(fold);
    Split(id, fold[0], Product(fold[1..])).0
  }

  /** The quotient and the remainder of id, modulo f * p, by p. */
  function Split(id: nat, f: nat, p: nat): (r: (nat, nat))
    requires f > 0 && p > 0
  {
    Product2(f, p);
    (id % (f * p) / p, id % p)
  }

  lemma {:induction false} PositiveTail(fold: seq<nat>)
    requires Positive(fold) && fold != []
    ensures fold[0] > 0 && Positive(fold[1..]) && Product(fold[1..]) > 0
  {
    ProductPositive(fold[1..]);
  }

  /** `at` reads off these positions. */
  lemma {:induction false} DigitsAt(fold: seq<nat>, id: nat, k: nat)
    requires Positive(fold) && k < |fold|
    ensures Positive(fold[k..]) && Digits(fold, id)[k] == Digit(fold, id, k)
    decreases k
  {
    PositiveTail(fold);
    if k == 0 {
      assert fold[0..] == fold;
    } else {
      assert fold[1..][k - 1..] == fold[k..] && fold[1..][k..] == fold[k + 1..];
      DigitsAt(fold[1..], id, k - 1);
    }
  }

  /** The id made of some digits: each weighs as much as the radices behind it multiply to. */
  function IdOf(fold: seq<nat>, d: seq<nat>): nat
    requires |d| == |fold|
  {
    if d == [] then 0 else d[0] * Product(fold[1..]) + IdOf(fold[1..], d[1..])
  }

  predicate AreDigits(fold: seq<nat>, d: seq<nat>) {
    |d| == |fold| && forall k :: 0 <= k < |d| ==> d[k] < fold[k]
  }

  // ---- ids and digits -------------------------------------------------------------------------

  /** Splitting is exact. */
  lemma {:induction false} SplitIs(id: nat, f: nat, p: nat)
    requires f > 0 && p > 0
    ensures f * p > 0 && Split(id, f, p).0 < f && Split(id, f, p).1 < p
    ensures id == id / (f * p) * (f * p) + Split(id, f, p).0 * p + Split(id, f, p).1
  {
    Product2(f, p);
    var q, x := id / (f * p), id % (f * p);
    assert id == q * (f * p) + x;
    var a, b := x / p, x % p;
    assert x == a * p + b;
    Regroup(q, f, p, a);
    DivisionIs(id, p, q * f + a, b);
    if a >= f { SmallerMultiple(f, a, p); }
  }

  lemma {:induction false} Regroup(q: nat, f: nat, p: nat, a: nat)
    ensures q * (f * p) + a * p == (q * f + a) * p
  {
    assert q * (f * p) == (q * f) * p;
  }

  lemma {:induction false} SmallerMultiple(a: nat, b: nat, m: nat)
    requires a <= b
    ensures a * m <= b * m
  {
    if a < b { StrictMultiple(a, b, m); }
  }

  /** The split is the only one. */
  lemma {:induction false} SplitUnique(id: nat, f: nat, p: nat, q: nat, a: nat, b: nat)
    requires a < f && b < p && id == q * (f * p) + a * p + b
    ensures f * p > 0 && Split(id, f, p) == (a, b) && id / (f * p) == q
  {
    Product2(f, p);
    StrictMultiple(a, f, p);
    DivisionIs(id, f * p, q, a * p + b);
    DivisionIs(a * p + b, p, a, b);
    Regroup(q, f, p, a);
    DivisionIs(id, p, q * f + a, b);
  }

  /** Every digit is below its radix. */
  lemma {:induction false} DigitsBelow(fold: seq<nat>, id: nat)
    requires Positive(fold)
    ensures AreDigits(fold, Digits(fold, id))
    decreases |fold|
  {
    if fold != [] {
      PositiveTail(fold);
      SplitIs(id, fold[0], Product(fold[1..]));
      DigitsBelow(fold[1..], id);
      var d := Digits(fold, id);
      forall k | 0 <= k < |fold| ensures d[k] < fold[k] {
        if k > 0 { assert d[1..][k - 1] < fold[1..][k - 1]; }
      }
    }
  }

  /** The weighted digits of an id add up to it, modulo the count. */
  lemma {:induction false} DigitsAddUp(fold: seq<nat>, id: nat)
    requires Positive(fold)
    ensures Product(fold) > 0 && IdOf(fold, Digits(fold, id)) == id % Product(fold)
    decreases |fold|
  {
    if fold != [] {
      PositiveTail(fold);
      DigitsAddUp(fold[1..], id);
      RemainderIs(id, fold[0], Product(fold[1..]));
      assert Digits(fold, id)[1..] == Digits(fold[1..], id);
    }
  }

  lemma {:induction false} RemainderIs(id: nat, f: nat, p: nat)
    requires f > 0 && p > 0
    ensures f * p > 0 && id % (f * p) == Split(id, f, p).0 * p + Split(id, f, p).1
  {
    SplitIs(id, f, p);
    var a, b := Split(id, f, p).0, Split(id, f, p).1;
    StrictMultiple(a, f, p);
    DivisionIs(id, f * p, id / (f * p), a * p + b);
  }

  lemma {:induction false} SmallRemainder(x: nat, m: nat)
    requires x < m
    ensures x % m == x
  {
    DivisionIs(x, m, 0, x);
  }

  /** Every id below the count is the id of its digits. */
  lemma {:induction false} IdOfDigits(fold: seq<nat>, id: nat)
    requires Positive(fold) && id < Product(fold)
    ensures IdOf(fold, Digits(fold, id)) == id
  {
    DigitsAddUp(fold, id);
    SmallRemainder(id, Product(fold));
  }

  lemma {:induction false} IdBelowCount(fold: seq<nat>, d: seq<nat>)
    requires AreDigits(fold, d)
    ensures IdOf(fold, d) < Product(fold)
    decreases |fold|
  {
    if fold != [] {
      IdBelowCount(fold[1..], d[1..]);
      StrictMultiple(d[0], fold[0], Product(fold[1..]));
    }
  }

  /** Every tuple of digits is the digits of its id, also after adding a multiple of the count: with `IdOfDigits`,
      ids below the count and digit tuples correspond one to one. */
  lemma {:induction false} DigitsOfId(fold: seq<nat>, d: seq<nat>, c: nat)
    requires AreDigits(fold, d)
    ensures Positive(fold) && Digits(fold, c * Product(fold) + IdOf(fold, d)) == d
    decreases |fold|
  {
    forall k | 0 <= k < |fold| ensures fold[k] > 0 { assert d[k] < fold[k]; }
    if fold != [] {
      PositiveTail(fold);
      var f, p, rest := fold[0], Product(fold[1..]), IdOf(fold[1..], d[1..]);
      var id := c * Product(fold) + IdOf(fold, d);
      IdBelowCount(fold[1..], d[1..]);
      assert id == c * (f * p) + d[0] * p + rest;
      SplitUnique(id, f, p, c, d[0], rest);
      Regroup(c, f, p, d[0]);
      DigitsOfId(fold[1..], d[1..], c * f + d[0]);
      assert d == [d[0]] + d[1..];
    }
  }

  /** Different ids below the count differ in some digit. */
  lemma {:induction false} DigitsDetermine(fold: seq<nat>, a: nat, b: nat)
    requires Positive(fold) && a < Product(fold) && b < Product(fold) && Digits(fold, a) == Digits(fold, b)
    ensures a == b
  {
    IdOfDigits(fold, a);
    IdOfDigits(fold, b);
  }
}
