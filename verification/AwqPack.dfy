/**
 Repacking AWQ int4 weights (`scripts/convert_cpu_weights.py`): words of eight interleaved nibbles are unpacked,
 de-interleaved, transposed and packed again; with the second unpacker of `scripts/compare_weights.py`.
 A word is an int32; shifts are arithmetic, casts wrap.  The leading batch dimension only repeats all of this and
 is taken to be one.
 */
module AwqPack {
  import opened Prelude
  import opened Sequences
  import opened Arithmetic

  const PACK_NUM: nat := 8

  // ---- words and nibbles ----------------------------------------------------------------------

  function Pow16(i: nat): (r: int)
    ensures r > 0
  {
    if i == 0 then 1 else 16 * Pow16(i - 1)
  }

  /** Arithmetic shift by i nibbles: division rounding down, for negative words too. */
  function ShiftRight(w: int, i: nat): int {
    w / Pow16(i)
  }

  function ToInt8(x: int): int {
    (x + 128) % 256 - 128
  }

  function ToInt32(x: int): int {
    (x + 0x8000_0000) % 0x1_0000_0000 - 0x8000_0000
  }

  predicate IsInt32(w: int) {
    -0x8000_0000 <= w < 0x8000_0000
  }

  /** `& 0x0F` in two's complement. */
  function And15(x: int): (r: int)
    ensures 0 <= r < 16
  {
    x % 16
  }

  /** Nibble i of a word. */
  function Nibble(w: int, i: nat): int {
    And15(ToInt8(ShiftRight(w, i)))
  }

  /** The low k nibbles, lowest first. */
  function Digits(w: int, k: nat): (d: seq<int>)
    ensures |d| == k && forall i :: 0 <= i < k ==> 0 <= d[i] < 16
    decreases k
  {
    if k == 0 then [] else [w % 16] + Digits(w / 16, k - 1)
  }

  function Value(d: seq<int>): int {
    if d == [] then 0 else d[0] + 16 * Value(d[1..])
  }

  lemma {:induction false} ShiftTwice(w: int, i: nat)
    ensures ShiftRight(w, i + 1) == ShiftRight(w / 16, i)
  {
    var p := Pow16(i);
    var a, s := w / 16, w % 16;
    var q, r := a / p, a % p;
    assert a == q * p + r;
    assert w == 16 * a + s;
    assert 16 * (q * p) == q * (16 * p);
    DivisionIs(w, 16 * p, q, 16 * r + s);
  }

  lemma {:induction false} ShiftNothing(w: int)
    ensures ShiftRight(w, 0) == w
  {
  }

  lemma {:induction false} ShiftIsDigit(w: int, k: nat, i: nat)
    requires i < k
    ensures ShiftRight(w, i) % 16 == Digits(w, k)[i]
    decreases i
  {
    if i == 0 {
      ShiftNothing(w);
    } else {
      ShiftTwice(w, i - 1);
      ShiftIsDigit(w / 16, k - 1, i - 1);
    }
  }

  /** The int8 cast keeps the low nibble. */
  lemma {:induction false} CastThenMask(x: int)
    ensures And15(ToInt8(x)) == x % 16
  {
    var q, m := (x + 128) / 256, (x + 128) % 256;
    assert x + 128 == q * 256 + m && ToInt8(x) == m - 128;
    DivisionIs(m - 128, 16, x / 16 - 16 * q, x % 16);
  }

  /** Shifting and masking picks out the digits. */
  lemma {:induction false} NibbleIsDigit(w: int, k: nat, i: nat)
    requires i < k
    ensures Nibble(w, i) == Digits(w, k)[i]
  {
    CastThenMask(ShiftRight(w, i));
    ShiftIsDigit(w, k, i);
  }

  lemma {:induction false} ValueRange(d: seq<int>)
    requires forall i :: 0 <= i < |d| ==> 0 <= d[i] < 16
    ensures 0 <= Value(d) < Pow16(|d|)
    decreases |d|
  {
    if d != [] { ValueRange(d[1..]); }
  }

  /** The digits of a number below 16^k determine it, and adding multiples of 16^k does not change them. */
  lemma {:induction false} DigitsOfValue(d: seq<int>, c: int)
    requires forall i :: 0 <= i < |d| ==> 0 <= d[i] < 16
    ensures Digits(Value(d) + c * Pow16(|d|), |d|) == d
    decreases |d|
  {
    if d != [] {
      var y := Value(d[1..]) + c * Pow16(|d| - 1);
      assert 16 * (c * Pow16(|d| - 1)) == c * (16 * Pow16(|d| - 1));
      DigitsOfValue(d[1..], c);
      DigitsStep(Value(d) + c * Pow16(|d|), y, d[0], |d|);
      assert d == [d[0]] + d[1..];
    }
  }

  lemma {:induction false} DigitsStep(x: int, y: int, first: int, k: nat)
    requires x == 16 * y + first && 0 <= first < 16 && k > 0
    ensures Digits(x, k) == [first] + Digits(y, k - 1)
  {
    assert x / 16 == y && x % 16 == first;
  }

  lemma {:induction false} ValueOfDigits(w: int, k: nat) returns (c: int)
    ensures w == Value(Digits(w, k)) + c * Pow16(k)
    decreases k
  {
    c := w;
    if k > 0 {
      c := ValueOfDigits(w / 16, k - 1);
      var d := Digits(w, k);
      assert d[1..] == Digits(w / 16, k - 1);
      assert 16 * (c * Pow16(k - 1)) == c * Pow16(k);
    }
  }

  /** One word: masked nibbles shifted into place, added up in 64 bits, cut down to 32. */
  function PackWord(n: seq<int>): (w: int)
    requires |n| == PACK_NUM
    ensures IsInt32(w)
  {
    ToInt32(ShiftedSum(n, PACK_NUM))
  }

  /** `(n << shifts).sum()` over the first k nibbles. */
  function ShiftedSum(n: seq<int>, k: nat): int
    requires k <= |n|
  {
    if k == 0 then 0 else ShiftedSum(n, k - 1) + And15(n[k - 1]) * Pow16(k - 1)
  }

  function UnpackWord(w: int): (n: seq<int>)
    ensures |n| == PACK_NUM && forall i :: 0 <= i < PACK_NUM ==> n[i] == Nibble(w, i)
  {
    seq(PACK_NUM, i requires 0 <= i < PACK_NUM => Nibble(w, i))
  }

  function Masked(n: seq<int>): (r: seq<int>)
    ensures |r| == |n| && forall i :: 0 <= i < |n| ==> r[i] == And15(n[i])
  {
    seq(|n|, i requires 0 <= i < |n| => And15(n[i]))
  }

  lemma {:induction false} ValuePush(d: seq<int>, x: int)
    ensures Value(d + [x]) == Value(d) + x * Pow16(|d|)
    decreases |d|
  {
    if d == [] {
      assert d + [x] == [x];
      assert [x][1..] == [];
    } else {
      ValuePush(d[1..], x);
      assert (d + [x])[1..] == d[1..] + [x];
      assert 16 * (x * Pow16(|d| - 1)) == x * Pow16(|d|);
    }
  }

  lemma {:induction false} SumIsValue(n: seq<int>, k: nat)
    requires k <= |n|
    ensures ShiftedSum(n, k) == Value(Masked(n)[..k])
    decreases k
  {
    if k > 0 {
      SumIsValue(n, k - 1);
      ValuePush(Masked(n)[..k - 1], And15(n[k - 1]));
      assert Masked(n)[..k] == Masked(n)[..k - 1] + [And15(n[k - 1])];
    }
  }

  lemma {:induction false} Pow16Of8()
    ensures Pow16(8) == 0x1_0000_0000
  {
    assert Pow16(4) == 16 * Pow16(3) && Pow16(2) == 16 * Pow16(1);
    assert Pow16(4) == 0x1_0000;
    assert Pow16(6) == 16 * Pow16(5) && Pow16(5) == 16 * Pow16(4);
    assert Pow16(8) == 16 * Pow16(7) && Pow16(7) == 16 * Pow16(6);
  }

  /** Unpacking undoes packing, modulo 16. */
  lemma {:induction false} UnpackOfPack(n: seq<int>)
    requires |n| == PACK_NUM
    ensures UnpackWord(PackWord(n)) == Masked(n)
  {
    var c := PackIsValue(n);
    UnpackOfValue(n, PackWord(n), PACK_NUM, c);
  }

  lemma {:induction false} UnpackOfValue(n: seq<int>, w: int, k: nat, c: int)
    requires |n| == k == PACK_NUM && w == Value(Masked(n)) + c * Pow16(k)
    ensures UnpackWord(w) == Masked(n)
  {
    DigitsOfValue(Masked(n), c);
    UnpackIsDigits(w, k);
  }

  /** The packed word is the value of the masked digits, up to a multiple of 2 to the 32. */
  lemma {:induction false} PackIsValue(n: seq<int>) returns (c: int)
    requires |n| == PACK_NUM
    ensures PackWord(n) == Value(Masked(n)) + c * Pow16(PACK_NUM)
  {
    var d := Masked(n);
    SumIsValue(n, PACK_NUM);
    assert d[..PACK_NUM] == d;
    ValueRange(d);
    Pow16Of8();
    c := if Value(d) < 0x8000_0000 then 0 else -1;
  }

  /** Packing undoes unpacking, for every int32 word, negative ones included. */
  lemma {:induction false} PackOfUnpack(w: int)
    requires IsInt32(w)
    ensures PackWord(UnpackWord(w)) == w
  {
    UnpackIsDigits(w, PACK_NUM);
    PackOfDigits(w, PACK_NUM);
  }

  lemma {:induction false} UnpackIsDigits(w: int, k: nat)
    requires k == PACK_NUM
    ensures UnpackWord(w) == Digits(w, k)
  {
    forall i | 0 <= i < k ensures UnpackWord(w)[i] == Digits(w, k)[i] { NibbleIsDigit(w, k, i); }
  }

  lemma {:induction false} PackOfDigits(w: int, k: nat)
    requires k == PACK_NUM && IsInt32(w)
    ensures PackWord(Digits(w, k)) == w
  {
    PackIsWrapped(Digits(w, k), k);
    var c := ValueOfDigits(w, k);
    Pow16Of8();
    WrapsTo(Value(Digits(w, k)), w, c);
  }

  lemma {:induction false} PackIsWrapped(d: seq<int>, k: nat)
    requires |d| == k == PACK_NUM && forall i :: 0 <= i < |d| ==> 0 <= d[i] < 16
    ensures PackWord(d) == ToInt32(Value(d))
  {
    assert Masked(d) == d && d[..k] == d;
    SumIsValue(d, k);
  }

  lemma {:induction false} WrapsTo(v: int, w: int, c: int)
    requires IsInt32(w) && w == v + c * 0x1_0000_0000
    ensures ToInt32(v) == w
  {
  }

  /** A word is determined by its nibbles. */
  lemma {:induction false} SameNibbles(v: int, w: int)
    requires IsInt32(v) && IsInt32(w) && forall i :: 0 <= i < PACK_NUM ==> Nibble(v, i) == Nibble(w, i)
    ensures v == w
  {
    PackOfUnpack(v);
    PackOfUnpack(w);
    assert UnpackWord(v) == UnpackWord(w);
  }

  // ---- matrices -------------------------------------------------------------------------------

  datatype Matrix = Matrix(cols: nat, rows: seq<seq<int>>)

  datatype ShapeError = AmbiguousView | NotDivisible

  predicate WellShaped(m: Matrix) {
    Rows(m.rows, m.cols)
  }

  ghost predicate AllInt32(m: Matrix) {
    forall r, c :: 0 <= r < |m.rows| && 0 <= c < |m.rows[r]| ==> IsInt32(m.rows[r][c])
  }

  /** Why `view(rows, -1, 8)` of a matrix fails, if it does: without rows the missing dimension is anything. */
  function ViewError(m: Matrix): Option<ShapeError> {
    if m.rows == [] then Some(AmbiguousView)
    else if m.cols % PACK_NUM != 0 then Some(NotDivisible)
    else None
  }

  function UnpackRow(row: seq<int>): (r: seq<int>)
    ensures |r| == PACK_NUM * |row|
    ensures forall c :: 0 <= c < |r| ==> r[c] == Nibble(row[c / PACK_NUM], c % PACK_NUM)
  {
    seq(PACK_NUM * |row|, c requires 0 <= c < PACK_NUM * |row| => Nibble(row[c / PACK_NUM], c % PACK_NUM))
  }

  /** `unpack`. */
  function Unpack(q: Matrix): (r: Result<Matrix, ShapeError>)
    requires WellShaped(q)
    ensures r.Ok? ==> WellShaped(r.value)
  {
    if q.rows == [] then Err(AmbiguousView) else Ok(Matrix(PACK_NUM * q.cols, Map(UnpackRow, q.rows)))
  }

  const ORDER: seq<nat> := [0, 4, 1, 5, 2, 6, 3, 7]

  /** The inverse of that permutation. */
  const INTERLEAVE: seq<nat> := [0, 2, 4, 6, 1, 3, 5, 7]

  /** Positions within a group of eight. */
  predicate IsOrder(order: seq<nat>) {
    |order| == PACK_NUM && forall j :: 0 <= j < PACK_NUM ==> order[j] < PACK_NUM
  }

  /** Inside every group of eight, position j takes what stood at position order[j]. */
  function PermuteRow(order: seq<nat>, row: seq<int>): (r: seq<int>)
    requires |row| % PACK_NUM == 0 && IsOrder(order)
    ensures |r| == |row|
    ensures forall c :: 0 <= c < |r| ==> r[c] == row[c / PACK_NUM * PACK_NUM + order[c % PACK_NUM]]
  {
    seq(|row|, c requires 0 <= c < |row| => row[c / PACK_NUM * PACK_NUM + order[c % PACK_NUM]])
  }

  function Permute(order: seq<nat>, m: Matrix): (r: Result<Matrix, ShapeError>)
    requires WellShaped(m) && IsOrder(order)
    ensures r.Ok? ==> WellShaped(r.value)
  {
    if ViewError(m).Some? then Err(ViewError(m).value)
    else Ok(Matrix(m.cols, seq(|m.rows|, r requires 0 <= r < |m.rows| => PermuteRow(order, m.rows[r]))))
  }

  /** Position j of the second order looks at position j of the original. */
  predicate Undoes(second: seq<nat>, first: seq<nat>)
    requires IsOrder(second) && IsOrder(first)
  {
    forall j :: 0 <= j < PACK_NUM ==> first[second[j]] == j
  }

  /** Within a row an order is undone by its inverse, group by group. */
  lemma {:induction false} PermuteBack(first: seq<nat>, second: seq<nat>, row: seq<int>)
    requires IsOrder(first) && IsOrder(second) && Undoes(second, first) && |row| % PACK_NUM == 0
    ensures PermuteRow(second, PermuteRow(first, row)) == row
  {
    var once := PermuteRow(first, row);
    forall c | 0 <= c < |row| ensures PermuteRow(second, once)[c] == row[c] {
      var g, j := c / PACK_NUM, c % PACK_NUM;
      PermutedAt(second, once, g, j);
      PermutedAt(first, row, g, second[j]);
    }
  }

  lemma {:induction false} PermutedAt(order: seq<nat>, row: seq<int>, g: nat, j: nat)
    requires |row| % PACK_NUM == 0 && IsOrder(order) && j < PACK_NUM && PACK_NUM * g + PACK_NUM <= |row|
    ensures PermuteRow(order, row)[PACK_NUM * g + j] == row[PACK_NUM * g + order[j]]
  {
    var c := PACK_NUM * g + j;
    assert c / PACK_NUM == g && c % PACK_NUM == j;
  }

  /** `reverse_awq_interleaving`. */
  function ReverseInterleaving(m: Matrix): (r: Result<Matrix, ShapeError>)
    requires WellShaped(m)
    ensures r.Ok? ==> WellShaped(r.value)
  {
    Permute(ORDER, m)
  }

  /** De-interleaving is undone by interleaving, and the other way round: it only moves entries about. */
  lemma {:induction false} InterleavingUndone(m: Matrix)
    requires WellShaped(m)
    ensures ReverseInterleaving(m).Ok? <==> Permute(INTERLEAVE, m).Ok?
    ensures ReverseInterleaving(m).Ok? ==> Permute(INTERLEAVE, ReverseInterleaving(m).value) == Ok(m)
    ensures Permute(INTERLEAVE, m).Ok? ==> ReverseInterleaving(Permute(INTERLEAVE, m).value) == Ok(m)
  {
    if ViewError(m).None? {
      MatrixBack(ORDER, INTERLEAVE, m);
      MatrixBack(INTERLEAVE, ORDER, m);
    }
  }

  lemma {:induction false} MatrixBack(first: seq<nat>, second: seq<nat>, m: Matrix)
    requires IsOrder(first) && IsOrder(second) && Undoes(second, first) && WellShaped(m) && ViewError(m).None?
    ensures Permute(first, m).Ok? && Permute(second, Permute(first, m).value) == Ok(m)
  {
    var once := Permute(first, m).value;
    var twice := Permute(second, once).value;
    forall r | 0 <= r < |m.rows| ensures twice.rows[r] == m.rows[r] { PermuteBack(first, second, m.rows[r]); }
    assert twice.rows == m.rows;
  }

  function PackRow(row: seq<int>): (r: seq<int>)
    requires |row| % PACK_NUM == 0
    ensures |r| == |row| / PACK_NUM
    ensures forall g :: 0 <= g < |r| ==> r[g] == PackWord(row[PACK_NUM * g..PACK_NUM * g + PACK_NUM])
  {
    seq(|row| / PACK_NUM, g requires 0 <= g < |row| / PACK_NUM => PackWord(row[PACK_NUM * g..PACK_NUM * g + PACK_NUM]))
  }

  /** `pack`. */
  function Pack(m: Matrix): (r: Result<Matrix, ShapeError>)
    requires WellShaped(m)
    ensures r.Ok? ==> WellShaped(r.value)
  {
    if ViewError(m).Some? then Err(ViewError(m).value)
    else Ok(Matrix(m.cols / PACK_NUM, seq(|m.rows|, r requires 0 <= r < |m.rows| => PackRow(m.rows[r]))))
  }

  /** `transpose(1, 2)`. */
  function Transpose(m: Matrix): (r: Matrix)
    requires WellShaped(m)
    ensures WellShaped(r) && r.cols == |m.rows| && |r.rows| == m.cols
  {
    Matrix(|m.rows|, seq(m.cols, c requires 0 <= c < m.cols =>
      seq(|m.rows|, r requires 0 <= r < |m.rows| => m.rows[r][c])))
  }

  /** `pack_column_major_1d(unpack_reverse_awq_interleaving(qweight))`, the weights. */
  function Repack(q: Matrix): (r: Result<Matrix, ShapeError>)
    requires WellShaped(q)
    ensures r.Ok? ==> WellShaped(r.value)
  {
    var i := Unpack(q);
    if i.Err? then i
    else
      var o := ReverseInterleaving(i.value);
      if o.Err? then o else Pack(Transpose(o.value))
  }

  /** The same for the zero points, which are not transposed. */
  function RepackZeros(q: Matrix): (r: Result<Matrix, ShapeError>)
    requires WellShaped(q)
    ensures r.Ok? ==> WellShaped(r.value)
  {
    var i := Unpack(q);
    if i.Err? then i
    else
      var o := ReverseInterleaving(i.value);
      if o.Err? then o else Pack(o.value)
  }

  /** Bits 4 * i to 4 * i + 3 of a word in two's complement. */
  function Bits(w: int, i: nat): int {
    w / Pow16(i) % 16
  }

  lemma {:induction false} NibbleIsBits(w: int, i: nat)
    ensures Nibble(w, i) == Bits(w, i)
  {
    CastThenMask(ShiftRight(w, i));
  }

  /** The logical nibble at (r, c) of an AWQ matrix: a word's low half holds its even columns, its high half the
      odd ones. */
  function Logical(q: Matrix, r: nat, c: nat): int
    requires WellShaped(q) && r < |q.rows| && c < PACK_NUM * q.cols
  {
    var j := c % PACK_NUM;
    Bits(q.rows[r][c / PACK_NUM], j / 2 + 4 * (j % 2))
  }

  lemma {:induction false} LogicalIsNibble(q: Matrix, r: nat, c: nat)
    requires WellShaped(q) && r < |q.rows| && c < PACK_NUM * q.cols
    ensures Logical(q, r, c) == Nibble(q.rows[r][c / PACK_NUM], ORDER[c % PACK_NUM])
  {
    NibbleIsBits(q.rows[r][c / PACK_NUM], ORDER[c % PACK_NUM]);
    EvenThenOdd(c % PACK_NUM);
  }

  lemma {:induction false} EvenThenOdd(j: nat)
    requires j < PACK_NUM
    ensures ORDER[j] == j / 2 + 4 * (j % 2)
  {
  }

  lemma {:induction false} PackedNibble(row: seq<int>, g: nat, j: nat)
    requires |row| % PACK_NUM == 0 && g < |row| / PACK_NUM && j < PACK_NUM
    ensures Nibble(PackRow(row)[g], j) == And15(row[PACK_NUM * g + j])
  {
    var n := row[PACK_NUM * g..PACK_NUM * g + PACK_NUM];
    UnpackOfPack(n);
    assert UnpackWord(PackWord(n))[j] == Masked(n)[j];
  }

  lemma {:induction false} NibbleMasked(w: int, i: nat)
    ensures And15(Nibble(w, i)) == Nibble(w, i)
  {
  }

  /** `unpack` undoes `pack`, modulo 16. */
  lemma {:induction false} UnpackUndoesPack(m: Matrix)
    requires WellShaped(m) && m.rows != [] && m.cols % PACK_NUM == 0
    ensures Pack(m).Ok? && Unpack(Pack(m).value) == Ok(Matrix(m.cols, Map(Masked, m.rows)))
  {
    var packed := Pack(m).value;
    forall r | 0 <= r < |m.rows| ensures UnpackRow(packed.rows[r]) == Masked(m.rows[r]) {
      RowUnpackUndoesPack(m.rows[r]);
    }
    assert Map(UnpackRow, packed.rows) == Map(Masked, m.rows);
  }

  lemma {:induction false} RowUnpackUndoesPack(row: seq<int>)
    requires |row| % PACK_NUM == 0
    ensures UnpackRow(PackRow(row)) == Masked(row)
  {
    forall c | 0 <= c < |row| ensures UnpackRow(PackRow(row))[c] == Masked(row)[c] {
      PackedNibble(row, c / PACK_NUM, c % PACK_NUM);
    }
  }

  /** `pack` undoes `unpack`, on int32 words. */
  lemma {:induction false} PackUndoesUnpack(q: Matrix)
    requires WellShaped(q) && q.rows != [] && AllInt32(q)
    ensures Unpack(q).Ok? && Pack(Unpack(q).value) == Ok(q)
  {
    var back := Pack(Unpack(q).value).value;
    forall r | 0 <= r < |q.rows| ensures back.rows[r] == q.rows[r] {
      RowPackUndoesUnpack(q.rows[r]);
    }
    assert back.rows == q.rows && back.cols == q.cols;
  }

  lemma {:induction false} RowPackUndoesUnpack(row: seq<int>)
    requires forall g :: 0 <= g < |row| ==> IsInt32(row[g])
    ensures PackRow(UnpackRow(row)) == row
  {
    var n := UnpackRow(row);
    forall g | 0 <= g < |row| ensures PackRow(n)[g] == row[g] {
      assert n[PACK_NUM * g..PACK_NUM * g + PACK_NUM] == UnpackWord(row[g]);
      PackOfUnpack(row[g]);
    }
  }

  /** What repacking does: nibble (column, row) of the result is the logical nibble (row, column), eight rows to a
      word.  It succeeds exactly on matrices with words in them whose rows come in groups of eight. */
  lemma {:induction false} RepackPlaces(q: Matrix)
    requires WellShaped(q)
    ensures Repack(q).Ok? <==> q.rows != [] && q.cols > 0 && |q.rows| % PACK_NUM == 0
    ensures Repack(q).Ok? ==>
              && Repack(q).value.cols == |q.rows| / PACK_NUM && |Repack(q).value.rows| == PACK_NUM * q.cols
              && forall r, c :: 0 <= r < |q.rows| && 0 <= c < PACK_NUM * q.cols ==>
                   Bits(Repack(q).value.rows[c][r / PACK_NUM], r % PACK_NUM) == Logical(q, r, c)
  {
    if Repack(q).Ok? {
      forall r, c | 0 <= r < |q.rows| && 0 <= c < PACK_NUM * q.cols
        ensures Bits(Repack(q).value.rows[c][r / PACK_NUM], r % PACK_NUM) == Logical(q, r, c)
      {
        RepackedNibble(q, r, c);
        NibbleIsBits(Repack(q).value.rows[c][r / PACK_NUM], r % PACK_NUM);
      }
    }
  }

  /** Row r, unpacked and put in order. */
  function Ordered(q: Matrix, r: nat): (o: seq<int>)
    requires WellShaped(q) && r < |q.rows|
    ensures |o| == PACK_NUM * q.cols
  {
    PermuteRow(ORDER, UnpackRow(q.rows[r]))
  }

  /** Row c of the result packs column c of the ordered rows. */
  lemma {:induction false} RepackedRow(q: Matrix, c: nat) returns (column: seq<int>)
    requires WellShaped(q) && Repack(q).Ok? && c < PACK_NUM * q.cols
    ensures |column| == |q.rows| && |column| % PACK_NUM == 0 && c < |Repack(q).value.rows|
    ensures Repack(q).value.rows[c] == PackRow(column)
    ensures forall r :: 0 <= r < |column| ==> column[r] == Ordered(q, r)[c]
  {
    var o := ReverseInterleaving(Unpack(q).value).value;
    column := Transpose(o).rows[c];
  }

  lemma {:induction false} RepackedNibble(q: Matrix, r: nat, c: nat)
    requires WellShaped(q) && Repack(q).Ok? && r < |q.rows| && c < PACK_NUM * q.cols
    ensures Nibble(Repack(q).value.rows[c][r / PACK_NUM], r % PACK_NUM) == Logical(q, r, c)
  {
    var column := RepackedRow(q, c);
    PackedNibble(column, r / PACK_NUM, r % PACK_NUM);
    OrderedAt(q, r, c);
  }

  lemma {:induction false} OrderedAt(q: Matrix, r: nat, c: nat)
    requires WellShaped(q) && r < |q.rows| && c < PACK_NUM * q.cols
    ensures And15(Ordered(q, r)[c]) == Logical(q, r, c)
  {
    DeinterleavedAt(q.rows[r], c);
    LogicalIsNibble(q, r, c);
  }

  lemma {:induction false} DeinterleavedAt(row: seq<int>, c: nat)
    requires c < PACK_NUM * |row|
    ensures var o := PermuteRow(ORDER, UnpackRow(row));
            o[c] == Nibble(row[c / PACK_NUM], ORDER[c % PACK_NUM]) && And15(o[c]) == o[c]
  {
    var at := c / PACK_NUM * PACK_NUM + ORDER[c % PACK_NUM];
    assert at / PACK_NUM == c / PACK_NUM && at % PACK_NUM == ORDER[c % PACK_NUM];
    assert PermuteRow(ORDER, UnpackRow(row))[c] == UnpackRow(row)[at];
    NibbleMasked(row[c / PACK_NUM], ORDER[c % PACK_NUM]);
  }

  /** The way back: unpack, transpose, interleave, pack. */
  function Unrepack(p: Matrix): (r: Result<Matrix, ShapeError>)
    requires WellShaped(p)
  {
    var i := Unpack(p);
    if i.Err? then i
    else
      var o := Permute(INTERLEAVE, Transpose(i.value));
      if o.Err? then o else Pack(o.value)
  }

  /** Nothing is lost: the original words come back from the repacked ones. */
  lemma {:induction false} RepackLosesNothing(q: Matrix)
    requires WellShaped(q) && AllInt32(q) && Repack(q).Ok?
    ensures Unrepack(Repack(q).value) == Ok(q)
  {
    RepackPlaces(q);
    var p := Repack(q).value;
    var i := Unpack(p).value;
    var o := Permute(INTERLEAVE, Transpose(i)).value;
    var back := Pack(o).value;
    forall r | 0 <= r < |q.rows| ensures back.rows[r] == q.rows[r] {
      forall g | 0 <= g < q.cols ensures back.rows[r][g] == q.rows[r][g] {
        forall j | 0 <= j < PACK_NUM ensures Nibble(back.rows[r][g], j) == Nibble(q.rows[r][g], j) {
          ReturnedNibble(q, p, r, g, j);
        }
        SameNibbles(back.rows[r][g], q.rows[r][g]);
      }
    }
    assert back.rows == q.rows && back.cols == q.cols;
  }

  /** Unpacked and transposed, the repacked words show the logical nibbles where they belong. */
  lemma {:induction false} BackAt(q: Matrix, p: Matrix, r: nat, c: nat)
    requires WellShaped(q) && Repack(q) == Ok(p) && r < |q.rows| && c < PACK_NUM * q.cols && Unpack(p).Ok?
    ensures var t := Transpose(Unpack(p).value);
            |t.rows| == |q.rows| && t.cols == PACK_NUM * q.cols && t.rows[r][c] == Logical(q, r, c)
  {
    RepackPlaces(q);
    NibbleIsBits(p.rows[c][r / PACK_NUM], r % PACK_NUM);
    assert Unpack(p).value.rows[c] == UnpackRow(p.rows[c]);
  }

  lemma {:induction false} ReturnedNibble(q: Matrix, p: Matrix, r: nat, g: nat, j: nat)
    requires WellShaped(q) && Repack(q) == Ok(p) && r < |q.rows| && g < q.cols && j < PACK_NUM
    requires Unrepack(p).Ok? && |Unrepack(p).value.rows| == |q.rows| && Unrepack(p).value.cols == q.cols
    requires WellShaped(Unrepack(p).value)
    ensures Nibble(Unrepack(p).value.rows[r][g], j) == Nibble(q.rows[r][g], j)
  {
    var t := Transpose(Unpack(p).value);
    var c := PACK_NUM * g + INTERLEAVE[j];
    assert ORDER[INTERLEAVE[j]] == j && c / PACK_NUM == g && c % PACK_NUM == INTERLEAVE[j];
    BackAt(q, p, r, c);
    LogicalIsNibble(q, r, c);
    ReinterleavedNibble(t.rows[r], g, j);
    NibbleMasked(q.rows[r][g], j);
  }

  lemma {:induction false} ReinterleavedNibble(row: seq<int>, g: nat, j: nat)
    requires |row| % PACK_NUM == 0 && g < |row| / PACK_NUM && j < PACK_NUM
    ensures Nibble(PackRow(PermuteRow(INTERLEAVE, row))[g], j) == And15(row[PACK_NUM * g + INTERLEAVE[j]])
  {
    PackedNibble(PermuteRow(INTERLEAVE, row), g, j);
    var at := PACK_NUM * g + j;
    assert at / PACK_NUM == g && at % PACK_NUM == j;
  }

  /** The zero points: each word's nibbles are put in order, nothing else, and the words can be had back. */
  lemma {:induction false} ZerosReordered(q: Matrix)
    requires WellShaped(q)
    ensures RepackZeros(q).Ok? <==> q.rows != []
    ensures RepackZeros(q).Ok? ==>
              && RepackZeros(q).value.cols == q.cols && |RepackZeros(q).value.rows| == |q.rows|
              && forall r, c :: 0 <= r < |q.rows| && 0 <= c < PACK_NUM * q.cols ==>
                   Bits(RepackZeros(q).value.rows[r][c / PACK_NUM], c % PACK_NUM) == Logical(q, r, c)
  {
    if RepackZeros(q).Ok? {
      forall r, c | 0 <= r < |q.rows| && 0 <= c < PACK_NUM * q.cols
        ensures Bits(RepackZeros(q).value.rows[r][c / PACK_NUM], c % PACK_NUM) == Logical(q, r, c)
      {
        RepackedZero(q, r, c);
        NibbleIsBits(RepackZeros(q).value.rows[r][c / PACK_NUM], c % PACK_NUM);
      }
    }
  }

  lemma {:induction false} RepackedZero(q: Matrix, r: nat, c: nat)
    requires WellShaped(q) && RepackZeros(q).Ok? && r < |q.rows| && c < PACK_NUM * q.cols
    ensures Nibble(RepackZeros(q).value.rows[r][c / PACK_NUM], c % PACK_NUM) == Logical(q, r, c)
  {
    RepackedZeroRow(q, r);
    PackedNibble(Ordered(q, r), c / PACK_NUM, c % PACK_NUM);
    OrderedAt(q, r, c);
  }

  lemma {:induction false} RepackedZeroRow(q: Matrix, r: nat)
    requires WellShaped(q) && RepackZeros(q).Ok? && r < |q.rows|
    ensures r < |RepackZeros(q).value.rows| && RepackZeros(q).value.rows[r] == PackRow(Ordered(q, r))
  {
  }

  // ---- the other unpacker ---------------------------------------------------------------------

  /** `unpack_awq_int32_to_int8`: one strided slice of the result for each nibble position.  The result agrees
      with `unpack`, whatever the fresh array held. */
  method UnpackAwqInt32ToInt8(packed: seq<int>) returns (unpacked: array<int>)
    ensures fresh(unpacked) && unpacked[..] == UnpackRow(packed)
  {
    var unpackedSize := |packed| * PACK_NUM;
    unpacked := new int[unpackedSize];
    var i := 0;
    while i < PACK_NUM
      invariant 0 <= i <= PACK_NUM
      invariant forall c :: 0 <= c < unpackedSize && c % PACK_NUM < i ==> unpacked[c] == UnpackRow(packed)[c]
    {
      var k := 0;
      while k < |packed|
        invariant 0 <= k <= |packed|
        invariant forall c :: 0 <= c < unpackedSize && c % PACK_NUM < i ==> unpacked[c] == UnpackRow(packed)[c]
        invariant forall c :: 0 <= c < unpackedSize && c % PACK_NUM == i && c / PACK_NUM < k ==>
                    unpacked[c] == UnpackRow(packed)[c]
      {
        var at := i + PACK_NUM * k;
        assert at / PACK_NUM == k && at % PACK_NUM == i;
        MaskThenCast(ShiftRight(packed[k], i));
        unpacked[at] := ToInt8(And15(ShiftRight(packed[k], i)));
        k := k + 1;
      }
      i := i + 1;
    }
  }

  /** This unpacker masks before it casts, `unpack` casts before it masks. */
  lemma {:induction false} MaskThenCast(x: int)
    ensures ToInt8(And15(x)) == And15(ToInt8(x))
  {
    CastThenMask(x);
    DivisionIs(And15(x) + 128, 256, 0, And15(x) + 128);
  }
}
