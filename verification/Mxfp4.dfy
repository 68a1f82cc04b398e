/** Packed FP4 rows with one power-of-two scale per 32 elements, and their dot
    products against permuted activations (overlay/hybrid/cpu_moe.cpp).

    Formats: E2M1 and E8M0, sections 5.3.3 and 5.4.1 of the OCP Microscaling
    Formats (MX) Specification v1.0.  Accumulation is over the reals, so the
    vector lanes of the kernel are plain sums.

    Every vector is a multiple of 32 long and every loop of the kernel runs over
    its groups of 32, so a vector is a sequence of groups: element g * 32 + i of
    the flat buffer is element i of group g. */
module Mxfp4 {
  import opened Common

  function Pow2(k: int): (r: real)
    ensures r > 0.0
    decreases if k >= 0 then k else -k
  {
    if k == 0 then 1.0 else if k > 0 then 2.0 * Pow2(k - 1) else Pow2(k + 1) / 2.0
  }

  // ---------------------------------------------------------------- formats

  /** The value of an E2M1 code: sign, two exponent bits with bias 1, one mantissa bit. The magnitude
      2^(exp - 1) * (1 + man / 2), or man / 2 for a subnormal, is counted in halves. */
  function Halves(m: int): int
    requires 0 <= m < 8
  {
    var exp, man := m / 2, m % 2;
    if exp == 0 then man else Shl(2 + man, exp - 1)
  }

  function E2M1(c: int): real
    requires 0 <= c < 16
  {
    if c >= 8 then -(Halves(c - 8) as real) / 2.0 else Halves(c) as real / 2.0
  }

  /** The value of an E8M0 scale byte; 255 is NaN and has none. */
  function E8M0(s: byte): real
    requires s < 255
  {
    Pow2(s - 127)
  }

  /** The byte table, without its sign half. */
  function LutMag(c: int): int
    requires 0 <= c < 8
  {
    match c
    case 0 => 0
    case 1 => 1
    case 2 => 2
    case 3 => 3
    case 4 => 4
    case 5 => 6
    case 6 => 8
    case _ => 12
  }

  function Lut(c: int): real
    requires 0 <= c < 16
  {
    (if c < 8 then LutMag(c) else -LutMag(c - 8)) as real
  }

  /** The byte table holds twice the E2M1 values. */
  lemma LutIsTwiceE2M1(c: int)
    requires 0 <= c < 16
    ensures Lut(c) == 2.0 * E2M1(c)
  {
    LutIsHalves(if c >= 8 then c - 8 else c);
  }

  lemma LutIsHalves(m: int)
    requires 0 <= m < 8
    ensures LutMag(m) == Halves(m)
  {
    Shl2(2 + m % 2);
  }

  lemma Shl2(m: nat)
    ensures Shl(m, 0) == m && Shl(m, 1) == 2 * m && Shl(m, 2) == 4 * m
  {
  }

  /** The value of an fp32 bit pattern with zero sign and zero mantissa. */
  function F32PowerOfTwo(exponentField: int): real
    requires 0 <= exponentField < 255
  {
    if exponentField == 0 then 0.0 else Pow2(exponentField - 127)
  }

  /** e8m0_half: zero for a zero byte, else the float with exponent field s - 1. */
  function HalfScale(s: byte): real {
    if s == 0 then 0.0 else F32PowerOfTwo(s - 1)
  }

  /** The half scale is exact except for the two smallest scale bytes, which it flushes to zero. */
  lemma HalfScaleExact(s: byte)
    requires s < 255
    ensures HalfScale(s) == E8M0(s) / 2.0 <==> s >= 2
  {
    if s >= 2 {
      HalfOfPow2(s - 127);
    }
  }

  lemma HalfOfPow2(k: int)
    ensures Pow2(k - 1) == Pow2(k) / 2.0
  {
  }

  /** A scale byte of 127 is 1, and the next byte up is twice as much. */
  lemma ScaleByte(s: byte)
    requires s < 254
    ensures E8M0(127) == 1.0 && E8M0(s + 1) == 2.0 * E8M0(s)
  {
    HalfOfPow2(s - 127 + 1);
  }

  // ---------------------------------------------------------------- packing and permutation

  /** 32 nibbles in 16 bytes. */
  type Packed = w: seq<byte> | |w| == 16 witness seq(16, _ => 0)

  /** 32 consecutive elements of a vector. */
  type Group = x: seq<real> | |x| == 32 witness seq(32, _ => 0.0)

  type Vector = seq<Group>

  /** Element i: low nibble of byte i / 2 when i is even, else the high nibble. */
  function Code(w: Packed, i: nat): (c: int)
    requires i < 32
    ensures 0 <= c < 16
  {
    if i % 2 == 0 then w[i / 2] % 16 else w[i / 2] / 16
  }

  /** A byte holds its two elements, the even one in the low half. */
  lemma BytesHoldPairs(w: Packed, k: nat)
    requires k < 16
    ensures w[k] == Code(w, 2 * k) + 16 * Code(w, 2 * k + 1)
  {
    assert 2 * k / 2 == k && (2 * k + 1) / 2 == k;
  }

  /** unpack32: lane q. The 16 low nibbles come first, then the 16 high ones. */
  function LaneCode(w: Packed, q: nat): (c: int)
    requires q < 32
    ensures 0 <= c < 16
  {
    if q < 16 then w[q] % 16 else w[q - 16] / 16
  }

  /** Permuted position of element i inside its group. */
  function PermPos(i: nat): (p: nat)
    requires i < 32
    ensures p < 32
  {
    if i % 2 == 1 then 16 + i / 2 else i / 2
  }

  lemma PermPosInjective(i: nat, j: nat)
    requires i < 32 && j < 32 && PermPos(i) == PermPos(j)
    ensures i == j
  {
  }

  ghost predicate GroupPermuted(x: Group, xp: Group) {
    forall i: nat | i < 32 :: xp[PermPos(i)] == x[i]
  }

  ghost predicate IsPermuted(x: Vector, xp: Vector) {
    |x| == |xp| && forall g | 0 <= g < |x| :: GroupPermuted(x[g], xp[g])
  }

  method PermuteGroup(src: Group) returns (dst: Group)
    ensures GroupPermuted(src, dst)
  {
    var d: seq<real> := src;
    for i := 0 to 32
      invariant |d| == 32
      invariant forall j: nat | j < i :: d[PermPos(j)] == src[j]
    {
      forall j: nat | j < i
        ensures PermPos(j) != PermPos(i)
      {
        if PermPos(j) == PermPos(i) {
          PermPosInjective(j, i);
        }
      }
      d := d[PermPos(i) := src[i]];
    }
    dst := d;
  }

  /** permute_row */
  method PermuteRow(src: Vector) returns (dst: Vector)
    ensures IsPermuted(src, dst)
  {
    dst := [];
    for g := 0 to |src|
      invariant |dst| == g && forall j | 0 <= j < g :: GroupPermuted(src[j], dst[j])
    {
      var d := PermuteGroup(src[g]);
      dst := dst + [d];
    }
  }

  // ---------------------------------------------------------------- sums

  ghost function Sum(t: seq<real>, n: nat): real
    requires n <= |t|
  {
    if n == 0 then 0.0 else Sum(t, n - 1) + t[n - 1]
  }

  lemma {:induction false} SumScale(t: seq<real>, u: seq<real>, h: real, n: nat)
    requires n <= |t| == |u| && forall i | 0 <= i < |t| :: u[i] == h * t[i]
    ensures Sum(u, n) == h * Sum(t, n)
  {
    if n > 0 {
      SumScale(t, u, h, n - 1);
      Distribute(h, Sum(t, n - 1), t[n - 1]);
    }
  }

  lemma Distribute(h: real, a: real, b: real)
    ensures h * (a + b) == h * a + h * b
  {
  }

  /** Terms 0, 2, ... and terms 1, 3, ... */
  ghost function Every2(t: seq<real>, odd: nat, n: nat): real
    requires odd <= 1 && 2 * n <= |t|
  {
    if n == 0 then 0.0 else Every2(t, odd, n - 1) + t[2 * n - 2 + odd]
  }

  lemma {:induction false} SumByParity(t: seq<real>, n: nat)
    requires 2 * n <= |t|
    ensures Sum(t, 2 * n) == Every2(t, 0, n) + Every2(t, 1, n)
  {
    if n > 0 {
      SumByParity(t, n - 1);
      assert Sum(t, 2 * n - 1) == Sum(t, 2 * n - 2) + t[2 * n - 2];
    }
  }

  lemma LaneOfParity(odd: nat, k: nat)
    requires odd <= 1 && k < 16
    ensures PermPos(2 * k + odd) == 16 * odd + k
  {
  }

  /** The 16 lanes from `base` on carry the elements of one parity. */
  lemma {:induction false} HalfLanes(t: seq<real>, tp: seq<real>, odd: nat, n: nat)
    requires odd <= 1 && n <= 16 && |t| == |tp| == 32
    requires forall i: nat | i < 32 :: tp[PermPos(i)] == t[i]
    ensures Sum(tp, 16 * odd + n) == Sum(tp, 16 * odd) + Every2(t, odd, n)
  {
    if n > 0 {
      HalfLanes(t, tp, odd, n - 1);
      LaneOfParity(odd, n - 1);
      assert tp[16 * odd + n - 1] == t[2 * n - 2 + odd];
    }
  }

  /** The lane permutation does not change a group's sum. */
  lemma SumPermuted(t: seq<real>, tp: seq<real>)
    requires |t| == |tp| == 32
    requires forall i: nat | i < 32 :: tp[PermPos(i)] == t[i]
    ensures Sum(tp, 32) == Sum(t, 32)
  {
    HalfLanes(t, tp, 0, 16);
    HalfLanes(t, tp, 1, 16);
    SumByParity(t, 16);
  }

  /** Pointwise product of two groups. */
  ghost function Times(a: Group, x: Group): (t: Group)
    ensures forall i | 0 <= i < 32 :: t[i] == a[i] * x[i]
  {
    seq(32, i requires 0 <= i < 32 => a[i] * x[i])
  }

  ghost function ScaledBy(h: real, a: Group): (t: Group)
    ensures forall i | 0 <= i < 32 :: t[i] == h * a[i]
  {
    seq(32, i requires 0 <= i < 32 => h * a[i])
  }

  lemma Assoc(x: real, y: real, z: real)
    ensures (x * y) * z == x * (y * z)
  {
  }

  lemma TimesPermuted(a: Group, ap: Group, x: Group, xp: Group)
    requires GroupPermuted(a, ap) && GroupPermuted(x, xp)
    ensures Sum(Times(ap, xp), 32) == Sum(Times(a, x), 32)
  {
    var t, tp := Times(a, x), Times(ap, xp);
    forall i: nat | i < 32
      ensures tp[PermPos(i)] == t[i]
    {
      assert ap[PermPos(i)] == a[i] && xp[PermPos(i)] == x[i];
    }
    SumPermuted(t, tp);
  }

  /** A common factor may be applied to the terms or to the sum. */
  lemma ScaledSum(h: real, a: Group, x: Group)
    ensures Sum(Times(ScaledBy(h, a), x), 32) == h * Sum(Times(a, x), 32)
  {
    var t, u := Times(a, x), Times(ScaledBy(h, a), x);
    forall i | 0 <= i < 32
      ensures u[i] == h * t[i]
    {
      Assoc(h, a[i], x[i]);
    }
    SumScale(t, u, h, 32);
  }

  // ---------------------------------------------------------------- rows

  /** A packed weight row: its groups and their scale bytes. */
  datatype Row = Row(w: seq<Packed>, s: seq<byte>)

  /** n groups, all scales exact. */
  predicate RowOk(row: Row, n: nat) {
    |row.w| == |row.s| == n && forall g | 0 <= g < n :: 2 <= row.s[g] < 255
  }

  function Value(c: int, s: byte): real
    requires 0 <= c < 16 && s < 255
  {
    E2M1(c) * E8M0(s)
  }

  /** The dequantised elements of a group. */
  ghost function Elements(w: Packed, s: byte): (d: Group)
    requires s < 255
    ensures forall i: nat | i < 32 :: d[i] == Value(Code(w, i), s)
  {
    seq(32, i requires 0 <= i < 32 => Value(Code(w, i), s))
  }

  /** Dot product of the first n groups of the dequantised row with x. */
  ghost function DotTo(row: Row, x: Vector, n: nat): real
    requires RowOk(row, |x|) && n <= |x|
  {
    if n == 0 then 0.0 else DotTo(row, x, n - 1) + Sum(Times(Elements(row.w[n - 1], row.s[n - 1]), x[n - 1]), 32)
  }

  ghost function Dot(row: Row, x: Vector): real
    requires RowOk(row, |x|)
  {
    DotTo(row, x, |x|)
  }

  // ---------------------------------------------------------------- rows and vectors, element by element

  /** The elements of a vector in one list. */
  function Flat(x: Vector): (f: seq<real>)
    ensures |f| == 32 * |x|
  {
    seq(32 * |x|, j requires 0 <= j < 32 * |x| => x[j / 32][j % 32])
  }

  /** Element j of a packed row: two elements to a byte, the even one in its low half, 32 to a scale byte. */
  function Entry(row: Row, j: nat): real
    requires RowOk(row, |row.w|) && j < 32 * |row.w|
  {
    var two := row.w[j / 32][j % 32 / 2];
    Value(if j % 2 == 0 then two % 16 else two / 16, row.s[j / 32])
  }

  /** All elements of a packed row. */
  function Entries(row: Row): (es: seq<real>)
    requires RowOk(row, |row.w|)
    ensures |es| == 32 * |row.w|
  {
    seq(32 * |row.w|, j requires 0 <= j < 32 * |row.w| => Entry(row, j))
  }

  /** a[0] * b[0], a[1] * b[1], ... */
  ghost function Products(a: seq<real>, b: seq<real>): (t: seq<real>)
    requires |a| == |b|
    ensures |t| == |a| && forall j | 0 <= j < |t| :: t[j] == a[j] * b[j]
  {
    seq(|a|, j requires 0 <= j < |a| => a[j] * b[j])
  }

  /** The dot product of two lists of numbers. */
  ghost function PlainDot(a: seq<real>, b: seq<real>): real
    requires |a| == |b|
  {
    Sum(Products(a, b), |a|)
  }

  /** A row's groups, decoded. */
  ghost function Decoded(row: Row): (d: Vector)
    requires RowOk(row, |row.w|)
    ensures |d| == |row.w| && forall g: nat | g < |d| :: d[g] == Elements(row.w[g], row.s[g])
  {
    seq(|row.w|, g requires 0 <= g < |row.w| => Elements(row.w[g], row.s[g]))
  }

  lemma EntryIsElement(row: Row, j: nat)
    requires RowOk(row, |row.w|) && j < 32 * |row.w|
    ensures Entry(row, j) == Decoded(row)[j / 32][j % 32]
  {
    var g, i := j / 32, j % 32;
    assert j % 2 == i % 2;
    assert Elements(row.w[g], row.s[g])[i] == Value(Code(row.w[g], i), row.s[g]);
  }

  lemma EntriesAreDecoded(row: Row)
    requires RowOk(row, |row.w|)
    ensures Entries(row) == Flat(Decoded(row))
  {
    var es, fs := Entries(row), Flat(Decoded(row));
    forall j: nat | j < |es|
      ensures es[j] == fs[j]
    {
      EntryIsElement(row, j);
    }
  }

  /** f lists the elements of x. */
  ghost predicate IsFlat(x: Vector, f: seq<real>) {
    |f| == 32 * |x| && forall g: nat, i: nat | g < |x| && i < 32 :: f[32 * g + i] == x[g][i]
  }

  lemma FlatIsFlat(x: Vector)
    ensures IsFlat(x, Flat(x))
  {
    forall g: nat, i: nat | g < |x| && i < 32
      ensures Flat(x)[32 * g + i] == x[g][i]
    {
      assert (32 * g + i) / 32 == g && (32 * g + i) % 32 == i;
    }
  }

  lemma {:induction false} SumOfPart(t: seq<real>, u: seq<real>, at: nat, m: nat)
    requires at + m <= |t| && m <= |u| && forall i: nat | i < m :: t[at + i] == u[i]
    ensures Sum(t, at + m) == Sum(t, at) + Sum(u, m)
  {
    if m > 0 {
      SumOfPart(t, u, at, m - 1);
    }
  }

  lemma ProductAt(a: seq<real>, b: seq<real>, k: nat, d: Group, x: Group, i: nat)
    requires k < |a| == |b| && i < 32 && a[k] == d[i] && b[k] == x[i]
    ensures Products(a, b)[k] == Times(d, x)[i]
  {
  }

  /** A group that two lists hold from place `at` on. */
  lemma GroupInList(a: seq<real>, b: seq<real>, at: nat, d: Group, x: Group)
    requires at + 32 <= |a| == |b|
    requires forall i: nat | i < 32 :: a[at + i] == d[i] && b[at + i] == x[i]
    ensures Sum(Products(a, b), at + 32) == Sum(Products(a, b), at) + Sum(Times(d, x), 32)
  {
    var t, u := Products(a, b), Times(d, x);
    forall i: nat | i < 32
      ensures t[at + i] == u[i]
    {
      ProductAt(a, b, at + i, d, x, i);
    }
    SumOfPart(t, u, at, 32);
  }

  /** The dot product of two vectors, group by group. */
  ghost function GroupDots(d: Vector, x: Vector, n: nat): real
    requires n <= |d| == |x|
  {
    if n == 0 then 0.0 else GroupDots(d, x, n - 1) + Sum(Times(d[n - 1], x[n - 1]), 32)
  }

  lemma {:induction false} GroupDotsAreFlat(d: Vector, x: Vector, fd: seq<real>, fx: seq<real>, n: nat)
    requires n <= |d| == |x| && IsFlat(d, fd) && IsFlat(x, fx)
    ensures GroupDots(d, x, n) == Sum(Products(fd, fx), 32 * n)
  {
    if n > 0 {
      GroupDotsAreFlat(d, x, fd, fx, n - 1);
      GroupInList(fd, fx, 32 * (n - 1), d[n - 1], x[n - 1]);
    }
  }

  lemma {:induction false} DotIsGroupDots(row: Row, x: Vector, d: Vector, n: nat)
    requires RowOk(row, |x|) && n <= |x| == |d| && forall g: nat | g < |d| :: d[g] == Elements(row.w[g], row.s[g])
    ensures DotTo(row, x, n) == GroupDots(d, x, n)
  {
    if n > 0 {
      DotIsGroupDots(row, x, d, n - 1);
    }
  }

  /** The dot product over groups is the plain one over all elements. */
  lemma DotIsPlain(row: Row, x: Vector)
    requires RowOk(row, |x|)
    ensures Dot(row, x) == PlainDot(Entries(row), Flat(x))
  {
    var d := Decoded(row);
    DotIsGroupDots(row, x, d, |x|);
    EntriesAreDecoded(row);
    FlatIsFlat(d);
    FlatIsFlat(x);
    GroupDotsAreFlat(d, x, Flat(d), Flat(x), |x|);
  }

  /** Table values in element order. */
  ghost function Table(w: Packed): (a: Group)
    ensures forall i: nat | i < 32 :: a[i] == Lut(Code(w, i))
  {
    seq(32, i requires 0 <= i < 32 => Lut(Code(w, i)))
  }

  /** Table values in lane order, as unpack32 delivers them. */
  ghost function Lanes(w: Packed): (a: Group)
    ensures forall q: nat | q < 32 :: a[q] == Lut(LaneCode(w, q))
  {
    seq(32, q requires 0 <= q < 32 => Lut(LaneCode(w, q)))
  }

  /** unpack32 yields the table values in the permuted order of the activations. */
  lemma UnpackPermutes(w: Packed)
    ensures GroupPermuted(Table(w), Lanes(w))
  {
    forall i: nat | i < 32
      ensures Lanes(w)[PermPos(i)] == Table(w)[i]
    {
      assert LaneCode(w, PermPos(i)) == Code(w, i);
    }
  }

  lemma HalfTimesTwice(e: real, sc: real, twice: real, half: real)
    requires twice == 2.0 * e && half == sc / 2.0
    ensures e * sc == half * twice
  {
  }

  lemma ElementIsScaled(c: int, s: byte, h: real)
    requires 0 <= c < 16 && 2 <= s < 255 && h == HalfScale(s)
    ensures Value(c, s) == h * Lut(c)
  {
    LutIsTwiceE2M1(c);
    HalfScaleExact(s);
    HalfTimesTwice(E2M1(c), E8M0(s), Lut(c), h);
  }

  /** Table value times half scale is element value times scale. */
  lemma ElementsAreScaled(w: Packed, s: byte, h: real)
    requires 2 <= s < 255 && h == HalfScale(s)
    ensures Elements(w, s) == ScaledBy(h, Table(w))
  {
    var d, t := Elements(w, s), ScaledBy(h, Table(w));
    forall i: nat | i < 32
      ensures d[i] == t[i]
    {
      ElementIsScaled(Code(w, i), s, h);
    }
  }

  /** One group, whatever the values: lanes against permuted activations, then the scale. */
  lemma GroupIdentity(h: real, a: Group, ap: Group, d: Group, x: Group, xp: Group, part: real)
    requires d == ScaledBy(h, a) && GroupPermuted(a, ap) && GroupPermuted(x, xp)
    ensures part == Sum(Times(ap, xp), 32) ==> h * part == Sum(Times(d, x), 32)
    ensures Sum(Times(ScaledBy(h, ap), xp), 32) == Sum(Times(d, x), 32)
  {
    TimesPermuted(a, ap, x, xp);
    ScaledSum(h, a, x);
    ScaledSum(h, ap, xp);
  }

  // ---------------------------------------------------------------- kernels

  /** unpack32 and the multiply-adds of one group. */
  method GroupSum(w: Packed, xp: Group) returns (part: real)
    ensures part == Sum(Times(Lanes(w), xp), 32)
  {
    part := 0.0;
    for q := 0 to 32
      invariant part == Sum(Times(Lanes(w), xp), q)
    {
      part := part + Lut(LaneCode(w, q)) * xp[q];
    }
  }

  /** The group's share of the dot product, h being its half scale. */
  method GroupDot(w: Packed, h: real, xp: Group, ghost d: Group, ghost x: Group) returns (r: real)
    requires d == ScaledBy(h, Table(w)) && GroupPermuted(x, xp)
    ensures r == Sum(Times(d, x), 32)
  {
    var part := GroupSum(w, xp);
    UnpackPermutes(w);
    GroupIdentity(h, Table(w), Lanes(w), d, x, xp, part);
    r := h * part;
  }

  /** dot_row: per group, unpack, multiply with the permuted activations, scale. */
  method DotRow(row: Row, xp: Vector, ghost x: Vector) returns (r: real)
    requires RowOk(row, |x|) && IsPermuted(x, xp)
    ensures r == Dot(row, x)
  {
    r := 0.0;
    for g := 0 to |xp|
      invariant r == DotTo(row, x, g)
    {
      ElementsAreScaled(row.w[g], row.s[g], HalfScale(row.s[g]));
      var part := GroupDot(row.w[g], HalfScale(row.s[g]), xp[g], Elements(row.w[g], row.s[g]), x[g]);
      r := r + part;
    }
  }

  method DequantGroup(w: Packed, s: byte) returns (d: Group)
    ensures d == ScaledBy(HalfScale(s), Lanes(w))
  {
    var o: seq<real> := [];
    for q := 0 to 32
      invariant |o| == q && forall j: nat | j < q :: o[j] == HalfScale(s) * Lut(LaneCode(w, j))
    {
      o := o + [HalfScale(s) * Lut(LaneCode(w, q))];
    }
    d := o;
  }

  /** The scaled lanes of every group. */
  ghost predicate IsDequant(row: Row, d: Vector) {
    |d| == |row.w| == |row.s| && forall g | 0 <= g < |d| :: d[g] == ScaledBy(HalfScale(row.s[g]), Lanes(row.w[g]))
  }

  /** dequant_row into the buffer from place `at` on; it stays inside exactly when the row fits there. */
  method DequantRow(row: Row, tmp: array<Group>, at: nat) returns (fits: bool)
    requires |row.w| == |row.s| && at <= tmp.Length
    modifies tmp
    ensures fits <==> at + |row.w| <= tmp.Length
    ensures fits ==> IsDequant(row, tmp[at..at + |row.w|])
    ensures forall i | 0 <= i < tmp.Length && !(at <= i < at + |row.w|) :: tmp[i] == old(tmp[i])
  {
    for g := 0 to |row.w|
      invariant at + g <= tmp.Length
      invariant forall j | 0 <= j < g :: tmp[at + j] == ScaledBy(HalfScale(row.s[j]), Lanes(row.w[j]))
      invariant forall i | 0 <= i < tmp.Length && !(at <= i < at + g) :: tmp[i] == old(tmp[i])
    {
      if at + g >= tmp.Length {
        return false;
      }
      tmp[at + g] := DequantGroup(row.w[g], row.s[g]);
    }
    fits := true;
  }

  method DotGroup(a: Group, b: Group) returns (r: real)
    ensures r == Sum(Times(a, b), 32)
  {
    r := 0.0;
    for i := 0 to 32
      invariant r == Sum(Times(a, b), i)
    {
      r := r + a[i] * b[i];
    }
  }

  /** One dequantised group against permuted activations. */
  lemma DequantGroupDot(w: Packed, s: byte, x: Group, xp: Group)
    requires 2 <= s < 255 && GroupPermuted(x, xp)
    ensures Sum(Times(ScaledBy(HalfScale(s), Lanes(w)), xp), 32) == Sum(Times(Elements(w, s), x), 32)
  {
    UnpackPermutes(w);
    ElementsAreScaled(w, s, HalfScale(s));
    GroupIdentity(HalfScale(s), Table(w), Lanes(w), Elements(w, s), x, xp, 0.0);
  }

  /** dot_f32 on a dequantised row: the same dot product as dot_row. */
  method DotF32(d: Vector, xp: Vector, ghost row: Row, ghost x: Vector) returns (r: real)
    requires RowOk(row, |x|) && IsDequant(row, d) && IsPermuted(x, xp)
    ensures r == Dot(row, x)
  {
    r := 0.0;
    for g := 0 to |d|
      invariant r == DotTo(row, x, g)
    {
      var part := DotGroup(d[g], xp[g]);
      DequantGroupDot(row.w[g], row.s[g], x[g], xp[g]);
      r := r + part;
    }
  }
}
