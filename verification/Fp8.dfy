/** The software FP8 encoder and decoder (overlay/sm80-src/fp8_sm80.py), on bit patterns.

    E4M3 is the format of section 5.3.1 of the OCP Microscaling Formats (MX)
    Specification v1.0; rounding is roundTiesToEven, section 4.3.1 of IEEE 754-2019.
    All values are integers in units of 2^-149, the smallest fp32 subnormal, so
    nothing here is rounded but what the encoder rounds.  Scaling by a power of two
    is a left shift; masks of constant bits are division and remainder, and `|` on
    disjoint bits is addition. */
module Fp8 {
  import opened Common

  type word = w: int | 0 <= w < 0x1_0000_0000

  // ---------------------------------------------------------------- shifts

  function Shr(m: nat, k: nat): nat {
    if k == 0 then m else Shr(m / 2, k - 1)
  }

  /** The k low bits. */
  function Low(m: nat, k: nat): nat {
    if k == 0 then 0 else 2 * Low(m / 2, k - 1) + m % 2
  }

  lemma {:induction false} ShlAdd(a: nat, b: nat, k: nat)
    ensures Shl(a + b, k) == Shl(a, k) + Shl(b, k)
  {
    if k > 0 {
      ShlAdd(a, b, k - 1);
    }
  }

  lemma {:induction false} ShlShl(m: nat, j: nat, k: nat)
    ensures Shl(Shl(m, j), k) == Shl(m, j + k)
  {
    if k > 0 {
      ShlShl(m, j, k - 1);
    }
  }

  lemma {:induction false} ShlStrict(a: nat, b: nat, k: nat)
    requires a < b
    ensures Shl(a, k) < Shl(b, k)
  {
    if k > 0 {
      ShlStrict(a, b, k - 1);
    }
  }

  lemma ShlMonotone(a: nat, b: nat, k: nat)
    requires a <= b
    ensures Shl(a, k) <= Shl(b, k)
  {
    if a < b {
      ShlStrict(a, b, k);
    }
  }

  lemma Shl4(m: nat, k: nat)
    ensures Shl(m, k + 4) == 16 * Shl(m, k)
  {
    assert Shl(m, k + 3) == 2 * Shl(m, k + 2);
    assert Shl(m, k + 2) == 2 * Shl(m, k + 1);
  }

  lemma Shl20(m: nat)
    ensures Shl(m, 20) == 0x10_0000 * m
  {
    Shl4(m, 0);
    Shl4(m, 4);
    Shl4(m, 8);
    Shl4(m, 12);
    Shl4(m, 16);
  }

  /** Shifting further makes no smaller. */
  lemma {:induction false} ShlGrows(m: nat, j: nat, k: nat)
    requires j <= k
    ensures Shl(m, j) <= Shl(m, k)
  {
    if j < k {
      ShlGrows(m, j, k - 1);
    }
  }

  lemma {:induction false} ShlZero(k: nat)
    ensures Shl(0, k) == 0
  {
    if k > 0 {
      ShlZero(k - 1);
    }
  }

  /** A shift splits a number into kept and dropped bits. */
  lemma {:induction false} ShrLow(m: nat, k: nat)
    ensures m == Shl(Shr(m, k), k) + Low(m, k) && Low(m, k) < Shl(1, k)
  {
    if k > 0 {
      ShrLow(m / 2, k - 1);
    }
  }

  /** The kept bits lie in the range of the number. */
  lemma ShrRange(m: nat, k: nat, lo: nat, hi: nat)
    requires Shl(lo, k) <= m < Shl(hi, k)
    ensures lo <= Shr(m, k) < hi
  {
    ShrLow(m, k);
    var keep := Shr(m, k);
    if keep < lo {
      ShlMonotone(keep + 1, lo, k);
      ShlAdd(keep, 1, k);
    }
    if keep >= hi {
      ShlMonotone(hi, keep, k);
    }
  }

  // ---------------------------------------------------------------- fp32

  /** Bits without the sign. */
  function Mag(f: word): (m: nat)
    ensures m < 0x8000_0000
  {
    f % 0x8000_0000
  }

  predicate Negative(f: word) {
    f >= 0x8000_0000
  }

  predicate IsNan(f: word) {
    Mag(f) > 0x7F80_0000
  }

  /** Magnitude of an fp32 pattern; infinity counts as the power of two its exponent field spells. */
  function MagUnits(mag: nat): nat {
    var exp, frac := mag / 0x80_0000, mag % 0x80_0000;
    if exp == 0 then frac else Shl(0x80_0000 + frac, exp - 1)
  }

  function Signed(neg: bool, m: nat): int {
    if neg then 0 - m else m
  }

  function Units(f: word): int {
    Signed(Negative(f), MagUnits(Mag(f)))
  }

  // ---------------------------------------------------------------- E4M3

  /** Magnitude of code c in units of 2^-9, by the format: bias 7, three mantissa bits, subnormals below 2^-6. */
  function Steps(c: nat): nat {
    if c < 8 then c else Shl(8 + c % 8, c / 8 - 1)
  }

  /** 2^-9 in units of 2^-149. */
  const SCALE: nat := 140

  function CodeUnits(c: nat): nat {
    Shl(Steps(c), SCALE)
  }

  datatype Value = NaN | Num(units: int)

  /** _e4m3fn_to_f32_alu */
  function Decode(u: byte): Value {
    var exp, mant := (u / 8) % 16, u % 8;
    var m := if exp > 0 then mant + 8 else mant;
    var e := (if exp > 0 then exp else 1) - 10;
    if u % 128 == 127 then NaN else Num(Signed(u >= 128, Shl(m, e + 149)))
  }

  function Min(a: int, b: int): int {
    if a <= b then a else b
  }

  function Max(a: int, b: int): int {
    if a >= b then a else b
  }

  function Shift(exp: int): (s: nat)
    ensures 20 <= s <= 30
  {
    Min(20 + Max(-6 - exp, 0), 30)
  }

  function RoundUp(keep: nat, rest: nat, half: nat): nat {
    if rest > half || (rest == half && keep % 2 == 1) then 1 else 0
  }

  /** _f32_to_e4m3fn_u8, without the sign. */
  function EncodeMag(mag: nat): (c: nat)
    ensures c < 128
  {
    var exp := mag / 0x80_0000 - 127;
    var mant := mag % 0x80_0000 + 0x80_0000;
    var shift := Shift(exp);
    var keep := Shr(mant, shift);
    var kept := keep + RoundUp(keep, Low(mant, shift), Shl(1, shift - 1));
    var val := if exp >= -6 then (exp + 6) * 8 + kept else kept;
    if mag > 0x7F80_0000 then 0x7F else Min(val, 0x7E)
  }

  function Encode(f: word): byte {
    EncodeMag(Mag(f)) + if Negative(f) then 128 else 0
  }

  // ---------------------------------------------------------------- neighbouring codes

  /** Within a binade the codes are equally spaced, and the binades join. */
  lemma BinadeSteps(k: nat, keep: nat)
    requires 8 <= keep < 16
    ensures Steps(k * 8 + keep) == Shl(keep, k) && Steps(k * 8 + keep + 1) == Shl(keep + 1, k)
  {
    var c := k * 8 + keep;
    assert c / 8 == k + 1 && c % 8 == keep - 8;
    if keep == 15 {
      assert (c + 1) / 8 == k + 2 && (c + 1) % 8 == 0;
      ShlShl(8, 1, k);
      assert Shl(8, 1) == 16;
    } else {
      assert (c + 1) / 8 == k + 1 && (c + 1) % 8 == keep - 7;
    }
  }

  lemma NextStep(c: nat)
    ensures Steps(c) < Steps(c + 1)
  {
    if c >= 8 {
      var k, keep := c / 8 - 1, 8 + c % 8;
      assert c == k * 8 + keep;
      BinadeSteps(k, keep);
      ShlStrict(keep, keep + 1, k);
    } else if c == 7 {
      assert Steps(8) == Shl(8, 0);
    }
  }

  lemma {:induction false} CodesStrict(c: nat, d: nat)
    requires c < d
    ensures CodeUnits(c) < CodeUnits(d)
  {
    NextStep(d - 1);
    ShlStrict(Steps(d - 1), Steps(d), SCALE);
    if c < d - 1 {
      CodesStrict(c, d - 1);
    }
  }

  lemma CodesMonotone(c: nat, d: nat)
    requires c <= d
    ensures CodeUnits(c) <= CodeUnits(d)
  {
    if c < d {
      CodesStrict(c, d);
    }
  }

  /** x lies `rest` of `2 * half` parts of the way from code c to the next; a part is 2^p. */
  ghost predicate Between(x: nat, c: nat, rest: nat, half: nat, p: nat) {
    && rest < 2 * half
    && x == CodeUnits(c) + Shl(rest, p)
    && CodeUnits(c + 1) == CodeUnits(c) + Shl(2 * half, p)
  }

  /** Round to nearest, ties to the even code. */
  function Rounded(c: nat, rest: nat, half: nat): nat {
    c + RoundUp(c, rest, half)
  }

  // ---------------------------------------------------------------- where the encoder's remainder lies

  /** Kept bits that count steps of 2^(s + p) place the number between two codes. */
  lemma KeptBetween(mant: nat, s: nat, p: nat, c: nat, keep: nat, k: nat)
    requires s > 0 && s + p == k + SCALE && keep == Shr(mant, s)
    requires Steps(c) == Shl(keep, k) && Steps(c + 1) == Shl(keep + 1, k)
    ensures Between(Shl(mant, p), c, Low(mant, s), Shl(1, s - 1), p)
  {
    ShrLow(mant, s);
    ShlAdd(Shl(keep, s), Low(mant, s), p);
    ShlShl(keep, s, p);
    ShlShl(keep, k, SCALE);
    ShlShl(keep + 1, k, SCALE);
    ShlAdd(keep, 1, k + SCALE);
    ShlShl(1, s, p);
  }

  /** A pattern above the smallest normal E4M3 value: exponent and kept bits spell the code below it. */
  lemma NormalBetween(exp: int, mant: nat)
    requires -6 <= exp && 0x80_0000 <= mant < 0x100_0000
    ensures Between(Shl(mant, exp + 126), (exp + 6) * 8 + Shr(mant, 20), Low(mant, 20), Shl(1, 19), exp + 126)
  {
    Shl20(8);
    Shl20(16);
    ShrRange(mant, 20, 8, 16);
    BinadeSteps(exp + 6, Shr(mant, 20));
    KeptBetween(mant, 20, exp + 126, (exp + 6) * 8 + Shr(mant, 20), Shr(mant, 20), exp + 6);
  }

  /** A pattern below it, down to 2^-16: the kept bits alone are the code. */
  lemma SubnormalBetween(exp: int, mant: nat)
    requires -16 <= exp < -6 && mant < 0x100_0000
    ensures Between(Shl(mant, exp + 126), Shr(mant, Shift(exp)), Low(mant, Shift(exp)), Shl(1, Shift(exp) - 1),
      exp + 126)
  {
    var s := Shift(exp);
    var keep := Shr(mant, s);
    Shl20(8);
    assert Shl(8, 21) == 0x100_0000;
    ShlGrows(8, 21, s);
    ShlZero(s);
    ShrRange(mant, s, 0, 8);
    assert Steps(8) == Shl(8, 0);
    KeptBetween(mant, s, exp + 126, keep, keep, 0);
  }

  /** A pattern below 2^-16, fp32 subnormals and zero among them, lies below half of the first code, */
  lemma TinyUnits(mag: nat)
    requires mag / 0x80_0000 < 111
    ensures MagUnits(mag) < Shl(1, SCALE - 1)
  {
    var e, frac := mag / 0x80_0000, mag % 0x80_0000;
    var j: nat := if e > 0 then e - 1 else 0;
    var m := if e > 0 then 0x80_0000 + frac else frac;
    ShlStrict(m, 0x100_0000, j);
    ShlGrows(0x100_0000, j, 115);
    Shl20(1);
    Shl4(1, 20);
    ShlShl(1, 24, 115);
  }

  /** and the capped shift keeps no bit of it. */
  lemma TinyBits(mant: nat)
    requires mant < 0x100_0000
    ensures Shr(mant, 30) == 0 && Low(mant, 30) < Shl(1, 29)
  {
    Shl20(1);
    Shl4(1, 20);
    ShlGrows(1, 24, 29);
    ShlGrows(1, 24, 30);
    ShlZero(30);
    ShrRange(mant, 30, 0, 1);
    ShrLow(mant, 30);
  }

  // ---------------------------------------------------------------- what the encoder computes

  /** EncodeMag on exponent and mantissa. */
  function EncodeParts(exp: int, mant: nat): int {
    var keep := Shr(mant, Shift(exp));
    var kept := keep + RoundUp(keep, Low(mant, Shift(exp)), Shl(1, Shift(exp) - 1));
    if exp >= -6 then (exp + 6) * 8 + kept else kept
  }

  lemma NormalRounds(exp: int, mant: nat)
    requires exp >= -6
    ensures EncodeParts(exp, mant) == Rounded((exp + 6) * 8 + Shr(mant, 20), Low(mant, 20), Shl(1, 19))
  {
  }

  lemma EncodeByParts(mag: nat)
    requires mag <= 0x7F80_0000
    ensures EncodeMag(mag) == Min(EncodeParts(mag / 0x80_0000 - 127, mag % 0x80_0000 + 0x80_0000), 126)
  {
  }

  /** The encoder rounds the code below and saturates. */
  lemma EncoderRounds(mag: nat) returns (c: nat, rest: nat, half: nat, p: nat)
    requires mag <= 0x7F80_0000
    ensures Between(MagUnits(mag), c, rest, half, p) && EncodeMag(mag) == Min(Rounded(c, rest, half), 126)
  {
    var exp, mant := mag / 0x80_0000 - 127, mag % 0x80_0000 + 0x80_0000;
    EncodeByParts(mag);
    if exp >= -16 {
      c, rest, half, p := PartsRound(exp, mant);
    } else {
      c, rest, half, p := TinyRounds(mag, exp, mant);
    }
  }

  lemma PartsRound(exp: int, mant: nat) returns (c: nat, rest: nat, half: nat, p: nat)
    requires -16 <= exp && 0x80_0000 <= mant < 0x100_0000
    ensures Between(Shl(mant, exp + 126), c, rest, half, p) && EncodeParts(exp, mant) == Rounded(c, rest, half)
  {
    if exp >= -6 {
      NormalBetween(exp, mant);
      NormalRounds(exp, mant);
      c, rest, half, p := (exp + 6) * 8 + Shr(mant, 20), Low(mant, 20), Shl(1, 19), exp + 126;
    } else {
      SubnormalBetween(exp, mant);
      c, rest, half, p := Shr(mant, Shift(exp)), Low(mant, Shift(exp)), Shl(1, Shift(exp) - 1), exp + 126;
    }
  }

  lemma TinyRounds(mag: nat, exp: int, mant: nat) returns (c: nat, rest: nat, half: nat, p: nat)
    requires exp == mag / 0x80_0000 - 127 < -16 && mant < 0x100_0000
    ensures Between(MagUnits(mag), c, rest, half, p) && EncodeParts(exp, mant) == Rounded(c, rest, half)
  {
    TinyUnits(mag);
    TinyBits(mant);
    c, rest, half, p := 0, MagUnits(mag), Shl(1, SCALE - 1), 0;
    ShlZero(SCALE);
    assert Shl(1, SCALE) == 2 * Shl(1, SCALE - 1);
  }

  function Dist(x: int, y: int): int {
    if x <= y then y - x else x - y
  }

  /** Rounding picks the nearer end, the even one of two equally near. */
  lemma RoundedNearer(x: nat, c: nat, rest: nat, half: nat, p: nat)
    requires Between(x, c, rest, half, p)
    ensures CodeUnits(c) <= x < CodeUnits(c + 1)
    ensures Dist(x, CodeUnits(c)) < Dist(x, CodeUnits(c + 1)) ==> Rounded(c, rest, half) == c
    ensures Dist(x, CodeUnits(c)) > Dist(x, CodeUnits(c + 1)) ==> Rounded(c, rest, half) == c + 1
    ensures Dist(x, CodeUnits(c)) == Dist(x, CodeUnits(c + 1)) ==> Rounded(c, rest, half) % 2 == 0
  {
    ShlAdd(half, half, p);
    ShlCompare(rest, half, p);
    ShlCompare(rest, 2 * half, p);
    NearerEnd(CodeUnits(c), Shl(rest, p), Shl(half, p));
  }

  lemma ShlCompare(a: nat, b: nat, k: nat)
    ensures a < b <==> Shl(a, k) < Shl(b, k)
    ensures a == b <==> Shl(a, k) == Shl(b, k)
  {
    if a < b {
      ShlStrict(a, b, k);
    } else if b < a {
      ShlStrict(b, a, k);
    }
  }

  /** A point `part` of the way over a gap of twice `half`. */
  lemma NearerEnd(lo: nat, part: nat, half: nat)
    requires part < 2 * half
    ensures Dist(lo + part, lo) < Dist(lo + part, lo + 2 * half) <==> part < half
    ensures Dist(lo + part, lo) == Dist(lo + part, lo + 2 * half) <==> part == half
  {
  }

  /** On magnitudes: nearest finite code, ties to even, saturating. */
  lemma NearestMag(mag: nat, d: nat)
    requires mag <= 0x7F80_0000 && d <= 126
    ensures EncodeMag(mag) <= 126
    ensures Dist(MagUnits(mag), CodeUnits(EncodeMag(mag))) <= Dist(MagUnits(mag), CodeUnits(d))
    ensures d != EncodeMag(mag) && Dist(MagUnits(mag), CodeUnits(EncodeMag(mag))) == Dist(MagUnits(mag), CodeUnits(d))
            ==> EncodeMag(mag) % 2 == 0
  {
    var c, rest, half, p := EncoderRounds(mag);
    NearestBetween(MagUnits(mag), c, rest, half, p, EncodeMag(mag), d);
  }

  lemma NearestBetween(x: nat, c: nat, rest: nat, half: nat, p: nat, enc: nat, d: nat)
    requires Between(x, c, rest, half, p) && enc == Min(Rounded(c, rest, half), 126) && d <= 126
    ensures Dist(x, CodeUnits(enc)) <= Dist(x, CodeUnits(d))
    ensures d != enc && Dist(x, CodeUnits(enc)) == Dist(x, CodeUnits(d)) ==> enc % 2 == 0
  {
    RoundedNearer(x, c, rest, half, p);
    if c >= 126 {
      CodesMonotone(126, c);
      CodesMonotone(d, 126);
    } else if d < c {
      CodesStrict(d, c);
    } else if d > c + 1 {
      CodesStrict(c + 1, d);
    }
  }

  /** The decoder reads the format. */
  lemma DecodeIsFormat(u: byte)
    requires u % 128 != 127
    ensures Decode(u) == Num(Signed(u >= 128, CodeUnits(u % 128)))
  {
    ByteFields(u);
    DecodeFields((u / 8) % 16, u % 8, u % 128);
  }

  lemma ByteFields(u: byte)
    ensures u % 128 / 8 == (u / 8) % 16 && u % 128 % 8 == u % 8
  {
  }

  /** Exponent and mantissa fields spell the code's magnitude. */
  lemma DecodeFields(exp: nat, mant: nat, c: nat)
    requires mant < 8 && c / 8 == exp && c % 8 == mant
    ensures Shl(if exp > 0 then mant + 8 else mant, (if exp > 0 then exp else 1) + 139) == CodeUnits(c)
  {
    if exp > 0 {
      ShlShl(mant + 8, exp - 1, SCALE);
    }
  }

  /** The fields of an encoded byte. */
  lemma EncodeFields(f: word)
    ensures Encode(f) % 128 == EncodeMag(Mag(f)) && (Encode(f) >= 128 <==> Negative(f)) &&
      Encode(f) % 2 == EncodeMag(Mag(f)) % 2
  {
    JoinFields(EncodeMag(Mag(f)), Negative(f));
  }

  lemma JoinFields(c: nat, neg: bool)
    requires c < 128
    ensures var u := c + if neg then 128 else 0; u % 128 == c && (u >= 128 <==> neg) && u % 2 == c % 2
  {
  }

  /** The encoder's sign and magnitude. */
  lemma EncodeDecodes(f: word)
    requires !IsNan(f)
    ensures EncodeMag(Mag(f)) <= 126
    ensures Decode(Encode(f)) == Num(Signed(Negative(f), CodeUnits(EncodeMag(Mag(f)))))
  {
    NearestMag(Mag(f), 0);
    EncodeFields(f);
    DecodeIsFormat(Encode(f));
  }

  /** NaN goes to NaN and nothing else does. */
  lemma NanIffNan(f: word)
    ensures Decode(Encode(f)) == NaN <==> IsNan(f)
    ensures IsNan(f) ==> Encode(f) == if Negative(f) then 0xFF else 0x7F
  {
    if !IsNan(f) {
      EncodeDecodes(f);
    }
  }

  /** With signs, on plain numbers: x rounds to e, which is no further than 0. */
  lemma SignsKeepNearest(x: nat, e: nat, y: nat, neg: bool, other: bool, even: bool)
    requires Dist(x, e) <= Dist(x, y) && Dist(x, e) <= Dist(x, 0)
    requires Dist(x, e) == Dist(x, y) ==> e == y || even
    requires Dist(x, e) == Dist(x, 0) ==> e == 0 || even
    ensures Dist(Signed(neg, x), Signed(neg, e)) <= Dist(Signed(neg, x), Signed(other, y))
    ensures Dist(Signed(neg, x), Signed(neg, e)) == Dist(Signed(neg, x), Signed(other, y)) ==>
      Signed(neg, e) == Signed(other, y) || even
  {
  }

  lemma NearestSigned(mag: nat, neg: bool, d: nat, other: bool)
    requires mag <= 0x7F80_0000 && d <= 126
    ensures var x, e, y := Signed(neg, MagUnits(mag)), Signed(neg, CodeUnits(EncodeMag(mag))),
      Signed(other, CodeUnits(d));
            Dist(x, e) <= Dist(x, y) && (Dist(x, e) == Dist(x, y) ==> e == y || EncodeMag(mag) % 2 == 0)
  {
    NearestMag(mag, d);
    NearestMag(mag, 0);
    ShlZero(SCALE);
    SignsKeepNearest(MagUnits(mag), CodeUnits(EncodeMag(mag)), CodeUnits(d), neg, other, EncodeMag(mag) % 2 == 0);
  }

  /** Encoding rounds to nearest, ties to even: no finite code is nearer, and where another value is as near,
      the chosen code is even. Infinities and magnitudes above 448 are no exception: 448 is nearest. */
  lemma EncodeIsNearest(f: word, d: byte)
    requires !IsNan(f) && Decode(d) != NaN
    ensures Decode(Encode(f)).Num?
    ensures Dist(Units(f), Decode(Encode(f)).units) <= Dist(Units(f), Decode(d).units)
    ensures Dist(Units(f), Decode(Encode(f)).units) == Dist(Units(f), Decode(d).units) && Decode(d) != Decode(Encode(f))
            ==> Encode(f) % 2 == 0
  {
    EncodeDecodes(f);
    DecodeIsFormat(d);
    EncodeFields(f);
    NearestSigned(Mag(f), Negative(f), d % 128, d >= 128);
  }

  /** 448, the largest finite value. */
  function Largest(): nat {
    CodeUnits(126)
  }

  /** Magnitudes of 448 and above, infinities included, give 448 with the sign kept. */
  lemma EncodeSaturates(f: word)
    requires !IsNan(f) && MagUnits(Mag(f)) >= Largest()
    ensures Encode(f) == if Negative(f) then 0xFE else 0x7E
  {
    NearestMag(Mag(f), 126);
    if EncodeMag(Mag(f)) < 126 {
      CodesStrict(EncodeMag(Mag(f)), 126);
    }
  }

  // ---------------------------------------------------------------- order and round trip

  /** fp32 patterns of one sign are ordered like their values. */
  lemma UnitsStrict(a: nat, b: nat)
    requires a < b
    ensures MagUnits(a) < MagUnits(b)
  {
    var ea, fa, eb, fb := a / 0x80_0000, a % 0x80_0000, b / 0x80_0000, b % 0x80_0000;
    if ea == eb {
      assert fa < fb;
      if ea > 0 {
        ShlStrict(0x80_0000 + fa, 0x80_0000 + fb, ea - 1);
      }
    } else {
      ShlMonotone(0x80_0000, 0x80_0000 + fb, eb - 1);
      ShlGrows(0x80_0000, ea, eb - 1);
      if ea > 0 {
        ShlStrict(0x80_0000 + fa, 0x100_0000, ea - 1);
        ShlAdd(0x80_0000, 0x80_0000, ea - 1);
      }
    }
  }

  /** Equal values have equal patterns, up to the sign of zero. */
  lemma UnitsInjective(f: word, g: word)
    requires Units(f) == Units(g)
    ensures f == g || Mag(f) == Mag(g) == 0
  {
    if Mag(f) < Mag(g) {
      UnitsStrict(Mag(f), Mag(g));
    } else if Mag(g) < Mag(f) {
      UnitsStrict(Mag(g), Mag(f));
    }
    if Mag(f) > 0 {
      UnitsStrict(0, Mag(f));
    }
    if Mag(g) > 0 {
      UnitsStrict(0, Mag(g));
    }
  }

  /** Encoding is monotone. */
  lemma EncodeMonotone(f: word, g: word)
    requires !IsNan(f) && !IsNan(g) && Units(f) <= Units(g)
    ensures Decode(Encode(f)).Num? && Decode(Encode(g)).Num?
    ensures Decode(Encode(f)).units <= Decode(Encode(g)).units
  {
    NanIffNan(f);
    NanIffNan(g);
    EncodeIsNearest(f, Encode(g));
    EncodeIsNearest(g, Encode(f));
    if Units(f) == Units(g) {
      UnitsInjective(f, g);
      EncodeDecodes(f);
      EncodeDecodes(g);
      NearestMag(0, 0);
      ShlZero(SCALE);
    }
  }

  lemma ExactMag(mag: nat, d: nat)
    requires mag <= 0x7F80_0000 && d <= 126 && MagUnits(mag) == CodeUnits(d)
    ensures EncodeMag(mag) == d
  {
    NearestMag(mag, d);
    var c := EncodeMag(mag);
    if c < d {
      CodesStrict(c, d);
    } else if d < c {
      CodesStrict(d, c);
    }
  }

  lemma SameSize(neg: bool, a: nat, b: nat)
    requires Signed(neg, a) == Signed(neg, b)
    ensures a == b
  {
  }

  /** Any pattern that has exactly a code's value and sign encodes to that code. */
  lemma RoundTrip(f: word, u: byte)
    requires !IsNan(f) && Decode(u) == Num(Units(f)) && (Negative(f) <==> u >= 128)
    ensures Encode(f) == u
  {
    ExactCode(Mag(f), Negative(f), u);
    SplitFields(u);
  }

  lemma ExactCode(mag: nat, neg: bool, u: byte)
    requires mag <= 0x7F80_0000 && Decode(u) == Num(Signed(neg, MagUnits(mag))) && (neg <==> u >= 128)
    ensures EncodeMag(mag) == u % 128
  {
    DecodeIsFormat(u);
    SameSize(neg, MagUnits(mag), CodeUnits(u % 128));
    ExactMag(mag, u % 128);
  }

  lemma SplitFields(u: byte)
    ensures u == u % 128 + if u >= 128 then 128 else 0
  {
  }

  /** Such a pattern exists for every finite code: decoding loses nothing. */
  lemma EveryCodeHasPattern(u: byte) returns (f: word)
    requires u % 128 != 127
    ensures !IsNan(f) && Decode(u) == Num(Units(f)) && (Negative(f) <==> u >= 128)
  {
    var mag := PatternOf(u % 128);
    f := mag + if u >= 128 then 0x8000_0000 else 0;
    assert Mag(f) == mag && (Negative(f) <==> u >= 128);
    DecodeIsFormat(u);
  }

  /** Every code's magnitude is an fp32 magnitude. */
  lemma PatternOf(c: nat) returns (mag: nat)
    requires c <= 126
    ensures mag < 0x7F80_0000 && MagUnits(mag) == CodeUnits(c)
  {
    if c == 0 {
      mag := 0;
      ShlZero(SCALE);
    } else if c < 8 {
      var s := if c >= 4 then 2 else if c >= 2 then 1 else 0;
      mag := (118 + s) * 0x80_0000 + (Shl(c, 23 - s) - 0x80_0000);
      Shl20(c);
      ShlShl(c, 20, 3 - s);
      ShlShl(c, 23 - s, 117 + s);
    } else {
      var k, m := c / 8 - 1, 8 + c % 8;
      mag := (121 + k) * 0x80_0000 + (c % 8) * 0x10_0000;
      assert mag / 0x80_0000 == 121 + k && mag % 0x80_0000 == (c % 8) * 0x10_0000;
      Shl20(m);
      ShlShl(m, k, SCALE);
      ShlShl(m, 20, 120 + k);
    }
  }
}
