/** Sparse attention with an online softmax, in one pass or split over the key
    axis (overlay/sm80-src/rocm_aiter_mla_sparse.py).

    One query and one head; the accumulators of all output coordinates follow
    the same recurrence with the same running maximum and sum, so the model
    follows one coordinate.  Arithmetic is over the reals and the exponential is
    a parameter that is positive and turns sums into products. */
module Softmax {
  import opened Common

  ghost predicate IsExp(e: real -> real) {
    && (forall x :: e(x) > 0.0)
    && (forall x, y :: SumToProduct(e, x, y))
  }

  ghost predicate SumToProduct(e: real -> real, x: real, y: real) {
    e(x + y) == e(x) * e(y)
  }

  /** The sentinel of masked scores, the smallest finite fp32. */
  const NEG_LARGE: real := -340282346638528860000000000000000000000.0

  /** The key slots of one query in one cache: their indices, the number of
      cache rows, and per row the scaled score and the value coordinate. */
  datatype Segment = Segment(indices: seq<int>, rows: int, score: int -> real, value: int -> real)

  /** Slot k holds a row of the cache. */
  predicate Valid(seg: Segment, k: int)
    requires 0 <= k < |seg.indices|
  {
    0 <= seg.indices[k] < seg.rows
  }

  ghost predicate ScoresOk(seg: Segment) {
    forall k | 0 <= k < |seg.indices| && Valid(seg, k) :: seg.score(seg.indices[k]) >= NEG_LARGE
  }

  /** Sum over the valid slots of [lo, hi) of exp(score - m), weighted by w(row). */
  ghost function Sum(e: real -> real, seg: Segment, w: int -> real, lo: int, hi: int, m: real): real
    requires 0 <= lo && hi <= |seg.indices|
    decreases hi - lo
  {
    if hi <= lo then 0.0 else Sum(e, seg, w, lo, hi - 1, m) + Term(e, seg, w, hi - 1, m)
  }

  /** What slot k adds; a masked slot adds nothing. */
  ghost function Term(e: real -> real, seg: Segment, w: int -> real, k: int, m: real): real
    requires 0 <= k < |seg.indices|
  {
    if Valid(seg, k) then w(seg.indices[k]) * e(seg.score(seg.indices[k]) - m) else 0.0
  }

  const ONE: int -> real := _ => 1.0

  ghost function Weights(e: real -> real, seg: Segment, lo: int, hi: int): real
    requires 0 <= lo && hi <= |seg.indices|
  {
    Sum(e, seg, ONE, lo, hi, 0.0)
  }

  ghost function Values(e: real -> real, seg: Segment, lo: int, hi: int): real
    requires 0 <= lo && hi <= |seg.indices|
  {
    Sum(e, seg, seg.value, lo, hi, 0.0)
  }

  ghost predicate SomeValid(seg: Segment, lo: int, hi: int)
    requires 0 <= lo && hi <= |seg.indices|
  {
    exists k | lo <= k < hi :: Valid(seg, k)
  }

  // ---------------------------------------------------------------- facts about the exponential

  lemma ExpZero(e: real -> real)
    requires IsExp(e)
    ensures e(0.0) == 1.0
  {
    var z: real := 0.0;
    var u := e(z);
    assert SumToProduct(e, z, z);
    assert e(z + z) == u * u;
    assert z + z == z;
    assert u == u * u;
    Idempotent(u);
  }

  lemma Idempotent(x: real)
    requires x > 0.0 && x == x * x
    ensures x == 1.0
  {
    assert x < 1.0 ==> x * x < x * 1.0;
    assert x > 1.0 ==> x * x > x * 1.0;
  }

  /** Rescaling from maximum m to maximum n. */
  lemma Rescale(e: real -> real, x: real, m: real, n: real)
    requires IsExp(e)
    ensures (x * e(m - n)) * e(n) == x * e(m)
  {
    assert SumToProduct(e, m - n, n);
    assert (m - n) + n == m;
    Assoc(x, e(m - n), e(n));
  }

  lemma Assoc(x: real, y: real, z: real)
    ensures (x * y) * z == x * (y * z)
  {
  }

  /** Two scaled totals add up. */
  lemma ScaledSum(x: real, y: real, k: real, w: real, d: real)
    requires x * k == w && y * k == d
    ensures (x + y) * k == w + d
  {
  }

  lemma TermScales(e: real -> real, seg: Segment, w: int -> real, k: int, m: real)
    requires IsExp(e) && 0 <= k < |seg.indices|
    ensures Term(e, seg, w, k, m) * e(m) == Term(e, seg, w, k, 0.0)
  {
    if Valid(seg, k) {
      var s, v := seg.score(seg.indices[k]), w(seg.indices[k]);
      Rescale(e, v, s, m);
      assert s - 0.0 == s;
    }
  }

  lemma {:induction false} SumScales(e: real -> real, seg: Segment, w: int -> real, lo: int, hi: int, m: real)
    requires IsExp(e) && 0 <= lo && hi <= |seg.indices|
    ensures Sum(e, seg, w, lo, hi, m) * e(m) == Sum(e, seg, w, lo, hi, 0.0)
    decreases hi - lo
  {
    if lo < hi {
      SumScales(e, seg, w, lo, hi - 1, m);
      TermScales(e, seg, w, hi - 1, m);
      ScaledSum(Sum(e, seg, w, lo, hi - 1, m), Term(e, seg, w, hi - 1, m), e(m),
                Sum(e, seg, w, lo, hi - 1, 0.0), Term(e, seg, w, hi - 1, 0.0));
    }
  }

  lemma {:induction false} SumSplits(e: real -> real, seg: Segment, w: int -> real, lo: int, mid: int, hi: int, m: real)
    requires 0 <= lo <= mid <= hi <= |seg.indices|
    ensures Sum(e, seg, w, lo, hi, m) == Sum(e, seg, w, lo, mid, m) + Sum(e, seg, w, mid, hi, m)
    decreases hi - mid
  {
    if mid < hi {
      SumSplits(e, seg, w, lo, mid, hi - 1, m);
    }
  }

  /** A sum of weights is non-negative, and at least 1 when a valid slot's score is the maximum. */
  lemma {:induction false} SumAtLeast(e: real -> real, seg: Segment, lo: int, hi: int, m: real)
    requires IsExp(e) && 0 <= lo && hi <= |seg.indices|
    ensures Sum(e, seg, ONE, lo, hi, m) >= 0.0
    ensures (exists k | lo <= k < hi :: Valid(seg, k) && seg.score(seg.indices[k]) == m) ==>
      Sum(e, seg, ONE, lo, hi, m) >= 1.0
    ensures !SomeValid(seg, lo, hi) ==> Sum(e, seg, ONE, lo, hi, m) == 0.0
    decreases hi - lo
  {
    if lo < hi {
      SumAtLeast(e, seg, lo, hi - 1, m);
      ExpZero(e);
      assert e(seg.score(seg.indices[hi - 1]) - m) > 0.0;
    }
  }

  lemma {:induction false} NoneValid(e: real -> real, seg: Segment, w: int -> real, lo: int, hi: int, m: real)
    requires 0 <= lo && hi <= |seg.indices| && !SomeValid(seg, lo, hi)
    ensures Sum(e, seg, w, lo, hi, m) == 0.0
    decreases hi - lo
  {
    if lo < hi {
      assert !Valid(seg, hi - 1);
      NoneValid(e, seg, w, lo, hi - 1, m);
    }
  }

  // ---------------------------------------------------------------- running state

  /** Running maximum, running sum, running accumulator. */
  datatype Part = Part(m: real, l: real, acc: real)

  const EMPTY_PART := Part(NEG_LARGE, 0.0, 0.0)

  /** x, taken at maximum m, stands for the unscaled total w. */
  ghost predicate Scaled(e: real -> real, x: real, m: real, w: real) {
    x * e(m) == w
  }

  /** The state stands for weight total w and value total v over slots of which some are valid. */
  ghost predicate StandsFor(e: real -> real, p: Part, w: real, v: real, some: bool) {
    && p.m >= NEG_LARGE
    && Scaled(e, p.l, p.m, w) && Scaled(e, p.acc, p.m, v)
    && if some then p.l >= 1.0 else p == EMPTY_PART
  }

  function MaxR(a: real, b: real): real {
    if a >= b then a else b
  }

  /** The largest masked score of a tile. */
  ghost predicate IsTileMax(seg: Segment, lo: int, hi: int, m: real)
    requires 0 <= lo && hi <= |seg.indices|
  {
    && m >= NEG_LARGE
    && (forall k | lo <= k < hi && Valid(seg, k) :: seg.score(seg.indices[k]) <= m)
    && (m == NEG_LARGE || exists k | lo <= k < hi :: Valid(seg, k) && seg.score(seg.indices[k]) == m)
  }

  ghost function TileResult(e: real -> real, seg: Segment, lo: int, hi: int, mb: real, p: Part): Part
    requires 0 <= lo && hi <= |seg.indices|
  {
    var m := MaxR(p.m, mb);
    Part(m, MulAdd(p.l, e(p.m - m), Sum(e, seg, ONE, lo, hi, m)),
      MulAdd(p.acc, e(p.m - m), Sum(e, seg, seg.value, lo, hi, m)))
  }

  function MulAdd(x: real, alpha: real, sum: real): real {
    x * alpha + sum
  }

  /** After a tile some weight term of the new maximum is at least 1, if any slot was valid. */
  lemma TileSumAtLeastOne(e: real -> real, seg: Segment, lo: int, hi: int, mb: real, p: Part, w: real, v: real,
                          some: bool)
    requires IsExp(e) && 0 <= lo && hi <= |seg.indices| && ScoresOk(seg) && IsTileMax(seg, lo, hi, mb)
    requires StandsFor(e, p, w, v, some)
    ensures var q := TileResult(e, seg, lo, hi, mb, p);
            if some || SomeValid(seg, lo, hi) then q.l >= 1.0 else q == EMPTY_PART
  {
    var m := MaxR(p.m, mb);
    ExpZero(e);
    SumAtLeast(e, seg, lo, hi, m);
    assert e(p.m - m) > 0.0 && p.l >= 0.0;
    assert p.l * e(p.m - m) >= 0.0;
    if !some && !SomeValid(seg, lo, hi) {
      NoneValid(e, seg, seg.value, lo, hi, m);
      NoneValid(e, seg, ONE, lo, hi, m);
    } else if m == p.m {
      assert p.l * e(0.0) == p.l;
    }
  }

  /** A running total moved from maximum m to n, plus a tile's terms at n. */
  lemma AddScaled(e: real -> real, seg: Segment, w: int -> real, lo: int, hi: int, x: real, m: real, n: real, t: real)
    requires IsExp(e) && 0 <= lo && hi <= |seg.indices| && Scaled(e, x, m, t)
    ensures Scaled(e, x * e(m - n) + Sum(e, seg, w, lo, hi, n), n, t + Sum(e, seg, w, lo, hi, 0.0))
  {
    Rescale(e, x, m, n);
    SumScales(e, seg, w, lo, hi, n);
    ScaledSum(x * e(m - n), Sum(e, seg, w, lo, hi, n), e(n), x * e(m), Sum(e, seg, w, lo, hi, 0.0));
  }

  /** One tile adds exactly its own slots. */
  lemma TileStep(e: real -> real, seg: Segment, lo: int, hi: int, mb: real, p: Part, w: real, v: real, some: bool)
    requires IsExp(e) && 0 <= lo && hi <= |seg.indices| && ScoresOk(seg) && IsTileMax(seg, lo, hi, mb)
    requires StandsFor(e, p, w, v, some)
    ensures StandsFor(e, TileResult(e, seg, lo, hi, mb, p),
                      w + Weights(e, seg, lo, hi), v + Values(e, seg, lo, hi), some || SomeValid(seg, lo, hi))
  {
    var m := MaxR(p.m, mb);
    TileSumAtLeastOne(e, seg, lo, hi, mb, p, w, v, some);
    AddScaled(e, seg, ONE, lo, hi, p.l, p.m, m, w);
    AddScaled(e, seg, seg.value, lo, hi, p.acc, p.m, m, v);
  }

  // ---------------------------------------------------------------- the result

  /** Softmax-weighted sum over the valid slots, the sink in the denominator only; zero without any weight. */
  ghost function Attention(e: real -> real, w: real, v: real, sink: Option<real>): real
  {
    var total := w + if sink.Some? then e(sink.value) else 0.0;
    if total == 0.0 then 0.0 else v / total
  }

  ghost function ClosedForm(e: real -> real, main: Segment, extra: Option<Segment>, sink: Option<real>): real {
    Attention(e, TotalWeight(e, main, extra), TotalValue(e, main, extra), sink)
  }

  ghost function TotalWeight(e: real -> real, main: Segment, extra: Option<Segment>): real {
    Weights(e, main, 0, |main.indices|) + if extra.Some? then Weights(e, extra.value, 0, |extra.value.indices|) else 0.0
  }

  ghost function TotalValue(e: real -> real, main: Segment, extra: Option<Segment>): real {
    Values(e, main, 0, |main.indices|) + if extra.Some? then Values(e, extra.value, 0, |extra.value.indices|) else 0.0
  }

  ghost predicate InputsOk(main: Segment, extra: Option<Segment>, sink: Option<real>) {
    && ScoresOk(main) && (extra.Some? ==> ScoresOk(extra.value))
    && (sink.Some? ==> sink.value >= NEG_LARGE)
  }

  const TINY: real := 0.000000000000000000000000000001

  /** The scale cancels in the quotient. */
  lemma Quotient(a: real, l: real, k: real, v: real, w: real)
    requires l >= 1.0 && k > 0.0 && a * k == v && l * k == w
    ensures w > 0.0 && a / l == v / w
  {
    assert w >= k;
    var q := a / l;
    assert a == q * l;
    assert v == q * w by {
      assert (q * l) * k == q * (l * k);
    }
    assert v / w == q by {
      DivOfProduct(q, w);
    }
  }

  lemma DivOfProduct(q: real, w: real)
    requires w > 0.0
    ensures (q * w) / w == q
  {
  }

  /** Normalising a state whose sum is at least 1, or an empty one: the clamp never bites. */
  lemma NormalForm(e: real -> real, a: real, l: real, m: real, v: real, w: real)
    requires IsExp(e) && Scaled(e, l, m, w) && Scaled(e, a, m, v)
    requires l >= 1.0 || (l == 0.0 && a == 0.0)
    ensures (if l > 0.0 then a / MaxR(l, TINY) else 0.0) == if w == 0.0 then 0.0 else v / w
  {
    if l >= 1.0 {
      Quotient(a, l, e(m), v, w);
    }
  }

  /** Folding in the sink. */
  lemma SinkStep(e: real -> real, p: Part, sink: real, w: real, v: real, some: bool)
    requires IsExp(e) && StandsFor(e, p, w, v, some) && sink >= NEG_LARGE
    ensures var m := MaxR(p.m, sink);
            var l := p.l * e(p.m - m) + e(sink - m);
            l >= 1.0 && Scaled(e, l, m, w + e(sink)) && Scaled(e, p.acc * e(p.m - m), m, v)
  {
    var m := MaxR(p.m, sink);
    ExpZero(e);
    Rescale(e, p.l, p.m, m);
    Rescale(e, p.acc, p.m, m);
    Rescale(e, 1.0, sink, m);
    ScaledSum(p.l * e(p.m - m), 1.0 * e(sink - m), e(m), w, e(sink));
    assert e(p.m - m) > 0.0 && e(sink - m) > 0.0;
    assert p.l * e(p.m - m) >= 0.0;
    if m == p.m {
      assert p.l * e(0.0) == p.l;
    }
  }

  // ---------------------------------------------------------------- kernels

  function Clip(k: nat, hi: nat): nat {
    if k <= hi then k else hi
  }

  /** tl.max over the lanes of a tile; lanes at or past kEnd are out of range. */
  method TileMax(seg: Segment, kStart: nat, kEnd: nat, blockK: nat) returns (mBlock: real)
    requires kStart < kEnd <= |seg.indices| && ScoresOk(seg)
    ensures IsTileMax(seg, kStart, Clip(kStart + blockK, kEnd), mBlock)
  {
    mBlock := NEG_LARGE;
    for i := 0 to blockK
      invariant IsTileMax(seg, kStart, Clip(kStart + i, kEnd), mBlock)
    {
      if kStart + i < kEnd && Valid(seg, kStart + i) {
        mBlock := MaxR(mBlock, seg.score(seg.indices[kStart + i]));
      }
    }
  }

  /** The masked exponentials of a tile, summed plainly and against the values. */
  method TileSums(e: real -> real, seg: Segment, kStart: nat, kEnd: nat, blockK: nat, mNew: real)
    returns (sumP: real, sumV: real)
    requires kStart < kEnd <= |seg.indices|
    ensures sumP == Sum(e, seg, ONE, kStart, Clip(kStart + blockK, kEnd), mNew)
    ensures sumV == Sum(e, seg, seg.value, kStart, Clip(kStart + blockK, kEnd), mNew)
  {
    sumP, sumV := 0.0, 0.0;
    for i := 0 to blockK
      invariant sumP == Sum(e, seg, ONE, kStart, Clip(kStart + i, kEnd), mNew)
      invariant sumV == Sum(e, seg, seg.value, kStart, Clip(kStart + i, kEnd), mNew)
    {
      if kStart + i < kEnd && Valid(seg, kStart + i) {
        var pr := e(seg.score(seg.indices[kStart + i]) - mNew);
        sumP := sumP + 1.0 * pr;
        sumV := sumV + seg.value(seg.indices[kStart + i]) * pr;
      }
    }
  }

  /** One BLOCK_K tile starting at kStart. */
  method Tile(e: real -> real, seg: Segment, kStart: nat, kEnd: nat, blockK: nat, p: Part) returns (q: Part,
              mBlock: real)
    requires kStart < kEnd <= |seg.indices| && ScoresOk(seg)
    ensures IsTileMax(seg, kStart, Clip(kStart + blockK, kEnd), mBlock)
    ensures q == TileResult(e, seg, kStart, Clip(kStart + blockK, kEnd), mBlock, p)
  {
    mBlock := TileMax(seg, kStart, kEnd, blockK);
    var mNew := MaxR(p.m, mBlock);
    var alpha := e(p.m - mNew);
    var sumP, sumV := TileSums(e, seg, kStart, kEnd, blockK, mNew);
    q := Part(mNew, MulAdd(p.l, alpha, sumP), MulAdd(p.acc, alpha, sumV));
  }

  /** The state stands for the sums w and v; it is empty or has a term of at least 1. */
  ghost predicate Holds(e: real -> real, p: Part, w: real, v: real) {
    StandsFor(e, p, w, v, p != EMPTY_PART)
  }

  /** The tile loop over slots [lo, hi). */
  method Scan(e: real -> real, seg: Segment, lo: nat, hi: int, blockK: nat, p: Part, ghost w: real, ghost v: real)
    returns (q: Part)
    requires IsExp(e) && hi <= |seg.indices| && blockK > 0 && ScoresOk(seg)
    requires Holds(e, p, w, v)
    ensures Holds(e, q, w + Weights(e, seg, lo, hi), v + Values(e, seg, lo, hi))
  {
    q := p;
    var kStart := lo;
    ghost var done := lo;
    while kStart < hi
      invariant lo <= kStart && done == (if kStart <= hi || hi < lo then kStart else hi) && (hi < lo ==> kStart == lo)
      invariant lo <= done && (lo <= hi ==> done <= hi)
      invariant hi < lo || Holds(e, q, w + Weights(e, seg, lo, done), v + Values(e, seg, lo, done))
      invariant hi < lo ==> q == p
      decreases hi - kStart
    {
      q := ScanTile(e, seg, lo, kStart, hi, blockK, q, w, v);
      kStart, done := kStart + blockK, Clip(kStart + blockK, hi);
    }
  }

  /** The tile loop's body: the state after the slots of one more tile. */
  method ScanTile(e: real -> real, seg: Segment, ghost lo: nat, kStart: nat, hi: nat, blockK: nat, p: Part,
                  ghost w: real, ghost v: real)
    returns (q: Part)
    requires IsExp(e) && lo <= kStart < hi <= |seg.indices| && blockK > 0 && ScoresOk(seg)
    requires Holds(e, p, w + Weights(e, seg, lo, kStart), v + Values(e, seg, lo, kStart))
    ensures var next := Clip(kStart + blockK, hi);
            Holds(e, q, w + Weights(e, seg, lo, next), v + Values(e, seg, lo, next))
  {
    var q', mBlock := Tile(e, seg, kStart, hi, blockK, p);
    ghost var next := Clip(kStart + blockK, hi);
    TileStep(e, seg, kStart, next, mBlock, p, w + Weights(e, seg, lo, kStart), v + Values(e, seg, lo, kStart),
      p != EMPTY_PART);
    SumSplits(e, seg, ONE, lo, kStart, next, 0.0);
    SumSplits(e, seg, seg.value, lo, kStart, next, 0.0);
    q := q';
  }

  /** where(l > 0, acc / max(l, 1e-30), 0) */
  method Divide(e: real -> real, acc: real, l: real, ghost m: real, ghost v: real, ghost w: real) returns (out: real)
    requires IsExp(e) && Scaled(e, l, m, w) && Scaled(e, acc, m, v)
    requires l >= 1.0 || (l == 0.0 && acc == 0.0)
    ensures out == if w == 0.0 then 0.0 else v / w
  {
    NormalForm(e, acc, l, m, v, w);
    out := if l > 0.0 then acc / MaxR(l, TINY) else 0.0;
  }

  /** Bring the running state to the maximum with the sink and add the sink's term. */
  method FoldSink(e: real -> real, p: Part, sink: real, ghost w: real, ghost v: real, ghost some: bool)
    returns (acc: real, l: real, m: real)
    requires IsExp(e) && StandsFor(e, p, w, v, some) && sink >= NEG_LARGE
    ensures l >= 1.0 && Scaled(e, l, m, w + e(sink)) && Scaled(e, acc, m, v)
  {
    m := MaxR(p.m, sink);
    var alpha := e(p.m - m);
    l := p.l * alpha + e(sink - m);
    acc := p.acc * alpha;
    SinkStep(e, p, sink, w, v, some);
  }

  /** The epilogue: fold in the sink and divide. */
  method Normalise(e: real -> real, p: Part, sink: Option<real>, ghost w: real, ghost v: real, ghost some: bool)
    returns (out: real)
    requires IsExp(e) && StandsFor(e, p, w, v, some) && (sink.Some? ==> sink.value >= NEG_LARGE)
    ensures out == Attention(e, w, v, sink)
  {
    if sink.Some? {
      var acc, l, m := FoldSink(e, p, sink.value, w, v, some);
      out := Divide(e, acc, l, m, v, w + e(sink.value));
    } else {
      out := Divide(e, p.acc, p.l, p.m, v, w);
    }
  }

  /** The ragged decode kernel: one pass over both segments, then the epilogue. */
  method RaggedKernel(e: real -> real, main: Segment, extra: Option<Segment>, sink: Option<real>, blockK: nat)
    returns (out: real)
    requires IsExp(e) && blockK > 0 && InputsOk(main, extra, sink)
    ensures out == ClosedForm(e, main, extra, sink)
    ensures out == Plain(e, Keys(main) + if extra.Some? then Keys(extra.value) else [], sink)
  {
    var p := Scan(e, main, 0, |main.indices|, blockK, EMPTY_PART, 0.0, 0.0);
    if extra.Some? {
      p := Scan(e, extra.value, 0, |extra.value.indices|, blockK, p,
                Weights(e, main, 0, |main.indices|), Values(e, main, 0, |main.indices|));
    }
    out := Normalise(e, p, sink, TotalWeight(e, main, extra), TotalValue(e, main, extra), p != EMPTY_PART);
    ClosedFormIsSoftmax(e, main, extra, sink);
  }

  // ---------------------------------------------------------------- split over the key axis

  /** Slots per split. */
  function Chunk(len: nat, splits: nat): nat
    requires splits > 0
  {
    (len + splits - 1) / splits
  }

  function SplitLo(len: nat, splits: nat, s: nat): nat
    requires splits > 0
  {
    s * Chunk(len, splits)
  }

  function SplitHi(len: nat, splits: nat, s: nat): nat
    requires splits > 0
  {
    Clip(SplitLo(len, splits, s) + Chunk(len, splits), len)
  }

  /** Totals over the slots of the first n splits of a segment. */
  ghost function SplitSum(e: real -> real, seg: Segment, w: int -> real, splits: nat, n: nat): real
    requires splits > 0
  {
    if n == 0 then 0.0
    else SplitSum(e, seg, w, splits, n - 1) +
         Sum(e, seg, w, SplitLo(|seg.indices|, splits, n - 1), SplitHi(|seg.indices|, splits, n - 1), 0.0)
  }

  lemma ChunkCovers(len: nat, splits: nat)
    requires splits > 0
    ensures len <= splits * Chunk(len, splits)
  {
  }

  /** The first n splits cover exactly the first n * chunk slots. */
  lemma {:induction false} SplitsPrefix(e: real -> real, seg: Segment, w: int -> real, splits: nat, n: nat)
    requires splits > 0
    ensures SplitSum(e, seg, w, splits, n) == Sum(e, seg, w, 0,
      Clip(SplitLo(|seg.indices|, splits, n), |seg.indices|), 0.0)
  {
    if n > 0 {
      var len, c := |seg.indices|, Chunk(|seg.indices|, splits);
      SplitsPrefix(e, seg, w, splits, n - 1);
      assert n * c == (n - 1) * c + c;
      if (n - 1) * c <= len {
        SumSplits(e, seg, w, 0, (n - 1) * c, SplitHi(len, splits, n - 1), 0.0);
      }
    }
  }

  /** All splits together cover every slot once. */
  lemma SplitsCover(e: real -> real, seg: Segment, w: int -> real, splits: nat)
    requires splits > 0
    ensures SplitSum(e, seg, w, splits, splits) == Sum(e, seg, w, 0, |seg.indices|, 0.0)
  {
    SplitsPrefix(e, seg, w, splits, splits);
    ChunkCovers(|seg.indices|, splits);
  }

  /** What partial s must stand for: its slice of both segments. */
  ghost function PartWeight(e: real -> real, main: Segment, extra: Option<Segment>, splits: nat, s: nat): real
    requires splits > 0
  {
    Weights(e, main, SplitLo(|main.indices|, splits, s), SplitHi(|main.indices|, splits, s)) +
    if extra.Some?
      then Weights(e, extra.value, SplitLo(|extra.value.indices|, splits, s),
        SplitHi(|extra.value.indices|, splits, s)) else 0.0
  }

  ghost function PartValue(e: real -> real, main: Segment, extra: Option<Segment>, splits: nat, s: nat): real
    requires splits > 0
  {
    Values(e, main, SplitLo(|main.indices|, splits, s), SplitHi(|main.indices|, splits, s)) +
    if extra.Some?
      then Values(e, extra.value, SplitLo(|extra.value.indices|, splits, s),
        SplitHi(|extra.value.indices|, splits, s)) else 0.0
  }

  /** The partial kernel of one split: raw state, no sink, no division. */
  method PartialKernel(e: real -> real, main: Segment, extra: Option<Segment>, blockK: nat, splits: nat, s: nat)
    returns (p: Part)
    requires IsExp(e) && blockK > 0 && splits > 0 && InputsOk(main, extra, None)
    ensures Holds(e, p, PartWeight(e, main, extra, splits, s), PartValue(e, main, extra, splits, s))
  {
    var lo, hi := SplitLo(|main.indices|, splits, s), SplitHi(|main.indices|, splits, s);
    p := Scan(e, main, lo, hi, blockK, EMPTY_PART, 0.0, 0.0);
    if extra.Some? {
      var xlo, xhi := SplitLo(|extra.value.indices|, splits, s), SplitHi(|extra.value.indices|, splits, s);
      p := Scan(e, extra.value, xlo, xhi, blockK, p, Weights(e, main, lo, hi), Values(e, main, lo, hi));
    }
  }

  // ---------------------------------------------------------------- the reduction

  /** Partial s stands for ws[s] and vs[s]. */
  ghost predicate PartsOk(e: real -> real, parts: seq<Part>, ws: seq<real>, vs: seq<real>, somes: seq<bool>) {
    && |parts| == |ws| == |vs| == |somes|
    && forall s | 0 <= s < |parts| :: StandsFor(e, parts[s], ws[s], vs[s], somes[s])
  }

  ghost function Total(xs: seq<real>, n: nat): real
    requires n <= |xs|
  {
    if n == 0 then 0.0 else Total(xs, n - 1) + xs[n - 1]
  }

  /** m is the largest partial maximum, or the sentinel. */
  ghost predicate IsPartsMax(parts: seq<Part>, m: real) {
    && m >= NEG_LARGE
    && (forall s | 0 <= s < |parts| :: parts[s].m <= m)
    && (m == NEG_LARGE || exists s | 0 <= s < |parts| :: parts[s].m == m)
  }

  /** Partial s brought to the common maximum. */
  method ScalePart(e: real -> real, p: Part, mFinal: real, ghost w: real, ghost v: real, ghost some: bool)
    returns (l: real, acc: real)
    requires IsExp(e) && StandsFor(e, p, w, v, some)
    ensures Scaled(e, l, mFinal, w) && Scaled(e, acc, mFinal, v) && l >= 0.0
    ensures some && p.m == mFinal ==> l >= 1.0
    ensures !some ==> l == 0.0 && acc == 0.0
  {
    var wS := e(p.m - mFinal);
    l, acc := p.l * wS, p.acc * wS;
    ExpZero(e);
    Rescale(e, p.l, p.m, mFinal);
    Rescale(e, p.acc, p.m, mFinal);
    assert wS > 0.0 && p.l >= 0.0;
    if p.m == mFinal {
      assert p.l * e(0.0) == p.l;
    }
  }

  lemma AddScaledPair(e: real -> real, x: real, y: real, m: real, w: real, d: real)
    requires Scaled(e, x, m, w) && Scaled(e, y, m, d)
    ensures Scaled(e, x + y, m, w + d)
  {
    ScaledSum(x, y, e(m), w, d);
  }

  /** Some partial at the common maximum has a valid slot, if any partial has one. */
  lemma MaxIsLive(e: real -> real, parts: seq<Part>, ws: seq<real>, vs: seq<real>, somes: seq<bool>, m: real)
    requires PartsOk(e, parts, ws, vs, somes) && IsPartsMax(parts, m)
    requires exists s | 0 <= s < |parts| :: somes[s]
    ensures exists s | 0 <= s < |parts| :: somes[s] && parts[s].m == m
  {
    var s :| 0 <= s < |parts| && somes[s];
    assert StandsFor(e, parts[s], ws[s], vs[s], somes[s]);
    if m == NEG_LARGE {
      assert parts[s].m == m;
    } else {
      var t :| 0 <= t < |parts| && parts[t].m == m;
      assert StandsFor(e, parts[t], ws[t], vs[t], somes[t]);
      assert somes[t];
    }
  }

  method PartsMax(parts: seq<Part>) returns (m: real)
    ensures IsPartsMax(parts, m)
  {
    m := NEG_LARGE;
    for s := 0 to |parts|
      invariant IsPartsMax(parts[..s], m)
    {
      assert parts[..s + 1] == parts[..s] + [parts[s]];
      m := MaxR(m, parts[s].m);
    }
    assert parts[..|parts|] == parts;
  }

  /** Both weighted sums over the splits. */
  method Combine(e: real -> real, parts: seq<Part>, mFinal: real, ghost ws: seq<real>, ghost vs: seq<real>,
                 ghost somes: seq<bool>)
    returns (l: real, acc: real)
    requires IsExp(e) && PartsOk(e, parts, ws, vs, somes)
    ensures Scaled(e, l, mFinal, Total(ws, |ws|)) && Scaled(e, acc, mFinal, Total(vs, |vs|))
    ensures l >= 0.0
    ensures (exists s | 0 <= s < |parts| :: somes[s] && parts[s].m == mFinal) ==> l >= 1.0
    ensures (forall s | 0 <= s < |parts| :: !somes[s]) ==> l == 0.0 && acc == 0.0
  {
    l, acc := 0.0, 0.0;
    for s := 0 to |parts|
      invariant Scaled(e, l, mFinal, Total(ws, s)) && Scaled(e, acc, mFinal, Total(vs, s))
      invariant l >= 0.0
      invariant (exists j | 0 <= j < s :: somes[j] && parts[j].m == mFinal) ==> l >= 1.0
      invariant (forall j | 0 <= j < s :: !somes[j]) ==> l == 0.0 && acc == 0.0
    {
      var lS, accS := ScalePart(e, parts[s], mFinal, ws[s], vs[s], somes[s]);
      AddScaledPair(e, l, lS, mFinal, Total(ws, s), ws[s]);
      AddScaledPair(e, acc, accS, mFinal, Total(vs, s), vs[s]);
      l := l + lS;
      acc := acc + accS;
    }
  }

  /** The sink's own term at the common maximum. */
  lemma SinkTerm(e: real -> real, sink: real, m: real)
    requires IsExp(e)
    ensures Scaled(e, e(sink - m), m, e(sink)) && e(sink - m) > 0.0 && (sink == m ==> e(sink - m) == 1.0)
  {
    ExpZero(e);
    Rescale(e, 1.0, sink, m);
  }

  /** The reduce kernel. */
  method ReduceKernel(e: real -> real, parts: seq<Part>, sink: Option<real>, ghost ws: seq<real>,
                      ghost vs: seq<real>, ghost somes: seq<bool>)
    returns (out: real)
    requires IsExp(e) && PartsOk(e, parts, ws, vs, somes) && (sink.Some? ==> sink.value >= NEG_LARGE)
    ensures out == Attention(e, Total(ws, |ws|), Total(vs, |vs|), sink)
  {
    var mComb := PartsMax(parts);
    var mFinal := if sink.Some? then MaxR(mComb, sink.value) else mComb;
    var l, acc := Combine(e, parts, mFinal, ws, vs, somes);
    ghost var w := Total(ws, |ws|);
    if mFinal == mComb && exists s | 0 <= s < |parts| :: somes[s] {
      MaxIsLive(e, parts, ws, vs, somes, mComb);
    }
    if sink.Some? {
      SinkTerm(e, sink.value, mFinal);
      AddScaledPair(e, l, e(sink.value - mFinal), mFinal, w, e(sink.value));
      l := l + e(sink.value - mFinal);
      w := w + e(sink.value);
    }
    out := Divide(e, acc, l, mFinal, Total(vs, |vs|), w);
  }

  lemma {:induction false} TotalsAdd(e: real -> real, main: Segment, extra: Option<Segment>, splits: nat,
                                     ws: seq<real>, vs: seq<real>, n: nat)
    requires splits > 0 && n <= |ws| == |vs|
    requires forall s | 0 <= s < n ::
      ws[s] == PartWeight(e, main, extra, splits, s) && vs[s] == PartValue(e, main, extra, splits, s)
    ensures Total(ws, n) == SplitSum(e, main, ONE, splits, n) +
                            if extra.Some? then SplitSum(e, extra.value, ONE, splits, n) else 0.0
    ensures Total(vs, n) == SplitSum(e, main, main.value, splits, n) +
                            if extra.Some? then SplitSum(e, extra.value, extra.value.value, splits, n) else 0.0
  {
    if n > 0 {
      TotalsAdd(e, main, extra, splits, ws, vs, n - 1);
    }
  }

  /** The totals of all splits are the totals of the single pass. */
  lemma TotalsCover(e: real -> real, main: Segment, extra: Option<Segment>, splits: nat, ws: seq<real>, vs: seq<real>)
    requires splits > 0 && splits == |ws| == |vs|
    requires forall s | 0 <= s < splits ::
      ws[s] == PartWeight(e, main, extra, splits, s) && vs[s] == PartValue(e, main, extra, splits, s)
    ensures Total(ws, splits) == TotalWeight(e, main, extra) && Total(vs, splits) == TotalValue(e, main, extra)
  {
    TotalsAdd(e, main, extra, splits, ws, vs, splits);
    SplitsCover(e, main, ONE, splits);
    SplitsCover(e, main, main.value, splits);
    if extra.Some? {
      SplitsCover(e, extra.value, ONE, splits);
      SplitsCover(e, extra.value, extra.value.value, splits);
    }
  }

  /** The partial kernels of all splits. */
  method PartialKernels(e: real -> real, main: Segment, extra: Option<Segment>, blockK: nat, splits: nat)
    returns (parts: seq<Part>)
    requires IsExp(e) && blockK > 0 && splits > 0 && InputsOk(main, extra, None)
    ensures |parts| == splits
    ensures forall s: nat | s < splits :: Holds(e, parts[s], PartWeight(e, main, extra, splits, s),
      PartValue(e, main, extra, splits, s))
  {
    parts := [];
    for s := 0 to splits
      invariant |parts| == s
      invariant forall j: nat | j < s :: Holds(e, parts[j], PartWeight(e, main, extra, splits, j),
        PartValue(e, main, extra, splits, j))
    {
      var p := PartialKernel(e, main, extra, blockK, splits, s);
      parts := parts + [p];
    }
  }

  /** Partial kernels for every split, then the reduction: any split count, any
      tile size, the same result as the single pass. */
  method SplitKernel(e: real -> real, main: Segment, extra: Option<Segment>, sink: Option<real>, blockK: nat,
                     splits: nat) returns (out: real)
    requires IsExp(e) && blockK > 0 && splits > 0 && InputsOk(main, extra, sink)
    ensures out == ClosedForm(e, main, extra, sink)
    ensures out == Plain(e, Keys(main) + if extra.Some? then Keys(extra.value) else [], sink)
  {
    var parts := PartialKernels(e, main, extra, blockK, splits);
    ghost var ws := seq(splits, s requires 0 <= s < splits => PartWeight(e, main, extra, splits, s));
    ghost var vs := seq(splits, s requires 0 <= s < splits => PartValue(e, main, extra, splits, s));
    ghost var somes := seq(splits, s requires 0 <= s < splits => parts[s] != EMPTY_PART);
    TotalsCover(e, main, extra, splits, ws, vs);
    out := ReduceKernel(e, parts, sink, ws, vs, somes);
    ClosedFormIsSoftmax(e, main, extra, sink);
  }

  // ---------------------------------------------------------------- the closed form is a softmax

  /** A key that takes part: its score and its value coordinate. */
  datatype Key = Key(score: real, value: real)

  /** The keys the indices name, row by row of the cache; an index outside it names none. */
  ghost function Gathered(indices: seq<int>, rows: int, score: int -> real, value: int -> real): seq<Key> {
    if indices == [] then []
    else if indices[0] < 0 || rows <= indices[0] then Gathered(indices[1..], rows, score, value)
    else [Key(score(indices[0]), value(indices[0]))] + Gathered(indices[1..], rows, score, value)
  }

  ghost function Keys(seg: Segment): seq<Key> {
    Gathered(seg.indices, seg.rows, seg.score, seg.value)
  }

  ghost function ExpSum(e: real -> real, keys: seq<Key>): real {
    if keys == [] then 0.0 else e(keys[0].score) + ExpSum(e, keys[1..])
  }

  ghost function ValueSum(e: real -> real, keys: seq<Key>): real {
    if keys == [] then 0.0 else keys[0].value * e(keys[0].score) + ValueSum(e, keys[1..])
  }

  /** Softmax attention over a list of keys; without keys and sink it is zero. */
  ghost function Plain(e: real -> real, keys: seq<Key>, sink: Option<real>): real {
    var total := ExpSum(e, keys) + if sink.Some? then e(sink.value) else 0.0;
    if total == 0.0 then 0.0 else ValueSum(e, keys) / total
  }

  lemma {:induction false} SumsConcat(e: real -> real, a: seq<Key>, b: seq<Key>)
    ensures ExpSum(e, a + b) == ExpSum(e, a) + ExpSum(e, b)
    ensures ValueSum(e, a + b) == ValueSum(e, a) + ValueSum(e, b)
  {
    if a == [] {
      assert a + b == b;
    } else {
      assert (a + b)[1..] == a[1..] + b;
      SumsConcat(e, a[1..], b);
    }
  }

  lemma {:induction false} GatheredConcat(a: seq<int>, b: seq<int>, rows: int, score: int -> real, value: int -> real)
    ensures Gathered(a + b, rows, score, value) == Gathered(a, rows, score, value) + Gathered(b, rows, score, value)
  {
    if a == [] {
      assert a + b == b;
    } else {
      assert (a + b)[1..] == a[1..] + b;
      GatheredConcat(a[1..], b, rows, score, value);
    }
  }

  lemma GatheredOne(i: int, rows: int, score: int -> real, value: int -> real)
    ensures Gathered([i], rows, score, value) == if 0 <= i < rows then [Key(score(i), value(i))] else []
  {
    assert [i][1..] == [];
  }

  ghost function KeysTo(seg: Segment, n: nat): seq<Key>
    requires n <= |seg.indices|
  {
    Gathered(seg.indices[..n], seg.rows, seg.score, seg.value)
  }

  /** Slot n adds the key its index names. */
  lemma KeysSnoc(seg: Segment, n: nat)
    requires n < |seg.indices|
    ensures var i := seg.indices[n];
            KeysTo(seg, n + 1) ==
            KeysTo(seg, n) + if 0 <= i < seg.rows then [Key(seg.score(i), seg.value(i))] else []
  {
    assert seg.indices[..n + 1] == seg.indices[..n] + [seg.indices[n]];
    GatheredConcat(seg.indices[..n], [seg.indices[n]], seg.rows, seg.score, seg.value);
  }

  /** One slot's terms. */
  lemma TermIsKey(e: real -> real, seg: Segment, n: nat)
    requires n < |seg.indices|
    ensures var i := seg.indices[n];
            var key := if 0 <= i < seg.rows then [Key(seg.score(i), seg.value(i))] else [];
            Term(e, seg, ONE, n, 0.0) == ExpSum(e, key) && Term(e, seg, seg.value, n, 0.0) == ValueSum(e, key)
  {
    var i := seg.indices[n];
    assert seg.score(i) - 0.0 == seg.score(i);
  }

  /** The totals over slots are the totals over keys. */
  lemma {:induction false} TotalsAreKeys(e: real -> real, seg: Segment, n: nat)
    requires n <= |seg.indices|
    ensures Weights(e, seg, 0, n) == ExpSum(e, KeysTo(seg, n)) && Values(e, seg, 0, n) == ValueSum(e, KeysTo(seg, n))
  {
    if n > 0 {
      TotalsAreKeys(e, seg, n - 1);
      KeysSnoc(seg, n - 1);
      TermIsKey(e, seg, n - 1);
      var i := seg.indices[n - 1];
      SumsConcat(e, KeysTo(seg, n - 1), if 0 <= i < seg.rows then [Key(seg.score(i), seg.value(i))] else []);
    }
  }

  /** The closed form both kernels compute is the softmax over the keys that the indices of both segments name. */
  lemma ClosedFormIsSoftmax(e: real -> real, main: Segment, extra: Option<Segment>, sink: Option<real>)
    ensures ClosedForm(e, main, extra, sink) ==
            Plain(e, Keys(main) + if extra.Some? then Keys(extra.value) else [], sink)
  {
    TotalsAreKeys(e, main, |main.indices|);
    assert main.indices[..|main.indices|] == main.indices;
    if extra.Some? {
      TotalsAreKeys(e, extra.value, |extra.value.indices|);
      assert extra.value.indices[..|extra.value.indices|] == extra.value.indices;
    }
    SumsConcat(e, Keys(main), if extra.Some? then Keys(extra.value) else []);
  }

  /** One slot: its value, weighed down by the sink alone. */
  lemma OneSlot(e: real -> real, i: int, rows: int, score: int -> real, value: int -> real, sink: Option<real>)
    requires IsExp(e) && 0 <= i < rows
    ensures var out, w := ClosedForm(e, Segment([i], rows, score, value), None, sink), e(score(i));
            && w > 0.0
            && (sink.None? ==> out == value(i))
            && (sink.Some? ==> e(sink.value) > 0.0 && out == value(i) * w / (w + e(sink.value)))
  {
    var seg := Segment([i], rows, score, value);
    ClosedFormIsSoftmax(e, seg, None, sink);
    GatheredOne(i, rows, score, value);
    var key := Key(score(i), value(i));
    assert Keys(seg) + [] == [key];
    assert ExpSum(e, [key]) == e(key.score) + ExpSum(e, [key][1..]);
    assert ValueSum(e, [key]) == key.value * e(key.score) + ValueSum(e, [key][1..]);
    assert e(score(i)) > 0.0;
    if sink.None? {
      DivOfProduct(value(i), e(score(i)));
    } else {
      var s: real := sink.value;
      assert e(s) > 0.0;
    }
  }

  /** A slot whose index lies outside the cache changes nothing, wherever it stands. */
  lemma MaskedSlot(e: real -> real, a: seq<int>, i: int, b: seq<int>, rows: int, score: int -> real,
                   value: int -> real, extra: Option<Segment>, sink: Option<real>)
    requires i < 0 || rows <= i
    ensures ClosedForm(e, Segment(a + [i] + b, rows, score, value), extra, sink) ==
            ClosedForm(e, Segment(a + b, rows, score, value), extra, sink)
  {
    ClosedFormIsSoftmax(e, Segment(a + [i] + b, rows, score, value), extra, sink);
    ClosedFormIsSoftmax(e, Segment(a + b, rows, score, value), extra, sink);
    GatheredConcat(a + [i], b, rows, score, value);
    GatheredConcat(a, [i], rows, score, value);
    GatheredOne(i, rows, score, value);
    GatheredConcat(a, b, rows, score, value);
    assert Keys(Segment(a + [i] + b, rows, score, value)) == Keys(Segment(a + b, rows, score, value));
  }

  /** With every index outside its cache the result is zero, with or without a sink. */
  lemma AllMasked(e: real -> real, main: Segment, extra: Option<Segment>, sink: Option<real>)
    requires IsExp(e)
    requires forall k | 0 <= k < |main.indices| :: main.indices[k] < 0 || main.rows <= main.indices[k]
    requires extra.Some? ==> forall k | 0 <= k < |extra.value.indices| ::
      extra.value.indices[k] < 0 || extra.value.rows <= extra.value.indices[k]
    ensures ClosedForm(e, main, extra, sink) == 0.0
  {
    NoneValid(e, main, ONE, 0, |main.indices|, 0.0);
    NoneValid(e, main, main.value, 0, |main.indices|, 0.0);
    if extra.Some? {
      NoneValid(e, extra.value, ONE, 0, |extra.value.indices|, 0.0);
      NoneValid(e, extra.value, extra.value.value, 0, |extra.value.indices|, 0.0);
    }
  }
}
