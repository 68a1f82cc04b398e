/** The CPU mixture-of-experts forward (overlay/hybrid/cpu_moe.cpp).

    Tokens are grouped by expert, activations are permuted, row-block tasks
    write gated activations and expert outputs into scratch rows in any order,
    and a weighted sum over each token's valid slots closes the pass.
    Rows and columns come in blocks of 32 (row rb * 32 + r is row r of block rb). */
module CpuMoe {
  import opened Common
  import opened Mxfp4
  import opened Grouping

  /** 32 consecutive weight rows. */
  type Block = b: seq<Row> | |b| == 32 witness seq(32, _ => Row([], []))

  datatype Expert = Expert(w1: seq<Block>, w3: seq<Block>, w2: seq<Block>)

  /** hB = H / 32, iB = I / 32; lim is the clamp limit, off when not positive. */
  datatype Layer = Layer(experts: seq<Expert>, hB: nat, iB: nat, lim: real, silu: real -> real)

  ghost predicate BlocksOk(bs: seq<Block>, n: nat, k: nat) {
    |bs| == n && forall b, r | 0 <= b < n && 0 <= r < 32 :: RowOk(bs[b][r], k)
  }

  ghost predicate ExpertOk(l: Layer, x: Expert) {
    BlocksOk(x.w1, l.iB, l.hB) && BlocksOk(x.w3, l.iB, l.hB) && BlocksOk(x.w2, l.hB, l.iB)
  }

  ghost predicate LayerOk(l: Layer) {
    forall e | 0 <= e < |l.experts| :: ExpertOk(l, l.experts[e])
  }

  // ---------------------------------------------------------------- the plain definition

  function MinR(a: real, b: real): real {
    if a <= b then a else b
  }

  function MaxR(a: real, b: real): real {
    if a >= b then a else b
  }

  /** Clamped SwiGLU. */
  function Gate(l: Layer, g: real, u: real): real {
    var u' := if l.lim > 0.0 then MinR(MaxR(u, -l.lim), l.lim) else u;
    var g' := if l.lim > 0.0 then MinR(g, l.lim) else g;
    l.silu(g') * u'
  }

  /** Activation r of block rb of expert e on input x. */
  ghost function Act(l: Layer, e: nat, x: Vector, rb: nat, r: nat): real
    requires LayerOk(l) && e < |l.experts| && |x| == l.hB && rb < l.iB && r < 32
  {
    Gate(l, Dot(l.experts[e].w1[rb][r], x), Dot(l.experts[e].w3[rb][r], x))
  }

  ghost function ActBlock(l: Layer, e: nat, x: Vector, rb: nat): (a: Group)
    requires LayerOk(l) && e < |l.experts| && |x| == l.hB && rb < l.iB
    ensures forall r: nat | r < 32 :: a[r] == Act(l, e, x, rb, r)
  {
    seq(32, r requires 0 <= r < 32 => Act(l, e, x, rb, r))
  }

  ghost function Acts(l: Layer, e: nat, x: Vector): (a: Vector)
    requires LayerOk(l) && e < |l.experts| && |x| == l.hB
    ensures |a| == l.iB && forall rb: nat | rb < l.iB :: a[rb] == ActBlock(l, e, x, rb)
  {
    seq(l.iB, rb requires 0 <= rb < l.iB => ActBlock(l, e, x, rb))
  }

  /** Output r of block rb of expert e on input x. */
  ghost function ExpertOut(l: Layer, e: nat, x: Vector, rb: nat, r: nat): real
    requires LayerOk(l) && e < |l.experts| && |x| == l.hB && rb < l.hB && r < 32
  {
    Dot(l.experts[e].w2[rb][r], Acts(l, e, x))
  }

  // ---------------------------------------------------------------- the same, element by element

  /** Row j of a matrix held in blocks of 32 rows. */
  function RowAt(bs: seq<Block>, j: nat): Row
    requires j < 32 * |bs|
  {
    bs[j / 32][j % 32]
  }

  /** Hidden unit i: silu of the gate product, cut off above the limit, times the up product, cut off on both sides. */
  ghost function Hidden(l: Layer, e: nat, x: Vector, i: nat): real
    requires LayerOk(l) && e < |l.experts| && |x| == l.hB && i < 32 * l.iB
  {
    assert ExpertOk(l, l.experts[e]);
    var g := PlainDot(Entries(RowAt(l.experts[e].w1, i)), Flat(x));
    var u := PlainDot(Entries(RowAt(l.experts[e].w3, i)), Flat(x));
    Weighted(l.silu(if 0.0 < l.lim < g then l.lim else g), CutOff(u, l.lim))
  }

  /** u, kept within a positive limit on both sides. */
  function CutOff(u: real, lim: real): real {
    if 0.0 < lim < u then lim else if 0.0 < lim && u < -lim then -lim else u
  }

  lemma GateIsCut(l: Layer, g: real, u: real)
    ensures Gate(l, g, u) == Weighted(l.silu(if 0.0 < l.lim < g then l.lim else g), CutOff(u, l.lim))
  {
  }

  ghost function HiddenUnits(l: Layer, e: nat, x: Vector): (h: seq<real>)
    requires LayerOk(l) && e < |l.experts| && |x| == l.hB
    ensures |h| == 32 * l.iB
  {
    seq(32 * l.iB, i requires 0 <= i < 32 * l.iB => Hidden(l, e, x, i))
  }

  /** Output j of expert e. */
  ghost function DenseExpert(l: Layer, e: nat, x: Vector, j: nat): real
    requires LayerOk(l) && e < |l.experts| && |x| == l.hB && j < 32 * l.hB
  {
    assert ExpertOk(l, l.experts[e]);
    PlainDot(Entries(RowAt(l.experts[e].w2, j)), HiddenUnits(l, e, x))
  }

  /** Output j of the layer for one token: its first n slots, weighted; an id that names no expert adds nothing. */
  ghost function DenseOut(l: Layer, x: Vector, ids: seq<int>, wts: seq<real>, j: nat, n: nat): real
    requires LayerOk(l) && |x| == l.hB && j < 32 * l.hB && n <= |ids| == |wts|
  {
    if n == 0 then 0.0 else DenseOut(l, x, ids, wts, j, n - 1) + DenseTerm(l, x, ids[n - 1], wts[n - 1], j)
  }

  ghost function DenseTerm(l: Layer, x: Vector, id: int, w: real, j: nat): real
    requires LayerOk(l) && |x| == l.hB && j < 32 * l.hB
  {
    if 0 <= id < |l.experts| then Weighted(w, DenseExpert(l, id, x, j)) else 0.0
  }

  function Weighted(w: real, y: real): real {
    w * y
  }

  lemma ActIsHidden(l: Layer, e: nat, x: Vector, i: nat)
    requires LayerOk(l) && e < |l.experts| && |x| == l.hB && i < 32 * l.iB
    ensures Act(l, e, x, i / 32, i % 32) == Hidden(l, e, x, i)
  {
    assert ExpertOk(l, l.experts[e]);
    DotIsPlain(RowAt(l.experts[e].w1, i), x);
    DotIsPlain(RowAt(l.experts[e].w3, i), x);
    GateIsCut(l, Dot(RowAt(l.experts[e].w1, i), x), Dot(RowAt(l.experts[e].w3, i), x));
  }

  lemma ActsAreHidden(l: Layer, e: nat, x: Vector)
    requires LayerOk(l) && e < |l.experts| && |x| == l.hB
    ensures Flat(Acts(l, e, x)) == HiddenUnits(l, e, x)
  {
    var acts := Acts(l, e, x);
    forall i: nat | i < 32 * l.iB
      ensures Flat(acts)[i] == HiddenUnits(l, e, x)[i]
    {
      assert acts[i / 32] == ActBlock(l, e, x, i / 32);
      ActIsHidden(l, e, x, i);
    }
  }

  /** The blocked definition of an expert's output is the dense one. */
  lemma ExpertIsDense(l: Layer, e: nat, x: Vector, j: nat)
    requires LayerOk(l) && e < |l.experts| && |x| == l.hB && j < 32 * l.hB
    ensures ExpertOut(l, e, x, j / 32, j % 32) == DenseExpert(l, e, x, j)
  {
    assert ExpertOk(l, l.experts[e]);
    DotIsPlain(RowAt(l.experts[e].w2, j), Acts(l, e, x));
    ActsAreHidden(l, e, x);
  }

  lemma TermIsDense(l: Layer, x: Vector, id: int, w: real, j: nat)
    requires LayerOk(l) && |x| == l.hB && j < 32 * l.hB
    ensures SlotTerm(l, x, id, w, j / 32, j % 32) == DenseTerm(l, x, id, w, j)
  {
    if 0 <= id < |l.experts| {
      ExpertIsDense(l, id, x, j);
    }
  }

  lemma DenseStep(l: Layer, x: Vector, ids: seq<int>, wts: seq<real>, j: nat, n: nat)
    requires LayerOk(l) && |x| == l.hB && j < 32 * l.hB && n < |ids| == |wts|
    ensures DenseOut(l, x, ids, wts, j, n + 1) == DenseOut(l, x, ids, wts, j, n) + DenseTerm(l, x, ids[n], wts[n], j)
  {
  }

  lemma RowOutIsDense(l: Layer, x: Vector, ids: seq<int>, wts: seq<real>, j: nat, n: nat)
    requires LayerOk(l) && |x| == l.hB && j < 32 * l.hB && n <= |ids| == |wts|
    ensures RowOut(l, x, ids, wts, j / 32, j % 32, n) == DenseOut(l, x, ids, wts, j, n)
  {
    for i := 0 to n
      invariant RowOut(l, x, ids, wts, j / 32, j % 32, i) == DenseOut(l, x, ids, wts, j, i)
    {
      RowOutStep(l, x, ids, wts, j / 32, j % 32, i);
      DenseStep(l, x, ids, wts, j, i);
      TermIsDense(l, x, ids[i], wts[i], j);
    }
  }

  /** An unlimited gate that is always c leaves c times the up product, whatever the gate weights are. */
  lemma ConstantGate(l: Layer, e: nat, x: Vector, rb: nat, r: nat, c: real)
    requires LayerOk(l) && e < |l.experts| && |x| == l.hB && rb < l.iB && r < 32
    requires l.lim <= 0.0 && forall z :: l.silu(z) == c
    ensures RowOk(l.experts[e].w3[rb][r], |x|) && Act(l, e, x, rb, r) == c * Dot(l.experts[e].w3[rb][r], x)
  {
    assert ExpertOk(l, l.experts[e]);
  }

  /** An up product of 1 within the limit leaves silu of the gate product, cut off at the limit. */
  lemma UnitUp(l: Layer, e: nat, x: Vector, rb: nat, r: nat, g: real)
    requires LayerOk(l) && e < |l.experts| && |x| == l.hB && rb < l.iB && r < 32
    requires |l.experts[e].w1| == |l.experts[e].w3| == l.iB
    requires RowOk(l.experts[e].w1[rb][r], |x|) && g == Dot(l.experts[e].w1[rb][r], x)
    requires RowOk(l.experts[e].w3[rb][r], |x|) && Dot(l.experts[e].w3[rb][r], x) == 1.0
    requires l.lim <= 0.0 || l.lim >= 1.0
    ensures Act(l, e, x, rb, r) == l.silu(if 0.0 < l.lim < g then l.lim else g)
  {
  }

  /** b is u times c, element by element. */
  ghost predicate IsScaled(b: seq<real>, u: seq<real>, c: real) {
    |b| == |u| && forall i | 0 <= i < |b| :: b[i] == Weighted(c, u[i])
  }

  lemma PlainDotScales(a: seq<real>, b: seq<real>, u: seq<real>, c: real)
    requires |a| == |b| && IsScaled(b, u, c)
    ensures PlainDot(a, b) == Weighted(c, PlainDot(a, u))
  {
    var t, s := Products(a, u), Products(a, b);
    forall i | 0 <= i < |a|
      ensures s[i] == c * t[i]
    {
      Swap(a[i], c, u[i]);
    }
    SumScale(t, s, c, |a|);
  }

  lemma Swap(a: real, c: real, u: real)
    ensures a * (c * u) == c * (a * u)
  {
  }

  /** The up products of expert e. */
  ghost function Ups(l: Layer, e: nat, x: Vector): (u: seq<real>)
    requires LayerOk(l) && e < |l.experts| && |x| == l.hB
    ensures |u| == 32 * l.iB
  {
    assert ExpertOk(l, l.experts[e]);
    seq(32 * l.iB, i requires 0 <= i < 32 * l.iB => PlainDot(Entries(RowAt(l.experts[e].w3, i)), Flat(x)))
  }

  lemma LinearHidden(l: Layer, e: nat, x: Vector, c: real)
    requires LayerOk(l) && e < |l.experts| && |x| == l.hB
    requires l.lim <= 0.0 && forall z :: l.silu(z) == c
    ensures IsScaled(HiddenUnits(l, e, x), Ups(l, e, x), c)
  {
  }

  /** The same carried to an output: with an unlimited gate that is always c an expert is c times the product of its
      down and up matrices. */
  lemma LinearExpert(l: Layer, e: nat, x: Vector, j: nat, c: real)
    requires LayerOk(l) && e < |l.experts| && |x| == l.hB && j < 32 * l.hB
    requires l.lim <= 0.0 && forall z :: l.silu(z) == c
    requires |l.experts[e].w2| == l.hB && RowOk(RowAt(l.experts[e].w2, j), l.iB)
    ensures ExpertOut(l, e, x, j / 32, j % 32) ==
            Weighted(c, PlainDot(Entries(RowAt(l.experts[e].w2, j)), Ups(l, e, x)))
  {
    ExpertIsDense(l, e, x, j);
    LinearHidden(l, e, x, c);
    PlainDotScales(Entries(RowAt(l.experts[e].w2, j)), HiddenUnits(l, e, x), Ups(l, e, x), c);
  }

  // ---------------------------------------------------------------- scratch state

  /** A forward call: inputs, flat expert ids and weights, slots per token. */
  datatype Call = Call(l: Layer, x: seq<Vector>, ids: seq<int>, wts: seq<real>, k: nat)

  ghost predicate CallOk(c: Call) {
    && LayerOk(c.l)
    && |c.ids| == |c.wts| == |c.x| * c.k
    && forall t | 0 <= t < |c.x| :: |c.x[t]| == c.l.hB
  }

  lemma TokenInRange(c: Call, i: nat)
    requires CallOk(c) && i < |c.ids|
    ensures c.k > 0 && i / c.k < |c.x|
  {
    assert i < |c.x| * c.k;
    var t := i / c.k;
    assert t * c.k <= i;
    assert |c.x| <= t ==> |c.x| * c.k <= t * c.k;
  }

  /** The token slot i belongs to. */
  ghost function TokenOf(c: Call, i: nat): Vector
    requires CallOk(c) && i < |c.ids|
    ensures |TokenOf(c, i)| == c.l.hB
  {
    TokenInRange(c, i);
    c.x[i / c.k]
  }

  predicate Live(c: Call, i: nat) {
    i < |c.ids| && IsExpert(c.ids[i], |c.l.experts|)
  }

  /** Scratch has room for n rows, each of the given number of blocks. */
  ghost predicate Shape(rows: seq<Vector>, n: nat, blocks: nat) {
    |rows| >= n && forall i | 0 <= i < |rows| :: |rows[i]| == blocks
  }

  /** The two task phases: gate/up fills the permuted intermediate, down the expert outputs. */
  datatype Phase = GateUpPhase | DownPhase

  ghost function Blocks(c: Call, ph: Phase): nat {
    if ph.GateUpPhase? then c.l.iB else c.l.hB
  }

  /** What row r of block rb yields for live slot i. */
  ghost function SlotVal(c: Call, ph: Phase, i: nat, rb: nat, r: nat): real
    requires CallOk(c) && Live(c, i) && rb < Blocks(c, ph) && r < 32
  {
    match ph
    case GateUpPhase => Act(c.l, c.ids[i], TokenOf(c, i), rb, r)
    case DownPhase => ExpertOut(c.l, c.ids[i], TokenOf(c, i), rb, r)
  }

  /** Where in its block row r is stored. */
  function PosOf(ph: Phase, r: nat): (p: nat)
    requires r < 32
    ensures p < 32
  {
    if ph.GateUpPhase? then PermPos(r) else r
  }

  lemma PosInjective(ph: Phase, r: nat, q: nat)
    requires r < 32 && q < 32 && r != q
    ensures PosOf(ph, r) != PosOf(ph, q)
  {
    if PermPos(r) == PermPos(q) {
      PermPosInjective(r, q);
    }
  }

  function SetLane(v: Vector, rb: nat, pos: nat, val: real): (u: Vector)
    requires rb < |v| && pos < 32
    ensures |u| == |v|
  {
    var grp: seq<real> := v[rb];
    v[rb := grp[pos := val]]
  }

  // ---------------------------------------------------------------- what a task does to the scratch rows

  /** Slot i's scratch row after the first n rows of block rb. */
  ghost function RowsOf(c: Call, ph: Phase, v: Vector, i: nat, rb: nat, n: nat): (u: Vector)
    requires CallOk(c) && Live(c, i) && rb < Blocks(c, ph) && n <= 32 && |v| == Blocks(c, ph)
    ensures |u| == |v|
  {
    if n == 0 then v else SetLane(RowsOf(c, ph, v, i, rb, n - 1), rb, PosOf(ph, n - 1), SlotVal(c, ph, i, rb, n - 1))
  }

  /** Each row stands in its position of block rb, other blocks are untouched. */
  lemma {:induction false} RowsDone(c: Call, ph: Phase, v: Vector, i: nat, rb: nat, n: nat)
    requires CallOk(c) && Live(c, i) && rb < Blocks(c, ph) && n <= 32 && |v| == Blocks(c, ph)
    ensures forall r: nat | r < n :: RowsOf(c, ph, v, i, rb, n)[rb][PosOf(ph, r)] == SlotVal(c, ph, i, rb, r)
    ensures forall b | 0 <= b < |v| && b != rb :: RowsOf(c, ph, v, i, rb, n)[b] == v[b]
  {
    if n > 0 {
      RowsDone(c, ph, v, i, rb, n - 1);
      forall r: nat | r < n - 1
        ensures PosOf(ph, r) != PosOf(ph, n - 1)
      {
        PosInjective(ph, r, n - 1);
      }
    }
  }

  /** Every slot of expert e has the first n rows of block rb; the others keep their scratch rows. */
  ghost predicate RowsWritten(c: Call, ph: Phase, e: nat, rb: nat, n: nat, before: seq<Vector>, after: seq<Vector>)
    requires CallOk(c) && e < |c.l.experts| && rb < Blocks(c, ph) && n <= 32
  {
    && Shape(before, |c.ids|, Blocks(c, ph)) && |after| == |before|
    && (forall i: nat | |c.ids| <= i < |after| :: after[i] == before[i])
    && forall i: nat | i < |c.ids| ::
      after[i] == if c.ids[i] == e then RowsOf(c, ph, before[i], i, rb, n) else before[i]
  }

  /** As RowsWritten(n), with row n already done for the slots placed before q. */
  ghost predicate RowPartly(c: Call, ph: Phase, e: nat, rb: nat, n: nat, q: int, before: seq<Vector>,
                            after: seq<Vector>)
    requires CallOk(c) && e < |c.l.experts| && rb < Blocks(c, ph) && n < 32
  {
    && Shape(before, |c.ids|, Blocks(c, ph)) && |after| == |before|
    && (forall i: nat | |c.ids| <= i < |after| :: after[i] == before[i])
    && forall i: nat | i < |c.ids| :: after[i] == RowPartlyAt(c, ph, e, rb, n, q, before[i], i)
  }

  ghost function RowPartlyAt(c: Call, ph: Phase, e: nat, rb: nat, n: nat, q: int, v: Vector, i: nat): Vector
    requires CallOk(c) && e < |c.l.experts| && rb < Blocks(c, ph) && n < 32 && i < |c.ids| && |v| == Blocks(c, ph)
  {
    if c.ids[i] != e then v
    else if Place(c.ids, i) < q then RowsOf(c, ph, v, i, rb, n + 1)
    else RowsOf(c, ph, v, i, rb, n)
  }

  lemma PartlyStart(c: Call, ph: Phase, e: nat, rb: nat, n: nat, before: seq<Vector>, after: seq<Vector>)
    requires CallOk(c) && e < |c.l.experts| && rb < Blocks(c, ph) && n < 32
    requires RowsWritten(c, ph, e, rb, n, before, after)
    ensures RowPartly(c, ph, e, rb, n, Start(c.ids, e), before, after)
  {
    forall i: nat | i < |c.ids| && c.ids[i] == e
      ensures Start(c.ids, e) <= Place(c.ids, i)
    {
      PlaceInRange(c.ids, i);
    }
  }

  lemma PartlyEnd(c: Call, ph: Phase, e: nat, rb: nat, n: nat, before: seq<Vector>, after: seq<Vector>)
    requires CallOk(c) && e < |c.l.experts| && rb < Blocks(c, ph) && n < 32
    requires RowPartly(c, ph, e, rb, n, Start(c.ids, e + 1), before, after)
    ensures RowsWritten(c, ph, e, rb, n + 1, before, after)
  {
    forall i: nat | i < |c.ids| && c.ids[i] == e
      ensures Place(c.ids, i) < Start(c.ids, e + 1)
    {
      PlaceInRange(c.ids, i);
    }
  }

  lemma PartlyStep(c: Call, ph: Phase, e: nat, rb: nat, n: nat, i: nat, before: seq<Vector>, after: seq<Vector>)
    requires CallOk(c) && e < |c.l.experts| && rb < Blocks(c, ph) && n < 32 && i < |c.ids| && c.ids[i] == e
    requires RowPartly(c, ph, e, rb, n, Place(c.ids, i), before, after)
    ensures |after[i]| == Blocks(c, ph)
    ensures RowPartly(c, ph, e, rb, n, Place(c.ids, i) + 1, before,
                      after[i := SetLane(after[i], rb, PosOf(ph, n), SlotVal(c, ph, i, rb, n))])
  {
    var q := Place(c.ids, i);
    var after' := after[i := SetLane(after[i], rb, PosOf(ph, n), SlotVal(c, ph, i, rb, n))];
    forall j: nat | j < |c.ids|
      ensures after'[j] == RowPartlyAt(c, ph, e, rb, n, q + 1, before[j], j)
    {
      assert after[j] == RowPartlyAt(c, ph, e, rb, n, q, before[j], j);
      if j != i {
        OtherSlot(c, ph, e, rb, n, before[j], i, j);
      }
    }
  }

  lemma OtherSlot(c: Call, ph: Phase, e: nat, rb: nat, n: nat, v: Vector, i: nat, j: nat)
    requires CallOk(c) && e < |c.l.experts| && rb < Blocks(c, ph) && n < 32 && i < |c.ids| && j < |c.ids| && i != j
    requires c.ids[i] == e && |v| == Blocks(c, ph)
    ensures RowPartlyAt(c, ph, e, rb, n, Place(c.ids, i) + 1, v, j)
      == RowPartlyAt(c, ph, e, rb, n, Place(c.ids, i), v, j)
  {
    if c.ids[j] == e {
      PlaceInjective(c.ids, j, i);
    }
  }

  /** A row is dequantised into the thread's scratch when it serves more than one slot. */
  method MaybeDequant(single: bool, row: Row, tmp: array<Group>, at: nat) returns (fits: bool)
    requires |row.w| == |row.s| && at <= tmp.Length
    modifies tmp
    ensures fits <==> single || at + |row.w| <= tmp.Length
    ensures fits && !single ==> IsDequant(row, tmp[at..at + |row.w|])
    ensures forall i | 0 <= i < at :: tmp[i] == old(tmp[i])
  {
    fits := true;
    if !single {
      fits := DequantRow(row, tmp, at);
    }
  }

  /** Storing one value moves the partly done row on by one slot. */
  method StoreLane(c: Call, ph: Phase, e: nat, rb: nat, r: nat, i: nat, val: real, rows: array<Vector>,
                   ghost before: seq<Vector>)
    requires CallOk(c) && e < |c.l.experts| && rb < Blocks(c, ph) && r < 32 && i < |c.ids| && c.ids[i] == e
    requires RowPartly(c, ph, e, rb, r, Place(c.ids, i), before, rows[..]) && val == SlotVal(c, ph, i, rb, r)
    modifies rows
    ensures RowPartly(c, ph, e, rb, r, Place(c.ids, i) + 1, before, rows[..])
  {
    PartlyStep(c, ph, e, rb, r, i, before, rows[..]);
    ghost var now := rows[..];
    rows[i] := SetLane(rows[i], rb, PosOf(ph, r), val);
    assert rows[..] == now[i := SetLane(now[i], rb, PosOf(ph, r), val)];
  }

  // ---------------------------------------------------------------- gate/up

  /** The gated activation of one row, from its two dot products. */
  method GateUp(l: Layer, g: real, u: real) returns (v: real)
    ensures v == Gate(l, g, u)
  {
    var g', u' := g, u;
    if l.lim > 0.0 {
      u' := MinR(MaxR(u', -l.lim), l.lim);
      g' := MinR(g', l.lim);
    }
    v := l.silu(g') * u';
  }

  function Gap(x: real, y: real): real {
    if x >= y then x - y else y - x
  }

  /** x is the point nearest to y of those from lo to hi; no lo is no lower end. */
  ghost predicate IsNearest(x: real, y: real, lo: Option<real>, hi: real) {
    && (lo.Some? ==> lo.value <= x) && x <= hi
    && forall z: real :: (lo.Some? ==> lo.value <= z) && z <= hi ==> Gap(y, x) <= Gap(y, z)
  }

  /** With a limit the gate enters as its nearest value up to the limit and the up part as its nearest value within
      it on both sides; without one both enter as they are. */
  lemma GateClamps(l: Layer, g: real, u: real) returns (gc: real, uc: real)
    ensures Gate(l, g, u) == l.silu(gc) * uc
    ensures l.lim > 0.0 ==> IsNearest(uc, u, Some(-l.lim), l.lim) && IsNearest(gc, g, None, l.lim)
    ensures l.lim <= 0.0 ==> gc == g && uc == u
  {
    uc := if l.lim > 0.0 then MinR(MaxR(u, -l.lim), l.lim) else u;
    gc := if l.lim > 0.0 then MinR(g, l.lim) else g;
  }

  /** The two rows of gate and up, one behind the other: they always fit the scratch. */
  method DequantPair(single: bool, w1: Row, w3: Row, tmp: array<Group>) returns (dg: Vector, du: Vector)
    requires |w1.w| == |w1.s| == |w3.w| == |w3.s| && tmp.Length == 2 * |w1.w|
    modifies tmp
    ensures !single ==> IsDequant(w1, dg) && IsDequant(w3, du)
  {
    var n := |w1.w|;
    var inside := MaybeDequant(single, w1, tmp, 0);
    ghost var first := tmp[..n];
    inside := MaybeDequant(single, w3, tmp, n);
    assert tmp[0..n] == first;
    dg, du := tmp[..n], tmp[n..n + n];
    assert tmp[0..n] == dg;
  }

  ghost predicate Permutes(x: seq<Vector>, xp: seq<Vector>) {
    |x| == |xp| && forall t | 0 <= t < |x| :: IsPermuted(x[t], xp[t])
  }

  /** One row of a gate/up task, for one slot: packed when the expert has a single slot, else dequantised. */
  method GateUpSlot(c: Call, e: nat, rb: nat, r: nat, single: bool, dg: Vector, du: Vector, i: nat, xp: seq<Vector>)
    returns (v: real)
    requires CallOk(c) && rb < c.l.iB && r < 32 && Live(c, i) && c.ids[i] == e && Permutes(c.x, xp)
    requires !single ==> IsDequant(c.l.experts[e].w1[rb][r], dg) && IsDequant(c.l.experts[e].w3[rb][r], du)
    ensures v == SlotVal(c, GateUpPhase, i, rb, r)
  {
    TokenInRange(c, i);
    var t := i / c.k;
    var w1, w3 := c.l.experts[e].w1[rb][r], c.l.experts[e].w3[rb][r];
    assert ExpertOk(c.l, c.l.experts[e]);
    var g, u;
    if single {
      g := DotRow(w1, xp[t], c.x[t]);
      u := DotRow(w3, xp[t], c.x[t]);
    } else {
      g := DotF32(dg, xp[t], w1, c.x[t]);
      u := DotF32(du, xp[t], w3, c.x[t]);
    }
    v := GateUp(c.l, g, u);
  }

  /** One weight row of a gate/up task, over the slots of expert e. */
  method GateUpRow(c: Call, e: nat, rb: nat, r: nat, eStart: seq<int>, tok: seq<int>, xp: seq<Vector>,
                   hp: array<Vector>, tmp: array<Group>, ghost before: seq<Vector>)
    requires CallOk(c) && e < |c.l.experts| && rb < c.l.iB && r < 32 && tmp.Length == 2 * c.l.hB
    requires Grouped(c.ids, |c.l.experts|, eStart, tok) && Permutes(c.x, xp)
    requires RowsWritten(c, GateUpPhase, e, rb, r, before, hp[..])
    modifies hp, tmp
    ensures RowsWritten(c, GateUpPhase, e, rb, r + 1, before, hp[..])
  {
    var t0, t1 := eStart[e], eStart[e + 1];
    assert t0 == Start(c.ids, e) && t1 == Start(c.ids, e + 1);
    var single := t1 - t0 == 1;
    assert ExpertOk(c.l, c.l.experts[e]);
    var dg, du := DequantPair(single, c.l.experts[e].w1[rb][r], c.l.experts[e].w3[rb][r], tmp);
    PartlyStart(c, GateUpPhase, e, rb, r, before, hp[..]);
    for q := t0 to t1
      invariant RowPartly(c, GateUpPhase, e, rb, r, q, before, hp[..])
    {
      RangeHoldsExpert(c.ids, |c.l.experts|, eStart, tok, e, q);
      var i := tok[q];
      var v := GateUpSlot(c, e, rb, r, single, dg, du, i, xp);
      StoreLane(c, GateUpPhase, e, rb, r, i, v, hp, before);
    }
    PartlyEnd(c, GateUpPhase, e, rb, r, before, hp[..]);
  }

  /** gateup_task for block rb of expert e. */
  method GateUpTask(c: Call, e: nat, rb: nat, eStart: seq<int>, tok: seq<int>, xp: seq<Vector>, hp: array<Vector>,
                    tmp: array<Group>)
    requires CallOk(c) && e < |c.l.experts| && rb < c.l.iB && tmp.Length == 2 * c.l.hB
    requires Grouped(c.ids, |c.l.experts|, eStart, tok) && Permutes(c.x, xp)
    requires Shape(hp[..], |c.ids|, c.l.iB)
    modifies hp, tmp
    ensures RowsWritten(c, GateUpPhase, e, rb, 32, old(hp[..]), hp[..])
  {
    for r := 0 to 32
      invariant RowsWritten(c, GateUpPhase, e, rb, r, old(hp[..]), hp[..])
    {
      GateUpRow(c, e, rb, r, eStart, tok, xp, hp, tmp, old(hp[..]));
    }
  }

  // ---------------------------------------------------------------- down

  /** Every live slot's intermediate is complete, in permuted order. */
  ghost predicate ActsReady(c: Call, hp: seq<Vector>)
    requires CallOk(c)
  {
    |hp| >= |c.ids| && forall i: nat | Live(c, i) :: IsPermuted(Acts(c.l, c.ids[i], TokenOf(c, i)), hp[i])
  }

  /** The scratch holds 2 * H floats; a down row of I floats is dequantised there unless the expert has one slot. */
  ghost predicate TaskFits(c: Call, e: nat) {
    Count(c.ids, |c.ids|, e) == 1 || c.l.iB <= 2 * c.l.hB
  }

  method DownSlot(c: Call, e: nat, rb: nat, r: nat, single: bool, dr: Vector, i: nat, hp: seq<Vector>) returns (v: real)
    requires CallOk(c) && rb < c.l.hB && r < 32 && Live(c, i) && c.ids[i] == e && ActsReady(c, hp)
    requires !single ==> IsDequant(c.l.experts[e].w2[rb][r], dr)
    ensures v == SlotVal(c, DownPhase, i, rb, r)
  {
    var w2 := c.l.experts[e].w2[rb][r];
    assert ExpertOk(c.l, c.l.experts[e]);
    ghost var acts := Acts(c.l, e, TokenOf(c, i));
    if single {
      v := DotRow(w2, hp[i], acts);
    } else {
      v := DotF32(dr, hp[i], w2, acts);
    }
  }

  /** One weight row of a down task, over the slots of expert e. */
  method DownRow(c: Call, e: nat, rb: nat, r: nat, eStart: seq<int>, tok: seq<int>, hp: seq<Vector>, yp: array<Vector>,
                 tmp: array<Group>, ghost before: seq<Vector>) returns (fits: bool)
    requires CallOk(c) && e < |c.l.experts| && rb < c.l.hB && r < 32 && tmp.Length == 2 * c.l.hB
    requires Grouped(c.ids, |c.l.experts|, eStart, tok) && ActsReady(c, hp)
    requires RowsWritten(c, DownPhase, e, rb, r, before, yp[..])
    modifies yp, tmp
    ensures fits <==> TaskFits(c, e)
    ensures fits ==> RowsWritten(c, DownPhase, e, rb, r + 1, before, yp[..])
  {
    var t0, t1 := eStart[e], eStart[e + 1];
    assert t0 == Start(c.ids, e) && t1 == Start(c.ids, e + 1);
    var single := t1 - t0 == 1;
    assert ExpertOk(c.l, c.l.experts[e]);
    fits := MaybeDequant(single, c.l.experts[e].w2[rb][r], tmp, 0);
    if !fits {
      return;
    }
    DownSlots(c, e, rb, r, eStart, tok, single, if single then [] else tmp[0..c.l.iB], hp, yp, before);
  }

  /** The slot at place q. */
  method DownAt(c: Call, e: nat, rb: nat, r: nat, eStart: seq<int>, tok: seq<int>, q: nat, single: bool, dr: Vector,
                hp: seq<Vector>, yp: array<Vector>, ghost before: seq<Vector>)
    requires CallOk(c) && e < |c.l.experts| && rb < c.l.hB && r < 32
    requires Grouped(c.ids, |c.l.experts|, eStart, tok) && ActsReady(c, hp) && eStart[e] <= q < eStart[e + 1]
    requires RowPartly(c, DownPhase, e, rb, r, q, before, yp[..])
    requires |c.l.experts[e].w2| == c.l.hB && (!single ==> IsDequant(c.l.experts[e].w2[rb][r], dr))
    modifies yp
    ensures RowPartly(c, DownPhase, e, rb, r, q + 1, before, yp[..])
  {
    RangeHoldsExpert(c.ids, |c.l.experts|, eStart, tok, e, q);
    var i := tok[q];
    var v := DownSlot(c, e, rb, r, single, dr, i, hp);
    StoreLane(c, DownPhase, e, rb, r, i, v, yp, before);
  }

  /** The loop over the expert's slots. */
  method DownSlots(c: Call, e: nat, rb: nat, r: nat, eStart: seq<int>, tok: seq<int>, single: bool, dr: Vector,
                   hp: seq<Vector>, yp: array<Vector>, ghost before: seq<Vector>)
    requires CallOk(c) && e < |c.l.experts| && rb < c.l.hB && r < 32
    requires Grouped(c.ids, |c.l.experts|, eStart, tok) && ActsReady(c, hp)
    requires RowsWritten(c, DownPhase, e, rb, r, before, yp[..])
    requires |c.l.experts[e].w2| == c.l.hB && (!single ==> IsDequant(c.l.experts[e].w2[rb][r], dr))
    modifies yp
    ensures RowsWritten(c, DownPhase, e, rb, r + 1, before, yp[..])
  {
    var t0, t1 := eStart[e], eStart[e + 1];
    assert t0 == Start(c.ids, e) && t1 == Start(c.ids, e + 1);
    PartlyStart(c, DownPhase, e, rb, r, before, yp[..]);
    for q := t0 to t1
      invariant RowPartly(c, DownPhase, e, rb, r, q, before, yp[..])
    {
      DownAt(c, e, rb, r, eStart, tok, q, single, dr, hp, yp, before);
    }
    PartlyEnd(c, DownPhase, e, rb, r, before, yp[..]);
  }

  /** down_task for block rb of expert e. */
  method DownTask(c: Call, e: nat, rb: nat, eStart: seq<int>, tok: seq<int>, hp: seq<Vector>, yp: array<Vector>,
                  tmp: array<Group>) returns (fits: bool)
    requires CallOk(c) && e < |c.l.experts| && rb < c.l.hB && tmp.Length == 2 * c.l.hB
    requires Grouped(c.ids, |c.l.experts|, eStart, tok) && ActsReady(c, hp)
    requires Shape(yp[..], |c.ids|, c.l.hB)
    modifies yp, tmp
    ensures fits <==> TaskFits(c, e)
    ensures fits ==> RowsWritten(c, DownPhase, e, rb, 32, old(yp[..]), yp[..])
  {
    fits := true;
    for r := 0 to 32
      invariant fits && (r > 0 ==> TaskFits(c, e))
      invariant RowsWritten(c, DownPhase, e, rb, r, old(yp[..]), yp[..])
    {
      fits := DownRow(c, e, rb, r, eStart, tok, hp, yp, tmp, old(yp[..]));
      if !fits {
        return;
      }
    }
  }

  // ---------------------------------------------------------------- all tasks, in any order

  /** Block rb of slot i is complete. */
  ghost predicate BlockReady(c: Call, ph: Phase, rows: seq<Vector>, i: nat, rb: nat)
    requires CallOk(c) && Live(c, i) && Shape(rows, |c.ids|, Blocks(c, ph)) && rb < Blocks(c, ph)
  {
    forall r: nat | r < 32 :: rows[i][rb][PosOf(ph, r)] == SlotVal(c, ph, i, rb, r)
  }

  /** A task completes its own blocks and undoes no other. */
  lemma TaskEffect(c: Call, ph: Phase, e: nat, rb: nat, before: seq<Vector>, after: seq<Vector>, i: nat, b: nat)
    requires CallOk(c) && e < |c.l.experts| && rb < Blocks(c, ph) && RowsWritten(c, ph, e, rb, 32, before, after)
    requires Live(c, i) && b < Blocks(c, ph)
    ensures Shape(after, |c.ids|, Blocks(c, ph))
    ensures (c.ids[i] == e && b == rb) || BlockReady(c, ph, before, i, b) ==> BlockReady(c, ph, after, i, b)
  {
    assert forall j: nat | j < |after| :: |after[j]| == Blocks(c, ph);
    if c.ids[i] == e {
      RowsDone(c, ph, before[i], i, rb, 32);
    }
  }

  /** A task's expert and row block. */
  datatype Work = Work(e: nat, rb: nat)

  lemma TaskIndex(n: nat, nb: nat, task: nat)
    requires task < n * nb
    ensures nb > 0 && task / nb < n && task % nb < nb
  {
    assert nb > 0;
    var a := task / nb;
    assert a * nb <= task;
    assert n <= a ==> n * nb <= a * nb;
  }

  /** The work of task t: block t % nb of expert active[t / nb]. */
  function WorkOf(active: seq<nat>, nb: nat, task: nat): (w: Work)
    requires task < |active| * nb
    ensures w.e in active && w.rb < nb
  {
    TaskIndex(|active|, nb, task);
    Work(active[task / nb], task % nb)
  }

  ghost function AllWork(active: seq<nat>, nb: nat): (ws: seq<Work>)
    ensures |ws| == |active| * nb && forall t: nat | t < |ws| :: ws[t] == WorkOf(active, nb, t)
  {
    seq(|active| * nb, t requires 0 <= t < |active| * nb => WorkOf(active, nb, t))
  }

  lemma Division(nb: nat, a: nat, rb: nat)
    requires rb < nb
    ensures (a * nb + rb) / nb == a && (a * nb + rb) % nb == rb
  {
    var t := a * nb + rb;
    var d := t / nb - a;
    assert t == nb * (t / nb) + t % nb;
    assert d * nb == rb - t % nb;
    assert d >= 1 ==> d * nb >= nb;
    assert d <= -1 ==> d * nb <= 0 - nb;
  }

  /** The task numbers cover every block of every active expert. */
  lemma WorkCovers(active: seq<nat>, nb: nat, e: nat, rb: nat)
    requires e in active && rb < nb
    ensures Work(e, rb) in AllWork(active, nb)
  {
    var a: nat :| a < |active| && active[a] == e;
    var t := a * nb + rb;
    Division(nb, a, rb);
    assert (a + 1) * nb <= |active| * nb;
    assert AllWork(active, nb)[t] == Work(e, rb);
  }

  ghost predicate WorkOk(c: Call, ph: Phase, ws: seq<Work>) {
    forall t | 0 <= t < |ws| :: ws[t].e < |c.l.experts| && ws[t].rb < Blocks(c, ph)
  }

  /** Every slot of the work's expert has the work's block complete. */
  ghost predicate WorkDone(c: Call, ph: Phase, rows: seq<Vector>, w: Work)
    requires CallOk(c) && Shape(rows, |c.ids|, Blocks(c, ph)) && w.rb < Blocks(c, ph)
  {
    forall i: nat | Live(c, i) && c.ids[i] == w.e :: BlockReady(c, ph, rows, i, w.rb)
  }

  ghost predicate TasksDone(c: Call, ph: Phase, ws: seq<Work>, rows: seq<Vector>, pending: set<nat>)
    requires CallOk(c) && WorkOk(c, ph, ws)
  {
    && Shape(rows, |c.ids|, Blocks(c, ph))
    && forall t: nat | t < |ws| && t !in pending :: WorkDone(c, ph, rows, ws[t])
  }

  /** Running one task leaves finished work finished. */
  lemma WorkKept(c: Call, ph: Phase, w: Work, before: seq<Vector>, after: seq<Vector>, d: Work)
    requires CallOk(c) && w.e < |c.l.experts| && w.rb < Blocks(c, ph) &&
      RowsWritten(c, ph, w.e, w.rb, 32, before, after)
    requires d.rb < Blocks(c, ph) && (d == w || WorkDone(c, ph, before, d))
    ensures Shape(after, |c.ids|, Blocks(c, ph)) && WorkDone(c, ph, after, d)
  {
    assert forall j: nat | j < |after| :: |after[j]| == Blocks(c, ph);
    forall i: nat | Live(c, i) && c.ids[i] == d.e
      ensures BlockReady(c, ph, after, i, d.rb)
    {
      TaskEffect(c, ph, w.e, w.rb, before, after, i, d.rb);
    }
  }

  lemma TaskFinished(c: Call, ph: Phase, ws: seq<Work>, before: seq<Vector>, after: seq<Vector>, pending: set<nat>,
                     task: nat)
    requires CallOk(c) && WorkOk(c, ph, ws) && TasksDone(c, ph, ws, before, pending) && task < |ws|
    requires RowsWritten(c, ph, ws[task].e, ws[task].rb, 32, before, after)
    ensures TasksDone(c, ph, ws, after, pending - {task})
  {
    WorkKept(c, ph, ws[task], before, after, ws[task]);
    forall t: nat | t < |ws| && t !in pending - {task}
      ensures WorkDone(c, ph, after, ws[t])
    {
      WorkKept(c, ph, ws[task], before, after, ws[t]);
    }
  }

  /** Every block of every live slot is complete. */
  ghost predicate AllReady(c: Call, ph: Phase, rows: seq<Vector>)
    requires CallOk(c)
  {
    && Shape(rows, |c.ids|, Blocks(c, ph))
    && forall i: nat, rb: nat | Live(c, i) && rb < Blocks(c, ph) :: BlockReady(c, ph, rows, i, rb)
  }

  lemma {:induction false} SomeSlot(ids: seq<int>, n: nat, i: nat)
    requires i < n <= |ids|
    ensures Count(ids, n, ids[i]) > 0
  {
    CountMonotone(ids, i + 1, n, ids[i]);
  }

  /** The active experts are those some slot names. */
  ghost predicate Serves(c: Call, active: seq<nat>) {
    && (forall e | e in active :: e < |c.l.experts| && Count(c.ids, |c.ids|, e) > 0)
    && forall i: nat | Live(c, i) :: c.ids[i] in active
  }

  lemma ActiveServes(c: Call, eStart: seq<int>, tok: seq<int>, active: seq<nat>)
    requires CallOk(c) && Grouped(c.ids, |c.l.experts|, eStart, tok)
    requires forall e: nat :: e in active <==> HasSlots(eStart, e)
    ensures Serves(c, active)
  {
    forall e | e in active
      ensures e < |c.l.experts| && Count(c.ids, |c.ids|, e) > 0
    {
      assert eStart[e + 1] == Start(c.ids, e + 1);
    }
    forall i: nat | Live(c, i)
      ensures c.ids[i] in active
    {
      SomeSlot(c.ids, |c.ids|, i);
      var e: nat := c.ids[i];
      assert eStart[e + 1] == Start(c.ids, e + 1);
      assert HasSlots(eStart, e);
    }
  }

  /** With no task pending, every live slot is complete. */
  lemma AllTasksDone(c: Call, ph: Phase, active: seq<nat>, ws: seq<Work>, rows: seq<Vector>)
    requires CallOk(c) && Serves(c, active) && ws == AllWork(active, Blocks(c, ph)) && WorkOk(c, ph, ws)
    requires TasksDone(c, ph, ws, rows, {})
    ensures AllReady(c, ph, rows)
  {
    forall i: nat, rb: nat | Live(c, i) && rb < Blocks(c, ph)
      ensures BlockReady(c, ph, rows, i, rb)
    {
      WorkCovers(active, Blocks(c, ph), c.ids[i], rb);
      var t: nat :| t < |ws| && ws[t] == Work(c.ids[i], rb);
      assert WorkDone(c, ph, rows, ws[t]);
    }
  }

  /** The complete gate/up rows are the activations in permuted order. */
  lemma ReadyIsPermuted(c: Call, hp: seq<Vector>)
    requires CallOk(c) && AllReady(c, GateUpPhase, hp)
    ensures ActsReady(c, hp)
  {
    forall i: nat | Live(c, i)
      ensures IsPermuted(Acts(c.l, c.ids[i], TokenOf(c, i)), hp[i])
    {
      var acts := Acts(c.l, c.ids[i], TokenOf(c, i));
      forall g: nat | g < |acts|
        ensures GroupPermuted(acts[g], hp[i][g])
      {
        assert BlockReady(c, GateUpPhase, hp, i, g);
        forall r: nat | r < 32
          ensures hp[i][g][PermPos(r)] == acts[g][r]
        {
          assert hp[i][g][PosOf(GateUpPhase, r)] == SlotVal(c, GateUpPhase, i, g, r);
        }
      }
    }
  }

  method TaskNumbers(n: nat) returns (pending: set<nat>)
    ensures forall t: nat :: t in pending <==> t < n
  {
    pending := {};
    for t := 0 to n
      invariant forall u: nat :: u in pending <==> u < t
    {
      pending := pending + {t};
    }
  }

  /** All gate/up tasks; any pending task may be next. */
  method GateUpTasks(c: Call, eStart: seq<int>, tok: seq<int>, active: seq<nat>, xp: seq<Vector>, hp: array<Vector>,
                     tmp: array<Group>)
    requires CallOk(c) && Grouped(c.ids, |c.l.experts|, eStart, tok) && Permutes(c.x, xp)
    requires Serves(c, active) && Shape(hp[..], |c.ids|, c.l.iB) && tmp.Length == 2 * c.l.hB
    modifies hp, tmp
    ensures Shape(hp[..], |c.ids|, c.l.iB) && ActsReady(c, hp[..])
  {
    ghost var ws := AllWork(active, c.l.iB);
    var pending: set<nat> := TaskNumbers(|active| * c.l.iB);
    while pending != {}
      invariant forall t | t in pending :: t < |ws|
      invariant TasksDone(c, GateUpPhase, ws, hp[..], pending)
      decreases |pending|
    {
      var task: nat :| task in pending;
      var w := WorkOf(active, c.l.iB, task);
      ghost var before := hp[..];
      GateUpTask(c, w.e, w.rb, eStart, tok, xp, hp, tmp);
      TaskFinished(c, GateUpPhase, ws, before, hp[..], pending, task);
      pending := pending - {task};
    }
    AllTasksDone(c, GateUpPhase, active, ws, hp[..]);
    ReadyIsPermuted(c, hp[..]);
  }

  /** No expert is named by two slots. */
  ghost predicate NoExpertTwice(c: Call) {
    forall i: nat, j: nat | i < j < |c.ids| && Live(c, i) :: c.ids[i] != c.ids[j]
  }

  /** Every write of a forward call stays inside the scratch. */
  ghost predicate ScratchFits(c: Call) {
    c.l.hB == 0 || c.l.iB <= 2 * c.l.hB || NoExpertTwice(c)
  }

  lemma TwiceIsCounted(c: Call, i: nat, j: nat)
    requires i < j < |c.ids| && c.ids[i] == c.ids[j]
    ensures Count(c.ids, |c.ids|, c.ids[i]) >= 2
  {
    CountMonotone(c.ids, i + 1, j, c.ids[i]);
    CountMonotone(c.ids, j + 1, |c.ids|, c.ids[i]);
  }

  /** An expert that no two slots name, but some slot does, has one slot. */
  lemma OnceIsCounted(c: Call, e: nat)
    requires e < |c.l.experts| && NoExpertTwice(c) && Count(c.ids, |c.ids|, e) > 0
    ensures Count(c.ids, |c.ids|, e) == 1
  {
    if Count(c.ids, |c.ids|, e) >= 2 {
      var i, j := TwoSlots(c, e);
    }
  }

  lemma TwoSlots(c: Call, e: nat) returns (i: nat, j: nat)
    requires e < |c.l.experts| && Count(c.ids, |c.ids|, e) >= 2
    ensures i < j < |c.ids| && Live(c, i) && c.ids[i] == c.ids[j] == e
  {
    i := NthOccurrence(c.ids, |c.ids|, e, 0);
    j := NthOccurrence(c.ids, |c.ids|, e, 1);
    if j < i {
      CountMonotone(c.ids, j, i, e);
    }
  }

  /** A task that leaves the scratch shows that the call does not fit. */
  lemma TaskOverruns(c: Call, e: nat)
    requires e < |c.l.experts| && Count(c.ids, |c.ids|, e) > 0 && c.l.hB > 0 && !TaskFits(c, e)
    ensures !ScratchFits(c)
  {
    if NoExpertTwice(c) {
      OnceIsCounted(c, e);
    }
  }

  /** When every task fits, the call does. */
  lemma AllTasksFit(c: Call, active: seq<nat>, ws: seq<Work>)
    requires Serves(c, active) && ws == AllWork(active, c.l.hB) && forall t: nat | t < |ws| :: TaskFits(c, ws[t].e)
    ensures ScratchFits(c)
  {
    if c.l.hB > 0 && c.l.iB > 2 * c.l.hB {
      forall i: nat, j: nat | i < j < |c.ids| && Live(c, i)
        ensures c.ids[i] != c.ids[j]
      {
        WorkCovers(active, c.l.hB, c.ids[i], 0);
        var t: nat :| t < |ws| && ws[t] == Work(c.ids[i], 0);
        if c.ids[i] == c.ids[j] {
          TwiceIsCounted(c, i, j);
        }
      }
    }
  }

  /** All down tasks; any pending task may be next. */
  method DownTasks(c: Call, eStart: seq<int>, tok: seq<int>, active: seq<nat>, hp: seq<Vector>, yp: array<Vector>,
                   tmp: array<Group>) returns (fits: bool)
    requires CallOk(c) && Grouped(c.ids, |c.l.experts|, eStart, tok) && ActsReady(c, hp)
    requires Serves(c, active) && Shape(yp[..], |c.ids|, c.l.hB) && tmp.Length == 2 * c.l.hB
    modifies yp, tmp
    ensures fits <==> ScratchFits(c)
    ensures fits ==> AllReady(c, DownPhase, yp[..])
  {
    fits := true;
    ghost var ws := AllWork(active, c.l.hB);
    var pending: set<nat> := TaskNumbers(|active| * c.l.hB);
    while pending != {}
      invariant forall t | t in pending :: t < |ws|
      invariant TasksDone(c, DownPhase, ws, yp[..], pending)
      invariant fits && forall t: nat | t < |ws| && t !in pending :: TaskFits(c, ws[t].e)
      decreases |pending|
    {
      var task: nat :| task in pending;
      var w := WorkOf(active, c.l.hB, task);
      ghost var before := yp[..];
      fits := DownTask(c, w.e, w.rb, eStart, tok, hp, yp, tmp);
      if !fits {
        TaskOverruns(c, w.e);
        return;
      }
      TaskFinished(c, DownPhase, ws, before, yp[..], pending, task);
      pending := pending - {task};
    }
    AllTasksFit(c, active, ws);
    AllTasksDone(c, DownPhase, active, ws, yp[..]);
  }

  /** A row, a block and an expert of zero weights. */
  function ZeroRow(n: nat): Row {
    Row(seq(n, _ => seq(16, _ => 0)), seq(n, _ => 2))
  }

  function ZeroBlocks(n: nat, k: nat): seq<Block> {
    seq(n, _ => seq(32, _ => ZeroRow(k)))
  }

  /** H = 32, I = 96 and one token that names expert 0 twice: the call leaves the scratch. */
  lemma OverrunExists()
    ensures var l := Layer([Expert(ZeroBlocks(3, 1), ZeroBlocks(3, 1), ZeroBlocks(1, 3))], 1, 3, 0.0, g => g);
            var c := Call(l, [[seq(32, _ => 0.0)]], [0, 0], [1.0, 1.0], 2);
            CallOk(c) && !ScratchFits(c)
  {
    var l := Layer([Expert(ZeroBlocks(3, 1), ZeroBlocks(3, 1), ZeroBlocks(1, 3))], 1, 3, 0.0, g => g);
    var c := Call(l, [[seq(32, _ => 0.0)]], [0, 0], [1.0, 1.0], 2);
    assert Live(c, 0) && c.ids[0] == c.ids[1];
    assert ExpertOk(l, l.experts[0]);
  }

  // ---------------------------------------------------------------- combine

  /** The plain definition of one output element: the weighted sum of the expert outputs over the
      token's first n slots, skipping ids that name no expert. It sees nothing but the token's own row. */
  ghost function RowOut(l: Layer, x: Vector, ids: seq<int>, wts: seq<real>, b: nat, r: nat, n: nat): real
    requires LayerOk(l) && |x| == l.hB && b < l.hB && r < 32 && n <= |ids| == |wts|
  {
    if n == 0 then 0.0 else RowOut(l, x, ids, wts, b, r, n - 1) + SlotTerm(l, x, ids[n - 1], wts[n - 1], b, r)
  }

  ghost function SlotTerm(l: Layer, x: Vector, id: int, w: real, b: nat, r: nat): real
    requires LayerOk(l) && |x| == l.hB && b < l.hB && r < 32
  {
    if IsExpert(id, |l.experts|) then Weighted(w, ExpertOut(l, id, x, b, r)) else 0.0
  }

  lemma RowBounds(c: Call, t: nat)
    requires CallOk(c) && t < |c.x|
    ensures t * c.k + c.k <= |c.ids| == |c.wts|
  {
    assert (t + 1) * c.k <= |c.x| * c.k;
  }

  /** Token t's own slots. */
  function RowIds(c: Call, t: nat): (s: seq<int>)
    requires t * c.k + c.k <= |c.ids|
    ensures |s| == c.k
  {
    c.ids[t * c.k..t * c.k + c.k]
  }

  function RowWts(c: Call, t: nat): (s: seq<real>)
    requires t * c.k + c.k <= |c.wts|
    ensures |s| == c.k
  {
    c.wts[t * c.k..t * c.k + c.k]
  }

  ghost function Output(c: Call, t: nat, b: nat, r: nat, n: nat): real
    requires CallOk(c) && t < |c.x| && b < c.l.hB && r < 32 && n <= c.k
  {
    RowBounds(c, t);
    RowOut(c.l, c.x[t], RowIds(c, t), RowWts(c, t), b, r, n)
  }

  /** The accumulator after n slots. */
  ghost predicate Accumulated(c: Call, t: nat, n: nat, acc: Vector)
    requires CallOk(c) && t < |c.x| && n <= c.k
  {
    |acc| == c.l.hB && forall b: nat, r: nat | b < c.l.hB && r < 32 :: acc[b][r] == Output(c, t, b, r, n)
  }

  method AddGroup(acc: Group, w: real, y: Group) returns (sum: Group)
    ensures forall r: nat | r < 32 :: sum[r] == acc[r] + w * y[r]
  {
    var s: seq<real> := [];
    for r := 0 to 32
      invariant |s| == r && forall j: nat | j < r :: s[j] == acc[j] + w * y[j]
    {
      s := s + [acc[r] + w * y[r]];
    }
    sum := s;
  }

  method AddScaled(acc: Vector, w: real, y: Vector) returns (sum: Vector)
    requires |acc| == |y|
    ensures |sum| == |acc| && forall b: nat, r: nat | b < |acc| && r < 32 :: sum[b][r] == acc[b][r] + w * y[b][r]
  {
    sum := [];
    for g := 0 to |acc|
      invariant |sum| == g && forall b: nat, r: nat | b < g && r < 32 :: sum[b][r] == acc[b][r] + w * y[b][r]
    {
      var s := AddGroup(acc[g], w, y[g]);
      sum := sum + [s];
    }
  }

  lemma SlotOf(c: Call, t: nat, k: nat)
    requires CallOk(c) && t < |c.x| && k < c.k
    ensures t * c.k + c.k <= |c.ids| == |c.wts| && TokenOf(c, t * c.k + k) == c.x[t]
    ensures RowIds(c, t)[k] == c.ids[t * c.k + k] && RowWts(c, t)[k] == c.wts[t * c.k + k]
  {
    RowBounds(c, t);
    Division(c.k, t, k);
  }

  lemma DownValue(c: Call, yp: seq<Vector>, i: nat, b: nat, r: nat)
    requires CallOk(c) && AllReady(c, DownPhase, yp) && Live(c, i) && b < c.l.hB && r < 32
    ensures yp[i][b][r] == ExpertOut(c.l, c.ids[i], TokenOf(c, i), b, r)
  {
    assert BlockReady(c, DownPhase, yp, i, b);
    assert yp[i][b][PosOf(DownPhase, r)] == SlotVal(c, DownPhase, i, b, r);
  }

  lemma LiveTerm(l: Layer, x: Vector, id: int, w: real, b: nat, r: nat, y: real)
    requires LayerOk(l) && |x| == l.hB && b < l.hB && r < 32 && IsExpert(id, |l.experts|)
    requires y == ExpertOut(l, id, x, b, r)
    ensures SlotTerm(l, x, id, w, b, r) == w * y
  {
  }

  /** What the loop adds for slot i is the slot's term. */
  lemma AddedTerm(c: Call, yp: seq<Vector>, i: nat, b: nat, r: nat)
    requires CallOk(c) && AllReady(c, DownPhase, yp) && i < |c.ids| && b < c.l.hB && r < 32
    ensures SlotTerm(c.l, TokenOf(c, i), c.ids[i], c.wts[i], b, r) == if Live(c, i) then c.wts[i] * yp[i][b][r] else 0.0
  {
    if Live(c, i) {
      DownValue(c, yp, i, b, r);
      LiveTerm(c.l, TokenOf(c, i), c.ids[i], c.wts[i], b, r, yp[i][b][r]);
    }
  }

  lemma RowOutStep(l: Layer, x: Vector, ids: seq<int>, wts: seq<real>, b: nat, r: nat, n: nat)
    requires LayerOk(l) && |x| == l.hB && b < l.hB && r < 32 && n < |ids| == |wts|
    ensures RowOut(l, x, ids, wts, b, r, n + 1) ==
            RowOut(l, x, ids, wts, b, r, n) + SlotTerm(l, x, ids[n], wts[n], b, r)
  {
  }

  /** One more slot of the plain definition. */
  lemma OutputStep(c: Call, t: nat, b: nat, r: nat, k: nat, i: nat)
    requires CallOk(c) && t < |c.x| && b < c.l.hB && r < 32 && k < c.k && i == t * c.k + k && i < |c.ids|
    ensures Output(c, t, b, r, k + 1) == Output(c, t, b, r, k) + SlotTerm(c.l, TokenOf(c, i), c.ids[i], c.wts[i], b, r)
  {
    SlotOf(c, t, k);
    RowOutStep(c.l, c.x[t], RowIds(c, t), RowWts(c, t), b, r, k);
  }

  lemma AccumulateStep(c: Call, t: nat, k: nat, acc: Vector, sum: Vector, yp: seq<Vector>, i: nat)
    requires CallOk(c) && t < |c.x| && k < c.k && Accumulated(c, t, k, acc) && AllReady(c, DownPhase, yp)
    requires i == t * c.k + k && i < |c.ids|
    requires |sum| == |acc|
    requires forall b: nat, r: nat | b < |acc| && r < 32 ::
      sum[b][r] == acc[b][r] + if Live(c, i) then c.wts[i] * yp[i][b][r] else 0.0
    ensures Accumulated(c, t, k + 1, sum)
  {
    forall b: nat, r: nat | b < c.l.hB && r < 32
      ensures sum[b][r] == Output(c, t, b, r, k + 1)
    {
      assert acc[b][r] == Output(c, t, b, r, k);
      AddedTerm(c, yp, i, b, r);
      OutputStep(c, t, b, r, k, i);
    }
  }

  /** The combine loop of one token, before rounding. */
  method CombineToken(c: Call, t: nat, yp: seq<Vector>) returns (acc: Vector)
    requires CallOk(c) && t < |c.x| && AllReady(c, DownPhase, yp)
    ensures Accumulated(c, t, c.k, acc)
  {
    acc := seq(c.l.hB, _ => seq(32, _ => 0.0));
    for k := 0 to c.k
      invariant Accumulated(c, t, k, acc)
    {
      SlotOf(c, t, k);
      var i := t * c.k + k;
      ghost var was := acc;
      if 0 <= c.ids[i] < |c.l.experts| {
        acc := AddScaled(acc, c.wts[i], yp[i]);
      }
      AccumulateStep(c, t, k, was, acc, yp, i);
    }
  }

  /** Round every element. */
  function RoundRow(v: Vector, round: real -> real): (u: Vector)
    ensures |u| == |v| && forall b: nat, r: nat | b < |v| && r < 32 :: u[b][r] == round(v[b][r])
  {
    seq(|v|, b requires 0 <= b < |v| => RoundGroup(v[b], round))
  }

  function RoundGroup(g: Group, round: real -> real): (u: Group)
    ensures forall r: nat | r < 32 :: u[r] == round(g[r])
  {
    seq(32, r requires 0 <= r < 32 => round(g[r]))
  }

  /** Output row t holds the rounded plain definition. */
  ghost predicate RowCorrect(c: Call, round: real -> real, t: nat, row: Vector)
    requires CallOk(c) && t < |c.x|
  {
    |row| == c.l.hB && forall b: nat, r: nat | b < c.l.hB && r < 32 :: row[b][r] == round(Output(c, t, b, r, c.k))
  }

  /** Output row t holds, element by element, the rounded dense definition on the token's own slots. */
  ghost predicate RowDense(c: Call, round: real -> real, t: nat, row: Vector)
    requires CallOk(c) && t < |c.x|
  {
    |row| == c.l.hB && t * c.k + c.k <= |c.ids| &&
    var ids, wts := c.ids[t * c.k..t * c.k + c.k], c.wts[t * c.k..t * c.k + c.k];
    forall j: nat | j < 32 * c.l.hB :: Flat(row)[j] == round(DenseOut(c.l, c.x[t], ids, wts, j, c.k))
  }

  /** The blocked and the dense form of a right output row agree. */
  lemma RowIsDense(c: Call, round: real -> real, t: nat, row: Vector)
    requires CallOk(c) && t < |c.x| && RowCorrect(c, round, t, row)
    ensures RowDense(c, round, t, row)
  {
    RowBounds(c, t);
    forall j: nat | j < 32 * c.l.hB
      ensures Flat(row)[j] == round(DenseOut(c.l, c.x[t], RowIds(c, t), RowWts(c, t), j, c.k))
    {
      RowOutIsDense(c.l, c.x[t], RowIds(c, t), RowWts(c, t), j, c.k);
      assert row[j / 32][j % 32] == round(Output(c, t, j / 32, j % 32, c.k));
    }
  }

  method PermuteInputs(x: seq<Vector>) returns (xp: seq<Vector>)
    ensures Permutes(x, xp)
  {
    xp := [];
    for t := 0 to |x|
      invariant |xp| == t && forall s: nat | s < t :: IsPermuted(x[s], xp[s])
    {
      var row := PermuteRow(x[t]);
      xp := xp + [row];
    }
  }

  method CombineAll(c: Call, yp: seq<Vector>, round: real -> real) returns (out: seq<Vector>)
    requires CallOk(c) && AllReady(c, DownPhase, yp)
    ensures |out| == |c.x| && forall t: nat | t < |c.x| :: RowCorrect(c, round, t, out[t])
  {
    out := [];
    for t := 0 to |c.x|
      invariant |out| == t && forall s: nat | s < t :: RowCorrect(c, round, s, out[s])
    {
      var acc := CombineToken(c, t, yp);
      out := out + [RoundRow(acc, round)];
    }
  }

  /** A layer and its scratch, which grows and is never cleared. */
  class LayerState {
    const l: Layer
    var hp: array<Vector>
    var yp: array<Vector>

    ghost predicate Valid()
      reads this, hp, yp
    {
      && LayerOk(l) && hp != yp
      && (forall i | 0 <= i < hp.Length :: |hp[i]| == l.iB)
      && (forall i | 0 <= i < yp.Length :: |yp[i]| == l.hB)
    }

    constructor (l: Layer)
      requires LayerOk(l)
      ensures this.l == l && Valid() && fresh(hp) && fresh(yp) && hp.Length == yp.Length == 0
    {
      this.l := l;
      hp := new Vector[0];
      yp := new Vector[0];
    }

    /** Make room for n slots. */
    method Grow(n: nat)
      requires Valid()
      modifies this
      ensures Valid() && hp.Length >= n && yp.Length >= n
      ensures (hp == old(hp) || fresh(hp)) && (yp == old(yp) || fresh(yp))
      ensures old(hp.Length) <= hp.Length && forall i | 0 <= i < old(hp.Length) :: hp[i] == old(hp[i])
      ensures old(yp.Length) <= yp.Length && forall i | 0 <= i < old(yp.Length) :: yp[i] == old(yp[i])
    {
      var zero: Group := seq(32, _ => 0.0);
      if hp.Length < n {
        var was := hp;
        var row: Vector := seq(l.iB, _ => zero);
        hp := new Vector[n](i requires 0 <= i < n reads was => if i < was.Length then was[i] else row);
      }
      if yp.Length < n {
        var was := yp;
        var row: Vector := seq(l.hB, _ => zero);
        yp := new Vector[n](i requires 0 <= i < n reads was => if i < was.Length then was[i] else row);
      }
    }

    /** cpu_moe_forward: whatever the scratch holds and whichever pending task is taken next. It writes past the
        thread's scratch exactly when the call does not fit; otherwise every row is right. */
    method Forward(x: seq<Vector>, ids: seq<int>, wts: seq<real>, k: nat, round: real -> real)
      returns (fits: bool, out: seq<Vector>)
      requires Valid() && CallOk(Call(l, x, ids, wts, k))
      modifies this, hp, yp
      ensures fits <==> ScratchFits(Call(l, x, ids, wts, k))
      ensures fits ==> Valid() && |out| == |x|
      ensures fits ==> forall t: nat | t < |x| :: RowDense(Call(l, x, ids, wts, k), round, t, out[t])
    {
      var c := Call(l, x, ids, wts, k);
      Grow(|ids|);
      var starts, toks := new int[|l.experts| + 1], new int[|ids|];
      GroupByExpert(ids, |l.experts|, starts, toks);
      var eStart, tok := starts[..], toks[..];
      var active := ActiveExperts(|l.experts|, eStart);
      ActiveServes(c, eStart, tok, active);
      var xp := PermuteInputs(x);
      var zero: Group := seq(32, _ => 0.0);
      var tmp := new Group[2 * l.hB](_ => zero);
      out := [];
      GateUpTasks(c, eStart, tok, active, xp, hp, tmp);
      fits := DownTasks(c, eStart, tok, active, hp[..], yp, tmp);
      if fits {
        out := CombineAll(c, yp[..], round);
        forall t: nat | t < |x|
          ensures RowDense(c, round, t, out[t])
        {
          RowIsDense(c, round, t, out[t]);
        }
      }
    }
  }
}
