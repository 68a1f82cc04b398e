/** The indexer's tiled K cache (overlay/sm80-src/rocm_aiter_mla_sparse.py): the store
    kernel scatters a slot's head dimension over tiles, the gather kernel collects it.

    A block is one row of bytes: block_size * head_dim value bytes, tiled, then four
    scale bytes per slot.  A slot's contents are its head_dim codes and its scale bytes. */
module KCache {
  import opened Common

  datatype Layout = Normal | Shuffle

  /** blockSize = blockTile * tileRows and headDim = headTile * headTiles under Shuffle. */
  datatype Geometry = Geometry(layout: Layout, blocks: nat, blockSize: nat, headDim: nat, stride: nat,
                               blockTile: nat, headTile: nat)

  ghost predicate Tiled(n: nat, tile: nat) {
    tile > 0 && exists k: nat :: Times(k, tile) == n
  }

  function Times(a: nat, b: nat): nat {
    a * b
  }

  ghost predicate GeometryOk(g: Geometry) {
    && g.blockSize > 0 && g.headDim > 0
    && g.stride >= Times(g.blockSize, g.headDim) + 4 * g.blockSize
    && (g.layout == Shuffle ==> Tiled(g.blockSize, g.blockTile) && Tiled(g.headDim, g.headTile))
  }

  /** Byte of cell k of the slot at `row` of a block: code k, or scale byte k - headDim. */
  function InBlock(g: Geometry, row: nat, k: nat): int
    requires g.layout == Shuffle ==> g.blockTile > 0 && g.headTile > 0
  {
    if k >= g.headDim then g.blockSize * g.headDim + row * 4 + (k - g.headDim)
    else if g.layout == Normal then row * g.headDim + k
    else
      var tileStart := (row / g.blockTile) * g.blockTile * g.headDim + (row % g.blockTile) * g.headTile;
      tileStart + (k / g.headTile * g.blockTile * g.headTile + k % g.headTile)
  }

  function Address(g: Geometry, slot: nat, k: nat): int
    requires g.blockSize > 0 && (g.layout == Shuffle ==> g.blockTile > 0 && g.headTile > 0)
  {
    (slot / g.blockSize) * g.stride + InBlock(g, slot % g.blockSize, k)
  }

  // ---------------------------------------------------------------- digits

  /** a * n + b determines a and b when b < n. */
  lemma Digits(a: int, b: int, c: int, d: int, n: int)
    requires 0 <= b < n && 0 <= d < n && a * n + b == c * n + d
    ensures a == c && b == d
  {
    var e := a - c;
    assert e * n == d - b;
    assert e >= 1 ==> e * n >= n;
    assert e <= -1 ==> e * n <= 0 - n;
  }

  /** and stays below m * n when a < m. */
  lemma DigitBound(a: int, b: int, m: int, n: int)
    requires 0 <= b < n && 0 <= a < m
    ensures 0 <= a * n + b < m * n
  {
    assert (a + 1) * n <= m * n;
    assert a * n >= 0;
  }

  lemma DivMod(a: nat, n: nat)
    requires n > 0
    ensures a == (a / n) * n + a % n && 0 <= a / n && 0 <= a % n < n
  {
  }

  lemma DivBound(a: nat, m: nat, n: nat)
    requires n > 0 && a < Times(m, n)
    ensures a / n < m
  {
    DivMod(a, n);
    var q := a / n;
    assert q >= m ==> q * n >= m * n;
  }

  /** The tile address, from its digits: tile row, head tile, row in tile, byte in head tile. */
  function Nest(tb: int, ho: int, to: int, hi: int, nh: int, bt: int, ht: int): int {
    ((tb * nh + ho) * bt + to) * ht + hi
  }

  lemma NestForm(tb: int, ho: int, to: int, hi: int, nh: int, bt: int, ht: int)
    ensures tb * bt * (nh * ht) + to * ht + (ho * bt * ht + hi) == Nest(tb, ho, to, hi, nh, bt, ht)
  {
    var x := tb * nh + ho;
    assert (x * bt + to) * ht == x * bt * ht + to * ht;
    assert x * bt == tb * nh * bt + ho * bt;
    assert (tb * nh * bt + ho * bt) * ht == tb * nh * bt * ht + ho * bt * ht;
    assert tb * bt * (nh * ht) == tb * nh * bt * ht by {
      assert tb * bt * (nh * ht) == tb * (bt * (nh * ht));
      assert tb * nh * bt * ht == tb * (nh * bt * ht);
      assert bt * (nh * ht) == bt * nh * ht;
      assert nh * bt == bt * nh;
    }
  }

  lemma NestInjective(tb: int, ho: int, to: int, hi: int, tb': int, ho': int, to': int, hi': int, nh: int, bt: int,
                      ht: int)
    requires 0 <= ho < nh && 0 <= ho' < nh && 0 <= to < bt && 0 <= to' < bt && 0 <= hi < ht && 0 <= hi' < ht
    requires Nest(tb, ho, to, hi, nh, bt, ht) == Nest(tb', ho', to', hi', nh, bt, ht)
    ensures tb == tb' && ho == ho' && to == to' && hi == hi'
  {
    Digits((tb * nh + ho) * bt + to, hi, (tb' * nh + ho') * bt + to', hi', ht);
    Digits(tb * nh + ho, to, tb' * nh + ho', to', bt);
    Digits(tb, ho, tb', ho', nh);
  }

  lemma NestBound(tb: int, ho: int, to: int, hi: int, nb: int, nh: int, bt: int, ht: int)
    requires 0 <= tb < nb && 0 <= ho < nh && 0 <= to < bt && 0 <= hi < ht
    ensures 0 <= Nest(tb, ho, to, hi, nh, bt, ht) < (nb * bt) * (nh * ht)
  {
    DigitBound(tb, ho, nb, nh);
    DigitBound(tb * nh + ho, to, nb * nh, bt);
    DigitBound((tb * nh + ho) * bt + to, hi, nb * nh * bt, ht);
    Regroup(nb, nh, bt, ht);
  }

  lemma Swap(a: int, b: int, c: int)
    ensures a * b * c == a * c * b
  {
  }

  lemma Assoc(a: int, b: int, c: int)
    ensures (a * b) * c == a * (b * c)
  {
  }

  lemma Regroup(a: int, b: int, c: int, d: int)
    ensures a * b * c * d == (a * c) * (b * d)
  {
    Swap(a, b, c);
    Assoc(a * c, b, d);
  }

  // ---------------------------------------------------------------- the address map

  /** The digits of a tiled cell. */
  lemma TiledForm(g: Geometry, row: nat, k: nat) returns (nb: nat, nh: nat)
    requires GeometryOk(g) && g.layout == Shuffle && row < g.blockSize && k < g.headDim
    ensures nb * g.blockTile == g.blockSize && nh * g.headTile == g.headDim
    ensures 0 <= row / g.blockTile < nb && 0 <= k / g.headTile < nh
    ensures InBlock(g, row, k) == Nest(row / g.blockTile, k / g.headTile, row % g.blockTile, k % g.headTile, nh,
      g.blockTile, g.headTile)
  {
    nb :| Times(nb, g.blockTile) == g.blockSize;
    nh :| Times(nh, g.headTile) == g.headDim;
    DivBound(row, nb, g.blockTile);
    DivBound(k, nh, g.headTile);
    DivMod(row, g.blockTile);
    DivMod(k, g.headTile);
    NestForm(row / g.blockTile, k / g.headTile, row % g.blockTile, k % g.headTile, nh, g.blockTile, g.headTile);
  }

  /** Codes stay in the value part of the block. */
  lemma ValueInBlock(g: Geometry, row: nat, k: nat)
    requires GeometryOk(g) && row < g.blockSize && k < g.headDim
    ensures 0 <= InBlock(g, row, k) < Times(g.blockSize, g.headDim)
  {
    if g.layout == Normal {
      DigitBound(row, k, g.blockSize, g.headDim);
    } else {
      var nb, nh := TiledForm(g, row, k);
      NestBound(row / g.blockTile, k / g.headTile, row % g.blockTile, k % g.headTile, nb, nh, g.blockTile, g.headTile);
    }
  }

  lemma ValueInjective(g: Geometry, row: nat, k: nat, row': nat, k': nat)
    requires GeometryOk(g) && row < g.blockSize && k < g.headDim && row' < g.blockSize && k' < g.headDim
    requires InBlock(g, row, k) == InBlock(g, row', k')
    ensures row == row' && k == k'
  {
    if g.layout == Normal {
      Digits(row, k, row', k', g.headDim);
    } else {
      var _, nh := TiledForm(g, row, k);
      var _, nh' := TiledForm(g, row', k');
      SameFactor(nh, nh', g.headTile);
      NestInjective(row / g.blockTile, k / g.headTile, row % g.blockTile, k % g.headTile,
                    row' / g.blockTile, k' / g.headTile, row' % g.blockTile, k' % g.headTile, nh, g.blockTile,
                      g.headTile);
      DivMod(row, g.blockTile);
      DivMod(row', g.blockTile);
      DivMod(k, g.headTile);
      DivMod(k', g.headTile);
    }
  }

  lemma SameFactor(a: int, b: int, n: int)
    requires n > 0 && a * n == b * n
    ensures a == b
  {
    Digits(a, 0, b, 0, n);
  }

  lemma ScaleInBlock(g: Geometry, row: nat, k: nat)
    requires GeometryOk(g) && row < g.blockSize && g.headDim <= k < g.headDim + 4
    ensures InBlock(g, row, k) == Times(g.blockSize, g.headDim) + 4 * row + (k - g.headDim)
  {
  }

  lemma CellInBlock(g: Geometry, row: nat, k: nat)
    requires GeometryOk(g) && row < g.blockSize && k < g.headDim + 4
    ensures 0 <= InBlock(g, row, k) < g.stride
  {
    if k < g.headDim {
      ValueInBlock(g, row, k);
    } else {
      ScaleInBlock(g, row, k);
    }
  }

  lemma CellInjective(g: Geometry, row: nat, k: nat, row': nat, k': nat)
    requires GeometryOk(g) && row < g.blockSize && k < g.headDim + 4 && row' < g.blockSize && k' < g.headDim + 4
    requires InBlock(g, row, k) == InBlock(g, row', k')
    ensures row == row' && k == k'
  {
    if k < g.headDim {
      ValueInBlock(g, row, k);
    } else {
      ScaleInBlock(g, row, k);
    }
    if k' < g.headDim {
      ValueInBlock(g, row', k');
    } else {
      ScaleInBlock(g, row', k');
    }
    if k < g.headDim && k' < g.headDim {
      ValueInjective(g, row, k, row', k');
    }
  }

  predicate IsSlot(g: Geometry, slot: int) {
    0 <= slot < Times(g.blocks, g.blockSize)
  }

  /** In bounds. */
  lemma AddressInBounds(g: Geometry, slot: nat, k: nat)
    requires GeometryOk(g) && IsSlot(g, slot) && k < g.headDim + 4
    ensures 0 <= Address(g, slot, k) < Times(g.blocks, g.stride)
  {
    DivBound(slot, g.blocks, g.blockSize);
    DivMod(slot, g.blockSize);
    CellInBlock(g, slot % g.blockSize, k);
    DigitBound(slot / g.blockSize, InBlock(g, slot % g.blockSize, k), g.blocks, g.stride);
  }

  /** Injective: no byte belongs to two cells. */
  lemma AddressInjective(g: Geometry, slot: nat, k: nat, slot': nat, k': nat)
    requires GeometryOk(g) && k < g.headDim + 4 && k' < g.headDim + 4
    requires Address(g, slot, k) == Address(g, slot', k')
    ensures slot == slot' && k == k'
  {
    DivMod(slot, g.blockSize);
    DivMod(slot', g.blockSize);
    var r, r' := slot % g.blockSize, slot' % g.blockSize;
    CellInBlock(g, r, k);
    CellInBlock(g, r', k');
    Digits(slot / g.blockSize, InBlock(g, r, k), slot' / g.blockSize, InBlock(g, r', k'), g.stride);
    CellInjective(g, r, k, r', k');
  }

  /** What the layout is, step by step. Blocks lie `stride` apart. Untiled, a slot's codes are consecutive and slots
      follow each other. */
  lemma NormalSteps(g: Geometry, block: nat, row: nat, k: nat)
    requires GeometryOk(g) && g.layout == Normal && row < g.blockSize && k < g.headDim
    ensures block * g.blockSize + row >= 0
    ensures Address(g, block * g.blockSize + row, k) == block * g.stride + row * g.headDim + k
  {
    SlotDigits(g, block, row);
  }

  lemma SlotDigits(g: Geometry, block: nat, row: nat)
    requires g.blockSize > 0 && row < g.blockSize
    ensures var slot := block * g.blockSize + row; slot >= 0 && slot / g.blockSize == block && slot % g.blockSize == row
  {
    var slot := block * g.blockSize + row;
    DivMod(slot, g.blockSize);
    Digits(slot / g.blockSize, slot % g.blockSize, block, row, g.blockSize);
  }

  /** Tiled, the block is a row of tiles of blockTile slots by headTile codes, the tiles of one group of slots before
      those of the next; inside a tile the slots follow each other. */
  lemma TiledSteps(g: Geometry, block: nat, tb: nat, to: nat, ho: nat, hi: nat, nh: nat)
    requires GeometryOk(g) && g.layout == Shuffle && Times(nh, g.headTile) == g.headDim
    requires to < g.blockTile && hi < g.headTile && ho < nh
    requires Times(tb, g.blockTile) + to < g.blockSize && Times(ho, g.headTile) + hi < g.headDim
    ensures var row, k := Times(tb, g.blockTile) + to, Times(ho, g.headTile) + hi;
            && block * g.blockSize + row >= 0
            && Address(g, block * g.blockSize + row, k) ==
               block * g.stride + Nest(tb, ho, to, hi, nh, g.blockTile, g.headTile)
  {
    var row, k := Times(tb, g.blockTile) + to, Times(ho, g.headTile) + hi;
    SlotDigits(g, block, row);
    DivMod(row, g.blockTile);
    DivMod(k, g.headTile);
    Digits(row / g.blockTile, row % g.blockTile, tb, to, g.blockTile);
    Digits(k / g.headTile, k % g.headTile, ho, hi, g.headTile);
    NestForm(tb, ho, to, hi, nh, g.blockTile, g.headTile);
  }

  /** The four scale bytes of a slot follow all codes of the block, slot by slot. */
  lemma ScaleSteps(g: Geometry, block: nat, row: nat, i: nat)
    requires GeometryOk(g) && row < g.blockSize && i < 4
    ensures block * g.blockSize + row >= 0
    ensures Address(g, block * g.blockSize + row, g.headDim + i) ==
            block * g.stride + Times(g.blockSize, g.headDim) + 4 * row + i
  {
    SlotDigits(g, block, row);
  }

  /** A head dimension of several head tiles, in a block whose last tile is partial: the last cell leaves the value
      part. */
  lemma PartialTileLeaves(g: Geometry, nh: nat)
    requires g.layout == Shuffle && g.blockSize > 0 && g.blockTile > 0 && g.headTile > 0
    requires Times(nh, g.headTile) == g.headDim && nh >= 2 && !Tiled(g.blockSize, g.blockTile)
    ensures InBlock(g, g.blockSize - 1, g.headDim - 1) >= Times(g.blockSize, g.headDim)
  {
    var row, k, bt, ht := g.blockSize - 1, g.headDim - 1, g.blockTile, g.headTile;
    DivMod(row, bt);
    DivMod(k, ht);
    var tb, to := row / bt, row % bt;
    if to + 1 == bt {
      assert Times(tb + 1, bt) == g.blockSize;
    }
    assert (nh - 1) * ht + (ht - 1) == k;
    Digits(k / ht, k % ht, nh - 1, ht - 1, ht);
    Overshoot(tb, to, nh, bt, ht);
  }

  lemma Overshoot(tb: int, to: int, nh: int, bt: int, ht: int)
    requires nh >= 2 && to + 1 < bt && ht >= 1
    ensures tb * bt * (nh * ht) + to * ht + ((nh - 1) * bt * ht + (ht - 1)) >= (tb * bt + to + 1) * (nh * ht)
  {
    var d, w, m, t := nh * ht, tb * bt, (nh - 1) * ht, to + 1;
    Distribute(w, t, d);
    Distribute(nh - 1, 1, ht);
    Distribute(m, ht, t);
    Distribute(bt - t, t, m);
    Swap(nh - 1, bt, ht);
    Distribute(to, 1, ht);
    AtLeastOne(nh - 1, ht);
    AtLeastOne(bt - t, m);
    Collected(w * d, t * d, m * t, ht * t, to * ht, m * bt, (bt - t) * m, ht);
  }

  /** The sum, its products named. */
  lemma Collected(wd: int, td: int, mt: int, htt: int, toht: int, mbt: int, rest: int, ht: int)
    requires td == mt + htt && htt == toht + ht && mbt == rest + mt && rest >= 1
    ensures wd + toht + (mbt + (ht - 1)) >= wd + td
  {
  }

  lemma Distribute(a: int, b: int, c: int)
    ensures (a + b) * c == a * c + b * c
  {
  }

  lemma AtLeastOne(a: int, b: int)
    requires a >= 1 && b >= 1
    ensures a * b >= 1
  {
  }

  /** Several head tiles: the value part holds every code exactly when the block tile divides the block. */
  lemma TilesExact(g: Geometry)
    requires g.layout == Shuffle && g.blockSize > 0 && g.blockTile > 0 && 0 < g.headTile < g.headDim &&
      Tiled(g.headDim, g.headTile)
    requires g.stride >= Times(g.blockSize, g.headDim) + 4 * g.blockSize
    ensures (forall row: nat, k: nat | row < g.blockSize && k < g.headDim ::
               InBlock(g, row, k) < Times(g.blockSize, g.headDim))
            <==> Tiled(g.blockSize, g.blockTile)
  {
    if Tiled(g.blockSize, g.blockTile) {
      forall row: nat, k: nat | row < g.blockSize && k < g.headDim
        ensures InBlock(g, row, k) < Times(g.blockSize, g.headDim)
      {
        ValueInBlock(g, row, k);
      }
    } else {
      var nh: nat :| Times(nh, g.headTile) == g.headDim;
      assert nh >= 2 by {
        assert nh == 0 ==> nh * g.headTile == 0;
        assert nh == 1 ==> nh * g.headTile == g.headTile;
      }
      PartialTileLeaves(g, nh);
    }
  }

  /** Then slots do share bytes: with 8 rows in tiles of 16, two slots share a byte. */
  lemma PartialTileCollides()
    ensures var g := Geometry(Shuffle, 2, 8, 32, 288, 16, 16);
            Address(g, 4, 16) == 320 == Address(g, 10, 0) && g.stride == g.blockSize * g.headDim + 4 * g.blockSize
  {
  }

  // ---------------------------------------------------------------- cells of a slot

  /** The addresses of a slot's cells, in order. */
  function Cells(g: Geometry, slot: nat): (cs: seq<int>)
    requires g.blockSize > 0 && (g.layout == Shuffle ==> g.blockTile > 0 && g.headTile > 0)
    ensures |cs| == g.headDim + 4 && forall k: nat | k < |cs| :: cs[k] == Address(g, slot, k)
  {
    seq(g.headDim + 4, k requires 0 <= k < g.headDim + 4 => Address(g, slot, k))
  }

  /** The gather kernel's own address arithmetic, on a block and a row of it. */
  function SourceCell(g: Geometry, block: nat, row: nat, k: nat): int
    requires g.layout == Shuffle ==> g.blockTile > 0 && g.headTile > 0
  {
    if k >= g.headDim then block * g.stride + (g.blockSize * g.headDim + row * 4 + (k - g.headDim))
    else if g.layout == Normal then block * g.stride + row * g.headDim + k
    else
      var source := block * g.stride + (row / g.blockTile) * g.headDim * g.blockTile + (row % g.blockTile) * g.headTile;
      source + (k / g.headTile * g.headTile * g.blockTile + k % g.headTile)
  }

  function SourceCells(g: Geometry, block: nat, row: nat): (cs: seq<int>)
    requires g.layout == Shuffle ==> g.blockTile > 0 && g.headTile > 0
    ensures |cs| == g.headDim + 4 && forall k: nat | k < |cs| :: cs[k] == SourceCell(g, block, row, k)
  {
    seq(g.headDim + 4, k requires 0 <= k < g.headDim + 4 => SourceCell(g, block, row, k))
  }

  /** Gather reads where store wrote. */
  lemma SourceIsCells(g: Geometry, block: nat, row: nat)
    requires GeometryOk(g) && row < g.blockSize
    ensures block * g.blockSize + row >= 0 && SourceCells(g, block, row) == Cells(g, block * g.blockSize + row)
  {
    var slot := block * g.blockSize + row;
    DivMod(slot, g.blockSize);
    Digits(slot / g.blockSize, slot % g.blockSize, block, row, g.blockSize);
    forall k: nat | k < g.headDim + 4
      ensures SourceCells(g, block, row)[k] == Cells(g, slot)[k]
    {
      if g.layout == Shuffle && k < g.headDim {
        Swap(row / g.blockTile, g.headDim, g.blockTile);
        Swap(k / g.headTile, g.headTile, g.blockTile);
      }
    }
  }

  ghost predicate Distinct(cs: seq<int>) {
    forall i, j | 0 <= i < j < |cs| :: cs[i] != cs[j]
  }

  ghost predicate InRange(cs: seq<int>, n: nat) {
    forall i | 0 <= i < |cs| :: 0 <= cs[i] < n
  }

  ghost predicate Apart(cs: seq<int>, ds: seq<int>) {
    forall i, j | 0 <= i < |cs| && 0 <= j < |ds| :: cs[i] != ds[j]
  }

  lemma CellsSeparate(g: Geometry, slot: nat)
    requires GeometryOk(g) && IsSlot(g, slot)
    ensures Distinct(Cells(g, slot)) && InRange(Cells(g, slot), Times(g.blocks, g.stride))
  {
    var cs := Cells(g, slot);
    forall i: nat, j: nat | i < j < |cs|
      ensures cs[i] != cs[j]
    {
      if cs[i] == cs[j] {
        AddressInjective(g, slot, i, slot, j);
      }
    }
    forall i: nat | i < |cs|
      ensures 0 <= cs[i] < Times(g.blocks, g.stride)
    {
      AddressInBounds(g, slot, i);
    }
  }

  lemma SlotsApart(g: Geometry, slot: nat, slot': nat)
    requires GeometryOk(g) && slot != slot'
    ensures Apart(Cells(g, slot), Cells(g, slot'))
  {
    var cs, ds := Cells(g, slot), Cells(g, slot');
    forall i: nat, j: nat | i < |cs| && j < |ds|
      ensures cs[i] != ds[j]
    {
      if cs[i] == ds[j] {
        AddressInjective(g, slot, i, slot', j);
      }
    }
  }

  /** The bytes at the given addresses are the given ones. */
  ghost predicate Holds(mem: seq<byte>, cs: seq<int>, bytes: seq<byte>) {
    |cs| == |bytes| && InRange(cs, |mem|) && forall i | 0 <= i < |cs| :: mem[cs[i]] == bytes[i]
  }

  method Scatter(mem: array<byte>, cs: seq<int>, bytes: seq<byte>)
    requires |cs| == |bytes| && Distinct(cs) && InRange(cs, mem.Length)
    modifies mem
    ensures Holds(mem[..], cs, bytes)
    ensures forall a | 0 <= a < mem.Length && a !in cs :: mem[a] == old(mem[a])
  {
    for i := 0 to |cs|
      invariant forall j | 0 <= j < i :: mem[cs[j]] == bytes[j]
      invariant forall a | 0 <= a < mem.Length && a !in cs :: mem[a] == old(mem[a])
    {
      mem[cs[i]] := bytes[i];
    }
  }

  method Collect(mem: array<byte>, cs: seq<int>) returns (bytes: seq<byte>)
    requires InRange(cs, mem.Length)
    ensures Holds(mem[..], cs, bytes)
  {
    bytes := [];
    for i := 0 to |cs|
      invariant |bytes| == i && forall j | 0 <= j < i :: mem[cs[j]] == bytes[j]
    {
      bytes := bytes + [mem[cs[i]]];
    }
  }

  // ---------------------------------------------------------------- the cache against a map

  /** One token's store: its slot, and its codes followed by its scale bytes. */
  datatype Store = Store(slot: int, bytes: seq<byte>)

  ghost predicate StoreOk(g: Geometry, op: Store) {
    |op.bytes| == g.headDim + 4 && (op.slot >= 0 ==> IsSlot(g, op.slot))
  }

  /** The simple meaning of stores: the last one to each slot counts, negative slots are skipped. */
  function Stored(model: map<int, seq<byte>>, ops: seq<Store>): map<int, seq<byte>>
    decreases |ops|
  {
    if |ops| == 0 then model
    else
      var m := Stored(model, ops[..|ops| - 1]);
      var op := ops[|ops| - 1];
      if op.slot < 0 then m else m[op.slot := op.bytes]
  }

  /** A slot holds what the last store to it brought; without one it holds what it held. */
  lemma {:induction false} StoredIs(model: map<int, seq<byte>>, ops: seq<Store>, slot: int, j: int)
    requires -1 <= j < |ops| && (j >= 0 ==> ops[j].slot == slot >= 0)
    requires forall i | j < i < |ops| :: ops[i].slot != slot || slot < 0
    ensures j >= 0 ==> slot in Stored(model, ops) && Stored(model, ops)[slot] == ops[j].bytes
    ensures j < 0 ==> (slot in Stored(model, ops) <==> slot in model)
    ensures j < 0 && slot in model ==> Stored(model, ops)[slot] == model[slot]
    decreases |ops|
  {
    if j < |ops| - 1 {
      StoredIs(model, ops[..|ops| - 1], slot, j);
    }
  }

  /** What a gather does for one token: nothing, a zero scale and no codes, or a slot's contents. */
  datatype Gathered = Nothing | ZeroScale | Contents(bytes: seq<byte>)

  /** The page tables of a gather. */
  datatype Pages = Pages(seqOf: seq<int>, cuSeq: seq<int>, table: seq<seq<int>>)

  /** The token is one of its sequence's. */
  predicate TokenOk(p: Pages, tid: nat) {
    && tid < |p.seqOf| && 0 <= p.seqOf[tid] < |p.table| && p.seqOf[tid] + 1 < |p.cuSeq|
    && p.cuSeq[p.seqOf[tid]] <= tid < p.cuSeq[p.seqOf[tid] + 1]
  }

  /** Token tid is position i of sequence b. */
  ghost predicate IsPosition(p: Pages, tid: nat, b: nat, i: nat) {
    && tid < |p.seqOf| && p.seqOf[tid] == b < |p.table| && b + 1 < |p.cuSeq|
    && p.cuSeq[b] + i == tid < p.cuSeq[b + 1]
  }

  class Cache {
    const g: Geometry
    var mem: array<byte>
    ghost var model: map<int, seq<byte>>

    ghost predicate Valid()
      reads this, mem
    {
      && GeometryOk(g) && mem.Length == Times(g.blocks, g.stride)
      && forall slot | slot in model :: IsSlot(g, slot) && Holds(mem[..], Cells(g, slot), model[slot])
    }

    /** Over memory in any state. */
    constructor (g: Geometry, mem: array<byte>)
      requires GeometryOk(g) && mem.Length == Times(g.blocks, g.stride)
      ensures Valid() && this.g == g && this.mem == mem && model == map[]
    {
      this.g, this.mem, model := g, mem, map[];
    }

    /** One program of the store kernel. */
    method StoreToken(op: Store)
      requires Valid() && StoreOk(g, op)
      modifies this`model, mem
      ensures Valid() && model == Stored(old(model), [op])
    {
      assert [op][..0] == [];
      if op.slot < 0 {
        return;
      }
      CellsSeparate(g, op.slot);
      Scatter(mem, Cells(g, op.slot), op.bytes);
      forall slot | slot in model && slot != op.slot
        ensures Holds(mem[..], Cells(g, slot), model[slot])
      {
        SlotsApart(g, slot, op.slot);
        assert Holds(old(mem[..]), Cells(g, slot), model[slot]);
      }
      model := model[op.slot := op.bytes];
    }

    /** Any sequence of stores. */
    method StoreTokens(ops: seq<Store>)
      requires Valid() && forall i | 0 <= i < |ops| :: StoreOk(g, ops[i])
      modifies this`model, mem
      ensures Valid() && model == Stored(old(model), ops)
    {
      for i := 0 to |ops|
        invariant Valid() && mem == old(mem)
        invariant model == Stored(old(model), ops[..i])
      {
        StoreToken(ops[i]);
        assert ops[..i + 1][..i] == ops[..i];
        assert [ops[i]][..0] == [];
      }
      assert ops[..|ops|] == ops;
    }

    /** One program of the gather kernel. */
    method GatherToken(p: Pages, tid: nat) returns (r: Gathered)
      requires Valid()
      ensures r == Nothing <==> forall b: nat, i: nat :: !IsPosition(p, tid, b, i)
      ensures forall b: nat, i: nat | IsPosition(p, tid, b, i) :: RightFor(p.table[b], i, r)
    {
      if !TokenOk(p, tid) {
        return Nothing;
      }
      var b := p.seqOf[tid];
      var at := tid - p.cuSeq[b];
      assert IsPosition(p, tid, b, at);
      DivMod(at, g.blockSize);
      var page, row := at / g.blockSize, at % g.blockSize;
      if page >= |p.table[b]| || !(0 <= p.table[b][page] < g.blocks) {
        return ZeroScale;
      }
      var block := p.table[b][page];
      DigitBound(block, row, g.blocks, g.blockSize);
      ghost var slot := block * g.blockSize + row;
      SourceIsCells(g, block, row);
      CellsSeparate(g, slot);
      var bytes := Collect(mem, SourceCells(g, block, row));
      r := Contents(bytes);
    }

    /** What position i of a sequence with this page table must get: the contents of its slot, or a zero scale when
        its page is not mapped to a block. */
    ghost predicate RightFor(table: seq<int>, i: nat, r: Gathered)
      requires g.blockSize > 0
      reads this
    {
      if 0 <= i / g.blockSize < |table| && 0 <= table[i / g.blockSize] < g.blocks then
        var slot := table[i / g.blockSize] * g.blockSize + i % g.blockSize;
        r.Contents? && (slot in model ==> r.bytes == model[slot])
      else r == ZeroScale
    }
  }
}
