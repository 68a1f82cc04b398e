/** The forward pass of one rank, the pipeline of ranks, and the uncut model
    (overlay/patch_pp_shadow.py, overlay/hybrid/pp_shadow.py).

    Layer arithmetic stays uninterpreted: a `Kernels` value supplies it.  All
    tensors, caches and token rows are values of one type V. */
module ShadowRun {
  import opened Common
  import opened ShadowPlan
  import opened ShadowBuild

  function Lookup<V>(m: map<nat, V>, s: int): Option<V> {
    if s in m then Some(m[s]) else None
  }

  datatype Kernels<!V> = Kernels(
    attnInput: (nat, V) -> V,                                  // layer, hidden
    cacheStep: (nat, V, V, Option<V>) -> V,                    // source, attention input, positions, old cache
    shortContext: (nat, V) -> bool,                            // every position fits in the top-k
    fillRow: (nat, V, int) -> V,                               // short-context top-k row
    topkRow: (nat, V, V, Option<V>, seq<V>, int) -> V,         // ..., K cache, candidate rows, row
    candRow: (nat, V, V, Option<V>, int) -> V,
    ownStep: (nat, V, V, Option<V>) -> V,                      // sliding-window cache of the layer itself
    attend: (nat, V, V, V, V, Option<V>, seq<V>) -> V)         // ..., own cache, source cache, top-k rows

  /** What a rank keeps between steps. `cache[s]` bundles the compressed-KV
      cache, compressor state and indexer K cache registered under source s. */
  datatype Store<V> = Store(cache: map<nat, V>, own: map<nat, V>, topk: seq<V>, cand: seq<V>)

  /** One scheduled step: embedded tokens, positions, number of tokens. */
  datatype Step<V> = Step(hidden: V, pos: V, n: nat)

  /** What a layer read from its sources. */
  datatype Read<V> = Read(layer: nat, cache: Option<V>, topk: seq<V>, cand: seq<V>)

  function Rows<V>(buf: seq<V>, n: nat): seq<V> {
    if n <= |buf| then buf[..n] else buf
  }

  /** buf[:n] = rows */
  function Write<V>(buf: seq<V>, rows: seq<V>): (r: seq<V>)
    ensures Rows(r, |rows|) == rows
  {
    rows + if |rows| <= |buf| then buf[|rows|..] else []
  }

  /** The candidate rows an indexer at layer l reads. */
  function CandSeen<V>(cfg: Config, l: nat, n: nat, cand: seq<V>): seq<V> {
    if l in cfg.idx && UsesCand(cfg, l) then Rows(cand, n) else []
  }

  function CacheAfter<V>(cfg: Config, k: Kernels<V>, l: nat, x: V, step: Step<V>, cache: map<nat, V>): map<nat, V> {
    if l in cfg.kv then cache[l := k.cacheStep(l, x, step.pos, Lookup(cache, l))] else cache
  }

  function FillRows<V>(k: Kernels<V>, l: nat, step: Step<V>): seq<V> {
    seq(step.n, i => k.fillRow(l, step.pos, i))
  }

  function TopkRows<V>(k: Kernels<V>, l: nat, x: V, step: Step<V>, kc: Option<V>, seen: seq<V>): seq<V> {
    seq(step.n, i => k.topkRow(l, x, step.pos, kc, seen, i))
  }

  function CandRows<V>(k: Kernels<V>, l: nat, x: V, step: Step<V>, kc: Option<V>): seq<V> {
    seq(step.n, i => k.candRow(l, x, step.pos, kc, i))
  }

  /** Compressor and indexer K rows, top-k and candidate rows: the part of a
      source layer's attention that its consumers read. `needTopk` is true in
      the layer itself; a shadow passes its plan entry. In a short context the
      indexer fills the top-k rows at once and runs no scoring pass. */
  function RunSource<V>(cfg: Config, k: Kernels<V>, l: nat, x: V, step: Step<V>, needTopk: bool, st: Store<V>): Store<V>
  {
    var cache := CacheAfter(cfg, k, l, x, step, st.cache);
    var kc := Lookup(cache, LastSource(cfg.kv, l));
    if l !in cfg.idx then st.(cache := cache)
    else if k.shortContext(l, step.pos) then
      st.(cache := cache, topk := Write(st.topk, FillRows(k, l, step)))
    else if !needTopk then st.(cache := cache)
    else
      st.(cache := cache,
          topk := Write(st.topk, TopkRows(k, l, x, step, kc, CandSeen(cfg, l, step.n, st.cand))),
          cand := if HasCand(cfg) && l == cfg.candSrc then Write(st.cand, CandRows(k, l, x, step, kc)) else st.cand)
  }

  /** A run of consecutive layers: stream, store, reads so far, captured attention inputs. */
  datatype Progress<V> = Progress(hidden: V, st: Store<V>, trace: seq<Read<V>>, shipped: map<nat, V>)

  function ReadAt<V>(cfg: Config, l: nat, n: nat, st: Store<V>): Read<V> {
    if Compressed(cfg, l)
      then Read(l, Lookup(st.cache, LastSource(cfg.kv, l)), Rows(st.topk, n), CandSeen(cfg, l, n, st.cand))
      else Read(l, None, [], [])
  }

  /** The decoder layer: capture, publish, attend. */
  function RunLayer<V>(cfg: Config, k: Kernels<V>, l: nat, step: Step<V>, ship: set<nat>, p: Progress<V>): Progress<V>
  {
    var x := k.attnInput(l, p.hidden);
    var st1 := RunSource(cfg, k, l, x, step, true, p.st);
    var own := k.ownStep(l, x, step.pos, Lookup(st1.own, l));
    var rd := ReadAt(cfg, l, step.n, st1);
    Progress(k.attend(l, p.hidden, x, step.pos, own, rd.cache, rd.topk),
             st1.(own := st1.own[l := own]),
             p.trace + [rd],
             if l in ship then p.shipped[l := x] else p.shipped)
  }

  function RunLayers<V>(cfg: Config, k: Kernels<V>, lo: nat, hi: nat, step: Step<V>, ship: set<nat>, p: Progress<V>)
    : Progress<V>
    requires lo <= hi
  {
    if lo == hi then p
    else RunLayer(cfg, k, hi - 1, step, ship, RunLayers(cfg, k, lo, hi - 1, step, ship, p))
  }

  lemma {:induction false} LayersUnfold<V>(cfg: Config, k: Kernels<V>, lo: nat, l: nat, step: Step<V>, ship: set<nat>,
                                          p: Progress<V>)
    requires lo <= l
    ensures RunLayers(cfg, k, lo, l + 1, step, ship, p)
         == RunLayer(cfg, k, l, step, ship, RunLayers(cfg, k, lo, l, step, ship, p))
  {
  }

  /** Exactly the flagged layers that ran have been captured. */
  lemma {:induction false} CapturedKeys<V>(cfg: Config, k: Kernels<V>, lo: nat, hi: nat, step: Step<V>,
                                           ship: set<nat>, p: Progress<V>)
    requires lo <= hi
    ensures forall s: nat :: s in RunLayers(cfg, k, lo, hi, step, ship, p).shipped <==>
                             s in p.shipped || (s in ship && lo <= s < hi)
    decreases hi
  {
    if lo < hi {
      CapturedKeys(cfg, k, lo, hi - 1, step, ship, p);
    }
  }

  /** IntermediateTensors: the stream, source inputs by key, candidate rows. */
  datatype Message<V> = Message(hidden: V, src: map<nat, V>, cand: seq<V>)

  /** One position of the ascending shadow loop. */
  function ShadowAt<V>(cfg: Config, k: Kernels<V>, needs: map<nat, bool>, m: nat, src: map<nat, V>, step: Step<V>,
                       st: Store<V>)
    : Store<V>
    requires needs.Keys <= src.Keys
  {
    if m in needs then RunSource(cfg, k, m, src[m], step, needs[m], st) else st
  }

  /** The shadows below `m`, in ascending order. */
  function RunShadows<V>(cfg: Config, k: Kernels<V>, needs: map<nat, bool>, m: nat, src: map<nat, V>, step: Step<V>,
                         st: Store<V>)
    : Store<V>
    requires needs.Keys <= src.Keys
  {
    if m == 0 then st
    else
      ShadowAt(cfg, k, needs, m - 1, src, step, RunShadows(cfg, k, needs, m - 1, src, step, st))
  }

  function Receive<V>(cfg: Config, cuts: seq<nat>, r: nat, msg: Message<V>, st: Store<V>): Store<V>
    requires IsRank(cuts, r)
  {
    if RecvCand(cfg, cuts, r) then st.(cand := Write(st.cand, msg.cand)) else st
  }

  function Shipment<V>(cfg: Config, cuts: seq<nat>, r: nat, step: Step<V>, msg: Message<V>,
                       p: Progress<V>): (out: Message<V>)
    requires IsRank(cuts, r)
    requires OwnedShipIds(cfg, cuts, r) <= p.shipped.Keys
    requires RecvIds(cfg, cuts, r) <= msg.src.Keys
    ensures out.src.Keys == ShipIds(cfg, cuts, r)
  {
    Message(p.hidden,
            map s | s in ShipIds(cfg, cuts, r) :: if s in OwnedShipIds(cfg, cuts, r) then p.shipped[s] else msg.src[s],
            if ShipCand(cfg, cuts, r) then Rows(p.st.cand, step.n) else [])
  }

  /** Store of rank r when its own layers start. */
  function AfterShadows<V>(cfg: Config, k: Kernels<V>, cuts: seq<nat>, r: nat, step: Step<V>, msg: Message<V>,
                           st: Store<V>): Store<V>
    requires IsRank(cuts, r) && RecvIds(cfg, cuts, r) <= msg.src.Keys
  {
    RunShadows(cfg, k, Needs(cfg, cuts, r), cuts[r], msg.src, step, Receive(cfg, cuts, r, msg, st))
  }

  /** The forward of rank r: receive, run shadows, run layers; `Shipment` is what it sends on. */
  function RankRun<V>(cfg: Config, k: Kernels<V>, cuts: seq<nat>, r: nat, step: Step<V>, msg: Message<V>, st: Store<V>)
    : (p: Progress<V>)
    requires IsRank(cuts, r) && cuts[r] <= cuts[r + 1]
    requires RecvIds(cfg, cuts, r) <= msg.src.Keys
    ensures OwnedShipIds(cfg, cuts, r) <= p.shipped.Keys
  {
    var p0 := Progress(msg.hidden, AfterShadows(cfg, k, cuts, r, step, msg, st), [], map[]);
    CapturedKeys(cfg, k, cuts[r], cuts[r + 1], step, OwnedShipIds(cfg, cuts, r), p0);
    RunLayers(cfg, k, cuts[r], cuts[r + 1], step, OwnedShipIds(cfg, cuts, r), p0)
  }

  /** The ranks below r have run: their stores, the message at cut r, all reads. */
  datatype Pipe<V> = Pipe(stores: seq<Store<V>>, msg: Message<V>, trace: seq<Read<V>>)

  /** Rank r runs on the pipe's message and sends its own. */
  function PipeRank<V>(cfg: Config, k: Kernels<V>, cuts: seq<nat>, r: nat, step: Step<V>, prev: Pipe<V>): (p: Pipe<V>)
    requires IsRank(cuts, r) && cuts[r] <= cuts[r + 1] && r < |prev.stores|
    requires prev.msg.src.Keys == RecvIds(cfg, cuts, r)
    ensures |p.stores| == |prev.stores| && p.msg.src.Keys == ShipIds(cfg, cuts, r)
  {
    var p := RankRun(cfg, k, cuts, r, step, prev.msg, prev.stores[r]);
    Pipe(prev.stores[r := p.st], Shipment(cfg, cuts, r, step, prev.msg, p), prev.trace + p.trace)
  }

  function RunPipe<V>(cfg: Config, k: Kernels<V>, n: nat, cuts: seq<nat>, r: nat, step: Step<V>, stores: seq<Store<V>>)
    : (p: Pipe<V>)
    requires Partition(cuts, n) && r < |cuts| && |stores| == |cuts| - 1
    ensures |p.stores| == |stores|
    ensures IsRank(cuts, r) ==> p.msg.src.Keys == RecvIds(cfg, cuts, r)
  {
    if r == 0 then
      FirstRankReceivesNothing(cfg, n, cuts);
      Pipe(stores, Message(step.hidden, map[], []), [])
    else
      NextReceives(cfg, n, cuts, r);
      assert IsRank(cuts, r - 1);
      PipeRank(cfg, k, cuts, r - 1, step, RunPipe(cfg, k, n, cuts, r - 1, step, stores))
  }

  lemma NextReceives(cfg: Config, n: nat, cuts: seq<nat>, r: nat)
    requires Partition(cuts, n) && 0 < r < |cuts|
    ensures IsRank(cuts, r) ==> RecvIds(cfg, cuts, r) == ShipIds(cfg, cuts, r - 1)
  {
    if IsRank(cuts, r) {
      RecvMatchesShip(cfg, n, cuts, r);
    }
  }

  /** The unpartitioned model after its first l layers of a step. */
  function Uncut<V>(cfg: Config, k: Kernels<V>, l: nat, step: Step<V>, u: Store<V>): Progress<V> {
    RunLayers(cfg, k, 0, l, step, {}, Progress(step.hidden, u, [], map[]))
  }

  // ---------------------------------------------------------------- stability in the uncut run

  ghost predicate SameAt<V>(a: Store<V>, b: Store<V>, s: nat) {
    Lookup(a.cache, s) == Lookup(b.cache, s) && Lookup(a.own, s) == Lookup(b.own, s)
  }

  /** One layer writes only its own cache entries. */
  lemma LayerFrame<V>(cfg: Config, k: Kernels<V>, l: nat, step: Step<V>, ship: set<nat>, p: Progress<V>,
                      base: Store<V>, s: nat)
    requires s != l && SameAt(p.st, base, s)
    ensures SameAt(RunLayer(cfg, k, l, step, ship, p).st, base, s)
  {
  }

  /** Layers other than s leave its caches alone. */
  lemma CachesStable<V>(cfg: Config, k: Kernels<V>, lo: nat, hi: nat, step: Step<V>, u: Store<V>, s: nat)
    requires lo <= hi && (s < lo || hi <= s)
    ensures SameAt(Uncut(cfg, k, hi, step, u).st, Uncut(cfg, k, lo, step, u).st, s)
  {
    var base := Uncut(cfg, k, lo, step, u).st;
    for i := lo to hi
      invariant SameAt(Uncut(cfg, k, i, step, u).st, base, s)
    {
      LayerFrame(cfg, k, i, step, {}, Uncut(cfg, k, i, step, u), base, s);
    }
  }

  /** Layers other than their source leave the candidate rows alone. */
  lemma {:induction false} CandStable<V>(cfg: Config, k: Kernels<V>, lo: nat, hi: nat, step: Step<V>, u: Store<V>)
    requires lo <= hi && (!HasCand(cfg) || cfg.candSrc < lo || hi <= cfg.candSrc)
    ensures Uncut(cfg, k, hi, step, u).st.cand == Uncut(cfg, k, lo, step, u).st.cand
    decreases hi
  {
    if lo < hi {
      CandStable(cfg, k, lo, hi - 1, step, u);
    }
  }

  // ---------------------------------------------------------------- the simulation

  /** The kv sources whose caches rank r holds. */
  ghost predicate Held(cfg: Config, cuts: seq<nat>, r: nat, s: nat)
    requires IsRank(cuts, r)
  {
    s in cfg.kv && (s in Needs(cfg, cuts, r) || cuts[r] <= s < cuts[r + 1])
  }

  ghost predicate SameCaches<V>(cfg: Config, cuts: seq<nat>, r: nat, a: Store<V>, b: Store<V>)
    requires IsRank(cuts, r)
  {
    forall s: nat | Held(cfg, cuts, r, s) :: Lookup(a.cache, s) == Lookup(b.cache, s)
  }

  ghost predicate SameOwn<V>(cuts: seq<nat>, r: nat, a: Store<V>, b: Store<V>)
    requires IsRank(cuts, r)
  {
    forall l: nat | cuts[r] <= l < cuts[r + 1] :: Lookup(a.own, l) == Lookup(b.own, l)
  }

  ghost predicate SameCand<V>(cfg: Config, cuts: seq<nat>, r: nat, n: nat, a: Store<V>, b: Store<V>)
    requires IsRank(cuts, r)
  {
    HasCand(cfg) ==>
      && (cfg.candSrc < cuts[r] ==> Rows(a.cand, n) == Rows(b.cand, n))
      && (cuts[r] <= cfg.candSrc < cuts[r + 1] ==> a.cand == b.cand)
  }

  /** What a rank's store owes the uncut store between steps: its layers' own
      caches, every cache it holds or shadows, and, on the candidate source's
      owner, the candidate buffer. */
  ghost predicate RankOk<V>(cfg: Config, cuts: seq<nat>, r: nat, a: Store<V>, u: Store<V>)
    requires IsRank(cuts, r)
  {
    && SameOwn(cuts, r, a, u)
    && SameCaches(cfg, cuts, r, a, u)
    && (HasCand(cfg) && cuts[r] <= cfg.candSrc < cuts[r + 1] ==> a.cand == u.cand)
  }

  ghost predicate AllOk<V>(cfg: Config, cuts: seq<nat>, stores: seq<Store<V>>, u: Store<V>)
    requires |stores| == |cuts| - 1
  {
    forall j | 0 <= j < |stores| :: RankOk(cfg, cuts, j, stores[j], u)
  }

  ghost predicate HasTopkShadow(cfg: Config, cuts: seq<nat>, r: nat)
    requires IsRank(cuts, r)
  {
    Shadowed(cfg, cfg.idx, cuts[r], cuts[r + 1]) != {}
  }

  ghost predicate IndexSourceRan(cfg: Config, cuts: seq<nat>, r: nat, l: nat)
    requires IsRank(cuts, r)
  {
    HasTopkShadow(cfg, cuts, r) || exists s | s in cfg.idx :: cuts[r] <= s < l
  }

  /** Before layer l of rank r, against the uncut run before layer l: once an
      index source or its shadow has run here, the top-k rows agree as well. */
  ghost predicate LayerRel<V>(cfg: Config, cuts: seq<nat>, r: nat, l: nat, n: nat, a: Store<V>, b: Store<V>)
    requires IsRank(cuts, r)
  {
    && SameOwn(cuts, r, a, b)
    && SameCaches(cfg, cuts, r, a, b)
    && SameCand(cfg, cuts, r, n, a, b)
    && (IndexSourceRan(cfg, cuts, r, l) ==> Rows(a.topk, n) == Rows(b.topk, n))
  }

  /** A local layer finds every cache it needs held on its rank, and its top-k rows published. */
  lemma SourcesAtHand(cfg: Config, n: nat, cuts: seq<nat>, r: nat, l: nat)
    requires WellFormed(cfg, n) && Partition(cuts, n) && IsRank(cuts, r)
    requires cuts[r] <= l < cuts[r + 1] && Compressed(cfg, l)
    ensures LastSource(cfg.kv, l) >= 0 && Held(cfg, cuts, r, LastSource(cfg.kv, l))
    ensures IndexSourceRan(cfg, cuts, r, l + 1)
  {
    assert HasSources(cfg, l);
    LastSourceIsMax(cfg.kv, l);
    LastSourceIsMax(cfg.idx, l);
    ShadowedIff(cfg, cfg.kv, cuts[r], cuts[r + 1], LastSource(cfg.kv, l));
    ShadowedIff(cfg, cfg.idx, cuts[r], cuts[r + 1], LastSource(cfg.idx, l));
  }

  /** The caches after a local layer's publishing half. */
  lemma CacheStep<V>(cfg: Config, k: Kernels<V>, cuts: seq<nat>, r: nat, l: nat, x: V, step: Step<V>, a: Store<V>,
                     b: Store<V>)
    requires IsRank(cuts, r) && cuts[r] <= l < cuts[r + 1]
    requires SameCaches(cfg, cuts, r, a, b)
    ensures SameCaches(cfg, cuts, r, RunSource(cfg, k, l, x, step, true, a), RunSource(cfg, k, l, x, step, true, b))
  {
    assert l in cfg.kv ==> Held(cfg, cuts, r, l);
  }

  /** The publishing half of a local layer keeps the relation. */
  lemma SourceStep<V>(cfg: Config, k: Kernels<V>, n: nat, cuts: seq<nat>, r: nat, l: nat, x: V, step: Step<V>,
                      a: Store<V>, b: Store<V>)
    requires WellFormed(cfg, n) && Partition(cuts, n) && IsRank(cuts, r) && cuts[r] <= l < cuts[r + 1]
    requires LayerRel(cfg, cuts, r, l, step.n, a, b)
    ensures LayerRel(cfg, cuts, r, l + 1, step.n, RunSource(cfg, k, l, x, step, true, a),
      RunSource(cfg, k, l, x, step, true, b))
  {
    CacheStep(cfg, k, cuts, r, l, x, step, a, b);
    if l in cfg.idx {
      assert Compressed(cfg, l);
      SourcesAtHand(cfg, n, cuts, r, l);
      assert CandSeen(cfg, l, step.n, a.cand) == CandSeen(cfg, l, step.n, b.cand);
    }
  }

  lemma OwnStep<V>(cuts: seq<nat>, r: nat, l: nat, v: V, a: Store<V>, b: Store<V>)
    requires IsRank(cuts, r) && SameOwn(cuts, r, a, b)
    ensures SameOwn(cuts, r, a.(own := a.own[l := v]), b.(own := b.own[l := v]))
  {
    var a', b' := a.own[l := v], b.own[l := v];
    forall j: nat | cuts[r] <= j < cuts[r + 1]
      ensures Lookup(a', j) == Lookup(b', j)
    {
      assert Lookup(a.own, j) == Lookup(b.own, j);
    }
  }

  /** One local layer keeps the relation, reads the same and streams the same. */
  lemma LayerStep<V>(cfg: Config, k: Kernels<V>, n: nat, cuts: seq<nat>, r: nat, l: nat, step: Step<V>, ship: set<nat>,
                     a: Progress<V>, b: Progress<V>)
    requires WellFormed(cfg, n) && Partition(cuts, n) && IsRank(cuts, r) && cuts[r] <= l < cuts[r + 1]
    requires a.hidden == b.hidden && LayerRel(cfg, cuts, r, l, step.n, a.st, b.st)
    ensures var a', b' := RunLayer(cfg, k, l, step, ship, a), RunLayer(cfg, k, l, step, {}, b);
            && a'.hidden == b'.hidden
            && LayerRel(cfg, cuts, r, l + 1, step.n, a'.st, b'.st)
            && a'.trace == a.trace + [b'.trace[|b.trace|]] && b'.trace == b.trace + [b'.trace[|b.trace|]]
  {
    var x := k.attnInput(l, a.hidden);
    SourceStep(cfg, k, n, cuts, r, l, x, step, a.st, b.st);
    var a1, b1 := RunSource(cfg, k, l, x, step, true, a.st), RunSource(cfg, k, l, x, step, true, b.st);
    if Compressed(cfg, l) {
      SourcesAtHand(cfg, n, cuts, r, l);
    }
    assert ReadAt(cfg, l, step.n, a1) == ReadAt(cfg, l, step.n, b1);
    assert Lookup(a1.own, l) == Lookup(b1.own, l);
    OwnStep(cuts, r, l, k.ownStep(l, x, step.pos, Lookup(a1.own, l)), a1, b1);
  }

  /** The attention input of source s in this step of the uncut run. */
  function InputOf<V>(cfg: Config, k: Kernels<V>, s: nat, step: Step<V>, u: Store<V>): V {
    k.attnInput(s, Uncut(cfg, k, s, step, u).hidden)
  }

  /** Rank r, about to run layer l, is where the uncut run is. */
  ghost predicate InStep<V>(cfg: Config, k: Kernels<V>, cuts: seq<nat>, r: nat, l: nat, step: Step<V>,
                            a: Progress<V>, u: Store<V>)
    requires IsRank(cuts, r)
  {
    var b := Uncut(cfg, k, l, step, u);
    && a.hidden == b.hidden
    && LayerRel(cfg, cuts, r, l, step.n, a.st, b.st)
    && Uncut(cfg, k, cuts[r], step, u).trace + a.trace == b.trace
    && forall s | s in a.shipped :: a.shipped[s] == InputOf(cfg, k, s, step, u)
  }

  lemma InStepNext<V>(cfg: Config, k: Kernels<V>, n: nat, cuts: seq<nat>, r: nat, l: nat, step: Step<V>,
                      ship: set<nat>, a: Progress<V>, u: Store<V>)
    requires WellFormed(cfg, n) && Partition(cuts, n) && IsRank(cuts, r) && cuts[r] <= l < cuts[r + 1]
    requires InStep(cfg, k, cuts, r, l, step, a, u)
    ensures InStep(cfg, k, cuts, r, l + 1, step, RunLayer(cfg, k, l, step, ship, a), u)
  {
    var b := Uncut(cfg, k, l, step, u);
    LayerStep(cfg, k, n, cuts, r, l, step, ship, a, b);
    var a', b' := RunLayer(cfg, k, l, step, ship, a), RunLayer(cfg, k, l, step, {}, b);
    assert Uncut(cfg, k, l + 1, step, u) == b';
    var t := Uncut(cfg, k, cuts[r], step, u).trace;
    assert t + a'.trace == (t + a.trace) + [b'.trace[|b.trace|]];
  }

  /** All local layers up to l. */
  lemma {:induction false} LayersSim<V>(cfg: Config, k: Kernels<V>, n: nat, cuts: seq<nat>, r: nat, l: nat,
                                        step: Step<V>, ship: set<nat>, p: Progress<V>, u: Store<V>)
    requires WellFormed(cfg, n) && Partition(cuts, n) && IsRank(cuts, r) && cuts[r] <= l <= cuts[r + 1]
    requires InStep(cfg, k, cuts, r, cuts[r], step, p, u)
    ensures InStep(cfg, k, cuts, r, l, step, RunLayers(cfg, k, cuts[r], l, step, ship, p), u)
  {
    for i := cuts[r] to l
      invariant InStep(cfg, k, cuts, r, i, step, RunLayers(cfg, k, cuts[r], i, step, ship, p), u)
    {
      LayersNext(cfg, k, n, cuts, r, i, step, ship, p, u);
    }
  }

  lemma {:induction false} LayersNext<V>(cfg: Config, k: Kernels<V>, n: nat, cuts: seq<nat>, r: nat, l: nat,
                                        step: Step<V>, ship: set<nat>, p: Progress<V>, u: Store<V>)
    requires WellFormed(cfg, n) && Partition(cuts, n) && IsRank(cuts, r) && cuts[r] <= l < cuts[r + 1]
    requires InStep(cfg, k, cuts, r, l, step, RunLayers(cfg, k, cuts[r], l, step, ship, p), u)
    ensures InStep(cfg, k, cuts, r, l + 1, step, RunLayers(cfg, k, cuts[r], l + 1, step, ship, p), u)
  {
    InStepNext(cfg, k, n, cuts, r, l, step, ship, RunLayers(cfg, k, cuts[r], l, step, ship, p), u);
    LayersUnfold(cfg, k, cuts[r], l, step, ship, p);
  }

  /** What a message at cut b must carry. */
  ghost predicate MessageOk<V>(cfg: Config, k: Kernels<V>, cuts: seq<nat>, r: nat, step: Step<V>, u: Store<V>,
                               msg: Message<V>)
    requires IsRank(cuts, r)
  {
    var b := Uncut(cfg, k, cuts[r], step, u);
    && msg.hidden == b.hidden
    && msg.src.Keys == RecvIds(cfg, cuts, r)
    && (forall s | s in msg.src :: msg.src[s] == InputOf(cfg, k, s, step, u))
    && (RecvCand(cfg, cuts, r) ==> msg.cand == Rows(b.st.cand, step.n))
  }

  /** The index shadow, if any, has run once the shadows below m have. */
  ghost predicate TopkShadowRan(cfg: Config, cuts: seq<nat>, r: nat, m: nat)
    requires IsRank(cuts, r)
  {
    var topk := Shadowed(cfg, cfg.idx, cuts[r], cuts[r + 1]);
    exists i | i in topk :: i < m
  }

  ghost predicate ShadowCaches<V>(cfg: Config, cuts: seq<nat>, r: nat, a: Store<V>, b: Store<V>)
    requires IsRank(cuts, r)
  {
    forall s: nat | s in cfg.kv && s in Needs(cfg, cuts, r) :: Lookup(a.cache, s) == Lookup(b.cache, s)
  }

  ghost predicate ShadowCand<V>(cfg: Config, k: Kernels<V>, cuts: seq<nat>, r: nat, step: Step<V>, a: Store<V>,
                                u: Store<V>)
    requires IsRank(cuts, r)
  {
    RecvCand(cfg, cuts, r) ==> Rows(a.cand, step.n) == Rows(Uncut(cfg, k, cuts[r], step, u).st.cand, step.n)
  }

  /** With the shadows below m run, against the uncut run before layer m. */
  ghost predicate ShadowRel<V>(cfg: Config, k: Kernels<V>, cuts: seq<nat>, r: nat, m: nat, step: Step<V>,
                               a: Store<V>, u: Store<V>)
    requires IsRank(cuts, r)
  {
    var b := Uncut(cfg, k, m, step, u).st;
    && ShadowCaches(cfg, cuts, r, a, b)
    && ShadowCand(cfg, k, cuts, r, step, a, u)
    && (TopkShadowRan(cfg, cuts, r, m) ==> Rows(a.topk, step.n) == Rows(b.topk, step.n))
  }

  /** A layer that is not shadowed changes nothing the shadows stand for. */
  lemma SkipLayer<V>(cfg: Config, k: Kernels<V>, n: nat, cuts: seq<nat>, r: nat, m: nat, step: Step<V>, a: Store<V>,
                     u: Store<V>)
    requires WellFormed(cfg, n) && Partition(cuts, n) && IsRank(cuts, r) && m < cuts[r]
    requires ShadowRel(cfg, k, cuts, r, m, step, a, u) && m !in Needs(cfg, cuts, r)
    ensures ShadowRel(cfg, k, cuts, r, m + 1, step, a, u)
  {
    var p := Uncut(cfg, k, m, step, u);
    forall s: nat | s in cfg.kv && s in Needs(cfg, cuts, r)
      ensures Lookup(a.cache, s) == Lookup(Uncut(cfg, k, m + 1, step, u).st.cache, s)
    {
      LayerFrame(cfg, k, m, step, {}, p, p.st, s);
    }
    if TopkShadowRan(cfg, cuts, r, m + 1) {
      var topk := Shadowed(cfg, cfg.idx, cuts[r], cuts[r + 1]);
      var i :| i in topk && i < m + 1;
      OneTopkShadow(cfg, n, cuts[r], cuts[r + 1], i);
      assert m !in cfg.idx;
    }
  }

  /** The caches after a shadow equal the caches after its source. */
  lemma ShadowCacheStep<V>(cfg: Config, k: Kernels<V>, cuts: seq<nat>, r: nat, m: nat, x: V, step: Step<V>, need: bool,
                           a: Store<V>, b: Store<V>)
    requires IsRank(cuts, r) && m in Needs(cfg, cuts, r)
    requires ShadowCaches(cfg, cuts, r, a, b)
    ensures ShadowCaches(cfg, cuts, r, RunSource(cfg, k, m, x, step, need, a), RunSource(cfg, k, m, x, step, true, b))
  {
  }

  /** The shadow that replays the top-k: same K cache, same candidates, so the same rows. */
  lemma TopkShadow<V>(cfg: Config, k: Kernels<V>, n: nat, cuts: seq<nat>, r: nat, m: nat, x: V, step: Step<V>,
                      a: Store<V>, u: Store<V>)
    requires WellFormed(cfg, n) && Partition(cuts, n) && CutOk(cfg, cuts) && IsRank(cuts, r) && m < cuts[r]
    requires m in Shadowed(cfg, cfg.idx, cuts[r], cuts[r + 1])
    requires ShadowRel(cfg, k, cuts, r, m, step, a, u)
    ensures var a' := RunSource(cfg, k, m, x, step, true, a);
            var b' := RunSource(cfg, k, m, x, step, true, Uncut(cfg, k, m, step, u).st);
            && Rows(a'.topk, step.n) == Rows(b'.topk, step.n)
            && (HasCand(cfg) && m == cfg.candSrc && !k.shortContext(m, step.pos) ==>
                  Rows(a'.cand, step.n) == Rows(b'.cand, step.n))
  {
    var b := Uncut(cfg, k, m, step, u).st;
    OneTopkShadow(cfg, n, cuts[r], cuts[r + 1], m);
    ShadowCacheStep(cfg, k, cuts, r, m, x, step, true, a, b);
    var a', b' := RunSource(cfg, k, m, x, step, true, a), RunSource(cfg, k, m, x, step, true, b);
    var kvSrc: nat := LastSource(cfg.kv, m);
    assert Lookup(a'.cache, kvSrc) == Lookup(b'.cache, kvSrc) by {
      LastSourceIsMax(cfg.kv, m);
      assert KCacheHeld(cfg, cuts[r], cuts[r + 1]);
      assert kvSrc in Needs(cfg, cuts, r);
    }
    if UsesCand(cfg, m) {
      CandStable(cfg, k, m, cuts[r], step, u);
    }
    assert CandSeen(cfg, m, step.n, a.cand) == CandSeen(cfg, m, step.n, b.cand);
  }

  /** Running the shadow of m from the shipped input keeps the shadows in step. */
  lemma ShadowLayer<V>(cfg: Config, k: Kernels<V>, n: nat, cuts: seq<nat>, r: nat, m: nat, step: Step<V>,
                       a: Store<V>, u: Store<V>)
    requires WellFormed(cfg, n) && Partition(cuts, n) && CutOk(cfg, cuts) && IsRank(cuts, r) && m < cuts[r]
    requires ShadowRel(cfg, k, cuts, r, m, step, a, u) && m in Needs(cfg, cuts, r)
    ensures ShadowRel(cfg, k, cuts, r, m + 1, step,
                      RunSource(cfg, k, m, InputOf(cfg, k, m, step, u), step, Needs(cfg, cuts, r)[m], a), u)
  {
    var x, need := InputOf(cfg, k, m, step, u), Needs(cfg, cuts, r)[m];
    var p := Uncut(cfg, k, m, step, u);
    var b' := RunSource(cfg, k, m, x, step, true, p.st);
    ShadowCacheStep(cfg, k, cuts, r, m, x, step, need, a, p.st);
    assert b'.(own := Uncut(cfg, k, m + 1, step, u).st.own) == Uncut(cfg, k, m + 1, step, u).st;
    ShadowLayerCand(cfg, k, n, cuts, r, m, step, need, a, u);
    if TopkShadowRan(cfg, cuts, r, m + 1) {
      ShadowLayerRows(cfg, k, n, cuts, r, m, x, step, a, u);
    }
  }

  /** The candidate rows after the shadow of m. */
  lemma ShadowLayerCand<V>(cfg: Config, k: Kernels<V>, n: nat, cuts: seq<nat>, r: nat, m: nat, step: Step<V>,
                           need: bool, a: Store<V>, u: Store<V>)
    requires WellFormed(cfg, n) && Partition(cuts, n) && CutOk(cfg, cuts) && IsRank(cuts, r) && m < cuts[r]
    requires ShadowRel(cfg, k, cuts, r, m, step, a, u) && m in Needs(cfg, cuts, r) && need == Needs(cfg, cuts, r)[m]
    ensures var x := InputOf(cfg, k, m, step, u);
            ShadowCand(cfg, k, cuts, r, step, RunSource(cfg, k, m, x, step, need, a), u)
  {
    var x := InputOf(cfg, k, m, step, u);
    if need && HasCand(cfg) && m == cfg.candSrc && m in cfg.idx && !k.shortContext(m, step.pos) {
      TopkShadow(cfg, k, n, cuts, r, m, x, step, a, u);
      CandStable(cfg, k, m + 1, cuts[r], step, u);
      LayerCand(cfg, k, m, step, u);
    } else {
      SourceKeepsCand(cfg, k, m, x, step, need, a);
    }
  }

  /** Only the scoring pass of the candidate source writes candidate rows. */
  lemma SourceKeepsCand<V>(cfg: Config, k: Kernels<V>, m: nat, x: V, step: Step<V>, need: bool, a: Store<V>)
    requires !(need && HasCand(cfg) && m == cfg.candSrc && m in cfg.idx && !k.shortContext(m, step.pos))
    ensures RunSource(cfg, k, m, x, step, need, a).cand == a.cand
  {
  }

  /** The uncut model's candidate rows after layer m are those its source part wrote. */
  lemma {:induction false} LayerCand<V>(cfg: Config, k: Kernels<V>, m: nat, step: Step<V>, u: Store<V>)
    ensures Uncut(cfg, k, m + 1, step, u).st.cand ==
            RunSource(cfg, k, m, InputOf(cfg, k, m, step, u), step, true, Uncut(cfg, k, m, step, u).st).cand
  {
  }

  /** The top-k rows after the shadow of m, once the index shadow has run. */
  lemma ShadowLayerRows<V>(cfg: Config, k: Kernels<V>, n: nat, cuts: seq<nat>, r: nat, m: nat, x: V, step: Step<V>,
                           a: Store<V>, u: Store<V>)
    requires WellFormed(cfg, n) && Partition(cuts, n) && CutOk(cfg, cuts) && IsRank(cuts, r) && m < cuts[r]
    requires ShadowRel(cfg, k, cuts, r, m, step, a, u) && m in Needs(cfg, cuts, r) && TopkShadowRan(cfg, cuts, r, m + 1)
    ensures Rows(RunSource(cfg, k, m, x, step, Needs(cfg, cuts, r)[m], a).topk, step.n)
         == Rows(RunSource(cfg, k, m, x, step, true, Uncut(cfg, k, m, step, u).st).topk, step.n)
  {
    var topk := Shadowed(cfg, cfg.idx, cuts[r], cuts[r + 1]);
    var i :| i in topk && i < m + 1;
    OneTopkShadow(cfg, n, cuts[r], cuts[r + 1], i);
    if m == i {
      TopkShadow(cfg, k, n, cuts, r, m, x, step, a, u);
    } else {
      assert m !in cfg.idx;
    }
  }

  lemma ShadowStep<V>(cfg: Config, k: Kernels<V>, n: nat, cuts: seq<nat>, r: nat, m: nat, step: Step<V>,
                      src: map<nat, V>, a: Store<V>, u: Store<V>)
    requires WellFormed(cfg, n) && Partition(cuts, n) && CutOk(cfg, cuts) && IsRank(cuts, r) && m < cuts[r]
    requires Needs(cfg, cuts, r).Keys <= src.Keys
    requires forall s | s in src :: src[s] == InputOf(cfg, k, s, step, u)
    requires ShadowRel(cfg, k, cuts, r, m, step, a, u)
    ensures ShadowRel(cfg, k, cuts, r, m + 1, step, ShadowAt(cfg, k, Needs(cfg, cuts, r), m, src, step, a), u)
  {
    if m in Needs(cfg, cuts, r) {
      ShadowLayer(cfg, k, n, cuts, r, m, step, a, u);
    } else {
      SkipLayer(cfg, k, n, cuts, r, m, step, a, u);
    }
  }

  lemma {:induction false} ShadowsUnfold<V>(cfg: Config, k: Kernels<V>, needs: map<nat, bool>, m: nat,
                                           src: map<nat, V>, step: Step<V>, st: Store<V>)
    requires needs.Keys <= src.Keys
    ensures RunShadows(cfg, k, needs, m + 1, src, step, st)
         == ShadowAt(cfg, k, needs, m, src, step, RunShadows(cfg, k, needs, m, src, step, st))
  {
  }

  /** All shadows of a rank. */
  lemma {:induction false} ShadowsSim<V>(cfg: Config, k: Kernels<V>, n: nat, cuts: seq<nat>, r: nat, m: nat,
                                        step: Step<V>, src: map<nat, V>, st: Store<V>, u: Store<V>)
    requires WellFormed(cfg, n) && Partition(cuts, n) && CutOk(cfg, cuts) && IsRank(cuts, r) && m <= cuts[r]
    requires Needs(cfg, cuts, r).Keys <= src.Keys
    requires forall s | s in src :: src[s] == InputOf(cfg, k, s, step, u)
    requires ShadowRel(cfg, k, cuts, r, 0, step, st, u)
    ensures ShadowRel(cfg, k, cuts, r, m, step, RunShadows(cfg, k, Needs(cfg, cuts, r), m, src, step, st), u)
  {
    for i := 0 to m
      invariant ShadowRel(cfg, k, cuts, r, i, step, RunShadows(cfg, k, Needs(cfg, cuts, r), i, src, step, st), u)
    {
      ShadowStep(cfg, k, n, cuts, r, i, step, src, RunShadows(cfg, k, Needs(cfg, cuts, r), i, src, step, st), u);
      ShadowsUnfold(cfg, k, Needs(cfg, cuts, r), i, src, step, st);
    }
  }

  /** Where there are candidates, their buffer has room for the step. */
  ghost predicate CandRoom<V>(cfg: Config, step: Step<V>, u: Store<V>) {
    HasCand(cfg) ==> step.n <= |u.cand|
  }

  /** Writing rows never shrinks the candidate buffer. */
  lemma {:induction false} CandFits<V>(cfg: Config, k: Kernels<V>, l: nat, step: Step<V>, u: Store<V>)
    ensures |u.cand| <= |Uncut(cfg, k, l, step, u).st.cand|
  {
    if l > 0 {
      CandFits(cfg, k, l - 1, step, u);
    }
  }

  /** From received message and carried-over store to the start of the shadows. */
  lemma ReceiveSim<V>(cfg: Config, k: Kernels<V>, n: nat, cuts: seq<nat>, r: nat, step: Step<V>, msg: Message<V>,
                      st: Store<V>, u: Store<V>)
    requires WellFormed(cfg, n) && Partition(cuts, n) && CutOk(cfg, cuts) && IsRank(cuts, r) && CandRoom(cfg, step, u)
    requires RankOk(cfg, cuts, r, st, u) && MessageOk(cfg, k, cuts, r, step, u, msg)
    ensures ShadowRel(cfg, k, cuts, r, 0, step, Receive(cfg, cuts, r, msg, st), u)
  {
    CandFits(cfg, k, cuts[r], step, u);
    forall s: nat | s in cfg.kv && s in Needs(cfg, cuts, r)
      ensures Lookup(st.cache, s) == Lookup(u.cache, s)
    {
      assert Held(cfg, cuts, r, s);
    }
  }

  /** Receiving and running shadows leave the rank's own caches and unshadowed sources untouched. */
  lemma {:induction false} ShadowsFrame<V>(cfg: Config, k: Kernels<V>, needs: map<nat, bool>, m: nat,
                                           src: map<nat, V>, step: Step<V>, st: Store<V>, s: nat)
    requires needs.Keys <= src.Keys && m <= s
    ensures var q := RunShadows(cfg, k, needs, m, src, step, st);
            && q.own == st.own && Lookup(q.cache, s) == Lookup(st.cache, s)
            && (!HasCand(cfg) || m <= cfg.candSrc ==> q.cand == st.cand)
  {
    if m > 0 {
      ShadowsFrame(cfg, k, needs, m - 1, src, step, st, s);
    }
  }

  /** A local layer's or local source's entries are as the uncut run has them at the cut. */
  lemma LocalEntries<V>(cfg: Config, k: Kernels<V>, n: nat, cuts: seq<nat>, r: nat, step: Step<V>, msg: Message<V>,
                        st: Store<V>, u: Store<V>, s: nat)
    requires Partition(cuts, n) && IsRank(cuts, r) && RecvIds(cfg, cuts, r) <= msg.src.Keys
    requires cuts[r] <= s
    ensures var a, b := AfterShadows(cfg, k, cuts, r, step, msg, st), Uncut(cfg, k, cuts[r], step, u).st;
            SameAt(a, st, s) && SameAt(b, u, s)
  {
    ShadowsFrame(cfg, k, Needs(cfg, cuts, r), cuts[r], msg.src, step, Receive(cfg, cuts, r, msg, st), s);
    CachesStable(cfg, k, 0, cuts[r], step, u, s);
  }

  lemma StartCand<V>(cfg: Config, k: Kernels<V>, n: nat, cuts: seq<nat>, r: nat, step: Step<V>, msg: Message<V>,
                     st: Store<V>, u: Store<V>)
    requires Partition(cuts, n) && IsRank(cuts, r) && RecvIds(cfg, cuts, r) <= msg.src.Keys
    requires RankOk(cfg, cuts, r, st, u)
    requires ShadowCand(cfg, k, cuts, r, step, AfterShadows(cfg, k, cuts, r, step, msg, st), u)
    ensures SameCand(cfg, cuts, r, step.n, AfterShadows(cfg, k, cuts, r, step, msg, st),
      Uncut(cfg, k, cuts[r], step, u).st)
  {
    if HasCand(cfg) && cuts[r] <= cfg.candSrc {
      ShadowsFrame(cfg, k, Needs(cfg, cuts, r), cuts[r], msg.src, step, Receive(cfg, cuts, r, msg, st), cuts[r]);
      CandStable(cfg, k, 0, cuts[r], step, u);
    }
  }

  /** When its own layers start, a rank stands where the uncut run stands. */
  lemma StartSim<V>(cfg: Config, k: Kernels<V>, n: nat, cuts: seq<nat>, r: nat, step: Step<V>, msg: Message<V>,
                    st: Store<V>, u: Store<V>)
    requires WellFormed(cfg, n) && Partition(cuts, n) && CutOk(cfg, cuts) && IsRank(cuts, r) && CandRoom(cfg, step, u)
    requires RankOk(cfg, cuts, r, st, u) && MessageOk(cfg, k, cuts, r, step, u, msg)
    ensures InStep(cfg, k, cuts, r, cuts[r], step,
      Progress(msg.hidden, AfterShadows(cfg, k, cuts, r, step, msg, st), [], map[]), u)
  {
    var a, b := AfterShadows(cfg, k, cuts, r, step, msg, st), Uncut(cfg, k, cuts[r], step, u).st;
    ReceiveSim(cfg, k, n, cuts, r, step, msg, st, u);
    ShadowsSim(cfg, k, n, cuts, r, cuts[r], step, msg.src, Receive(cfg, cuts, r, msg, st), u);
    StartCand(cfg, k, n, cuts, r, step, msg, st, u);
    assert SameOwn(cuts, r, a, b) by {
      forall l: nat | cuts[r] <= l < cuts[r + 1]
        ensures Lookup(a.own, l) == Lookup(b.own, l)
      {
        LocalEntries(cfg, k, n, cuts, r, step, msg, st, u, l);
      }
    }
    assert SameCaches(cfg, cuts, r, a, b) by {
      forall s: nat | Held(cfg, cuts, r, s)
        ensures Lookup(a.cache, s) == Lookup(b.cache, s)
      {
        if cuts[r] <= s {
          LocalEntries(cfg, k, n, cuts, r, step, msg, st, u, s);
        }
      }
    }
    if HasTopkShadow(cfg, cuts, r) {
      var topk := Shadowed(cfg, cfg.idx, cuts[r], cuts[r + 1]);
      var i :| i in topk;
      OneTopkShadow(cfg, n, cuts[r], cuts[r + 1], i);
      assert TopkShadowRan(cfg, cuts, r, cuts[r]);
    }
  }

  /** Once a rank's layers have run, its store owes nothing to later layers of the step. */
  lemma RankDone<V>(cfg: Config, k: Kernels<V>, n: nat, cuts: seq<nat>, r: nat, step: Step<V>, p: Progress<V>,
                    u: Store<V>)
    requires Partition(cuts, n) && IsRank(cuts, r)
    requires InStep(cfg, k, cuts, r, cuts[r + 1], step, p, u)
    ensures RankOk(cfg, cuts, r, p.st, Uncut(cfg, k, n, step, u).st)
  {
    var b, c := Uncut(cfg, k, cuts[r + 1], step, u).st, Uncut(cfg, k, n, step, u).st;
    assert cuts[r + 1] <= n;
    forall l: nat | cuts[r] <= l < cuts[r + 1]
      ensures Lookup(p.st.own, l) == Lookup(c.own, l)
    {
      CachesStable(cfg, k, cuts[r + 1], n, step, u, l);
      assert Lookup(p.st.own, l) == Lookup(b.own, l);
    }
    NeedsAreEarlier(cfg, cuts, r);
    forall s: nat | Held(cfg, cuts, r, s)
      ensures Lookup(p.st.cache, s) == Lookup(c.cache, s)
    {
      CachesStable(cfg, k, cuts[r + 1], n, step, u, s);
    }
    if HasCand(cfg) && cfg.candSrc < cuts[r + 1] {
      CandStable(cfg, k, cuts[r + 1], n, step, u);
    }
  }

  /** A shipped source input is the owner's attention input, captured here or handed on. */
  lemma ShippedInput<V>(cfg: Config, k: Kernels<V>, cuts: seq<nat>, r: nat, step: Step<V>, msg: Message<V>,
                        p: Progress<V>, u: Store<V>, s: nat)
    requires IsRank(cuts, r) && OwnedShipIds(cfg, cuts, r) <= p.shipped.Keys
    requires MessageOk(cfg, k, cuts, r, step, u, msg)
    requires forall i | i in p.shipped :: p.shipped[i] == InputOf(cfg, k, i, step, u)
    requires s in ShipIds(cfg, cuts, r)
    ensures Shipment(cfg, cuts, r, step, msg, p).src[s] == InputOf(cfg, k, s, step, u)
  {
  }

  /** The candidate rows at the cut, on the owner and on every rank past it. */
  lemma ShippedCand<V>(cfg: Config, k: Kernels<V>, n: nat, cuts: seq<nat>, r: nat, step: Step<V>, p: Progress<V>,
                       u: Store<V>)
    requires Partition(cuts, n) && IsRank(cuts, r) && ShipCand(cfg, cuts, r)
    requires SameCand(cfg, cuts, r, step.n, p.st, Uncut(cfg, k, cuts[r + 1], step, u).st)
    ensures Rows(p.st.cand, step.n) == Rows(Uncut(cfg, k, cuts[r + 1], step, u).st.cand, step.n)
  {
  }

  /** What rank r ships is what rank r + 1 must receive. */
  lemma ShipOk<V>(cfg: Config, k: Kernels<V>, n: nat, cuts: seq<nat>, r: nat, step: Step<V>, msg: Message<V>,
                  p: Progress<V>, u: Store<V>)
    requires Partition(cuts, n) && IsRank(cuts, r) && IsRank(cuts, r + 1)
    requires MessageOk(cfg, k, cuts, r, step, u, msg)
    requires p.hidden == Uncut(cfg, k, cuts[r + 1], step, u).hidden
    requires SameCand(cfg, cuts, r, step.n, p.st, Uncut(cfg, k, cuts[r + 1], step, u).st)
    requires forall i | i in p.shipped :: p.shipped[i] == InputOf(cfg, k, i, step, u)
    requires OwnedShipIds(cfg, cuts, r) <= p.shipped.Keys
    ensures MessageOk(cfg, k, cuts, r + 1, step, u, Shipment(cfg, cuts, r, step, msg, p))
  {
    var out := Shipment(cfg, cuts, r, step, msg, p);
    forall s | s in out.src
      ensures out.src[s] == InputOf(cfg, k, s, step, u)
    {
      ShippedInput(cfg, k, cuts, r, step, msg, p, u, s);
    }
    if ShipCand(cfg, cuts, r) {
      ShippedCand(cfg, k, n, cuts, r, step, p, u);
    }
    assert out.src.Keys == RecvIds(cfg, cuts, r + 1) && (RecvCand(cfg, cuts, r + 1) ==> ShipCand(cfg, cuts, r)) by {
      RecvMatchesShip(cfg, n, cuts, r + 1);
    }
  }

  /** One rank of one step. */
  lemma RankSim<V>(cfg: Config, k: Kernels<V>, n: nat, cuts: seq<nat>, r: nat, step: Step<V>, msg: Message<V>,
                   st: Store<V>, u: Store<V>)
    requires WellFormed(cfg, n) && Partition(cuts, n) && CutOk(cfg, cuts) && IsRank(cuts, r) && CandRoom(cfg, step, u)
    requires RankOk(cfg, cuts, r, st, u) && MessageOk(cfg, k, cuts, r, step, u, msg)
    ensures InStep(cfg, k, cuts, r, cuts[r + 1], step, RankRun(cfg, k, cuts, r, step, msg, st), u)
  {
    StartSim(cfg, k, n, cuts, r, step, msg, st, u);
    LayersSim(cfg, k, n, cuts, r, cuts[r + 1], step, OwnedShipIds(cfg, cuts, r),
              Progress(msg.hidden, AfterShadows(cfg, k, cuts, r, step, msg, st), [], map[]), u);
  }

  /** The ranks below r have run: their stores are right, the message at the cut is right, the reads agree. */
  ghost predicate PipeOk<V>(cfg: Config, k: Kernels<V>, n: nat, cuts: seq<nat>, r: nat, step: Step<V>,
                            stores: seq<Store<V>>, p: Pipe<V>, u: Store<V>)
    requires Partition(cuts, n) && r < |cuts| && |stores| == |cuts| - 1 == |p.stores|
  {
    && (IsRank(cuts, r) ==> MessageOk(cfg, k, cuts, r, step, u, p.msg))
    && p.msg.hidden == Uncut(cfg, k, cuts[r], step, u).hidden
    && p.trace == Uncut(cfg, k, cuts[r], step, u).trace
    && (forall j | 0 <= j < r :: RankOk(cfg, cuts, j, p.stores[j], Uncut(cfg, k, n, step, u).st))
    && (forall j | r <= j < |stores| :: p.stores[j] == stores[j])
  }

  /** Rank r, run on a right pipe, leaves a right pipe. */
  lemma RankOnPipe<V>(cfg: Config, k: Kernels<V>, n: nat, cuts: seq<nat>, r: nat, step: Step<V>,
                      stores: seq<Store<V>>, p: Pipe<V>, u: Store<V>)
    requires WellFormed(cfg, n) && Partition(cuts, n) && CutOk(cfg, cuts) && IsRank(cuts, r)
    requires |stores| == |cuts| - 1 == |p.stores| && CandRoom(cfg, step, u) && AllOk(cfg, cuts, stores, u)
    requires PipeOk(cfg, k, n, cuts, r, step, stores, p, u)
    ensures PipeOk(cfg, k, n, cuts, r + 1, step, stores, PipeRank(cfg, k, cuts, r, step, p), u)
  {
    RankSim(cfg, k, n, cuts, r, step, p.msg, stores[r], u);
    var q := RankRun(cfg, k, cuts, r, step, p.msg, stores[r]);
    RankDone(cfg, k, n, cuts, r, step, q, u);
    if IsRank(cuts, r + 1) {
      ShipOk(cfg, k, n, cuts, r, step, p.msg, q, u);
    }
  }

  lemma {:induction false} PipeNext<V>(cfg: Config, k: Kernels<V>, n: nat, cuts: seq<nat>, r: nat, step: Step<V>,
                                      stores: seq<Store<V>>, u: Store<V>)
    requires WellFormed(cfg, n) && Partition(cuts, n) && CutOk(cfg, cuts) && IsRank(cuts, r) && |stores| == |cuts| - 1
    requires CandRoom(cfg, step, u) && AllOk(cfg, cuts, stores, u)
    requires PipeOk(cfg, k, n, cuts, r, step, stores, RunPipe(cfg, k, n, cuts, r, step, stores), u)
    ensures PipeOk(cfg, k, n, cuts, r + 1, step, stores, RunPipe(cfg, k, n, cuts, r + 1, step, stores), u)
  {
    RankOnPipe(cfg, k, n, cuts, r, step, stores, RunPipe(cfg, k, n, cuts, r, step, stores), u);
  }

  lemma PipeStart<V>(cfg: Config, k: Kernels<V>, n: nat, cuts: seq<nat>, step: Step<V>, stores: seq<Store<V>>,
                     u: Store<V>)
    requires Partition(cuts, n) && |stores| == |cuts| - 1
    ensures PipeOk(cfg, k, n, cuts, 0, step, stores, RunPipe(cfg, k, n, cuts, 0, step, stores), u)
  {
    FirstRankReceivesNothing(cfg, n, cuts);
  }

  lemma PipeSim<V>(cfg: Config, k: Kernels<V>, n: nat, cuts: seq<nat>, r: nat, step: Step<V>, stores: seq<Store<V>>,
                   u: Store<V>)
    requires WellFormed(cfg, n) && Partition(cuts, n) && CutOk(cfg, cuts) && r < |cuts| && |stores| == |cuts| - 1
    requires CandRoom(cfg, step, u)
    requires AllOk(cfg, cuts, stores, u)
    ensures PipeOk(cfg, k, n, cuts, r, step, stores, RunPipe(cfg, k, n, cuts, r, step, stores), u)
  {
    PipeStart(cfg, k, n, cuts, step, stores, u);
    for i := 0 to r
      invariant PipeOk(cfg, k, n, cuts, i, step, stores, RunPipe(cfg, k, n, cuts, i, step, stores), u)
    {
      PipeNext(cfg, k, n, cuts, i, step, stores, u);
    }
  }

  // ---------------------------------------------------------------- whole runs

  /** What a step delivers: the stream after the last layer and every read on the way. */
  datatype Output<V> = Output(hidden: V, trace: seq<Read<V>>)

  datatype UncutRun<V> = UncutRun(st: Store<V>, outs: seq<Output<V>>)

  function UncutSteps<V>(cfg: Config, k: Kernels<V>, n: nat, steps: seq<Step<V>>, u: Store<V>): UncutRun<V> {
    if steps == [] then UncutRun(u, [])
    else
      var before := UncutSteps(cfg, k, n, steps[..|steps| - 1], u);
      var p := Uncut(cfg, k, n, steps[|steps| - 1], before.st);
      UncutRun(p.st, before.outs + [Output(p.hidden, p.trace)])
  }

  datatype CutRun<V> = CutRun(stores: seq<Store<V>>, outs: seq<Output<V>>)

  function CutSteps<V>(cfg: Config, k: Kernels<V>, n: nat, cuts: seq<nat>, steps: seq<Step<V>>,
                       stores: seq<Store<V>>): (c: CutRun<V>)
    requires Partition(cuts, n) && |stores| == |cuts| - 1
    ensures |c.stores| == |stores|
  {
    if steps == [] then CutRun(stores, [])
    else
      var before := CutSteps(cfg, k, n, cuts, steps[..|steps| - 1], stores);
      var p := RunPipe(cfg, k, n, cuts, |cuts| - 1, steps[|steps| - 1], before.stores);
      CutRun(p.stores, before.outs + [Output(p.msg.hidden, p.trace)])
  }

  /** A pipe that is right at the last cut has the uncut model's outputs and stores. */
  lemma PipeEnd<V>(cfg: Config, k: Kernels<V>, n: nat, cuts: seq<nat>, step: Step<V>, stores: seq<Store<V>>,
                   p: Pipe<V>, u: Store<V>)
    requires Partition(cuts, n) && |stores| == |cuts| - 1 == |p.stores|
    requires PipeOk(cfg, k, n, cuts, |cuts| - 1, step, stores, p, u)
    ensures var q := Uncut(cfg, k, n, step, u);
            p.msg.hidden == q.hidden && p.trace == q.trace && AllOk(cfg, cuts, p.stores, q.st)
  {
  }

  /** One step of a whole run. */
  lemma {:induction false} StepEqual<V>(cfg: Config, k: Kernels<V>, n: nat, cuts: seq<nat>, step: Step<V>,
                                       stores: seq<Store<V>>, u: Store<V>)
    requires WellFormed(cfg, n) && Partition(cuts, n) && CutOk(cfg, cuts) && |stores| == |cuts| - 1
    requires CandRoom(cfg, step, u) && AllOk(cfg, cuts, stores, u)
    ensures var p, q := RunPipe(cfg, k, n, cuts, |cuts| - 1, step, stores), Uncut(cfg, k, n, step, u);
            && p.msg.hidden == q.hidden && p.trace == q.trace
            && AllOk(cfg, cuts, p.stores, q.st)
            && |u.cand| <= |q.st.cand|
  {
    PipeSim(cfg, k, n, cuts, |cuts| - 1, step, stores, u);
    PipeEnd(cfg, k, n, cuts, step, stores, RunPipe(cfg, k, n, cuts, |cuts| - 1, step, stores), u);
    CandFits(cfg, k, n, step, u);
  }

  /** Any cut that builds, any number of steps: every output and every read of a source cache, of top-k
      rows and of candidate rows is the uncut model's, and after each step every owned and shadowed cache
      equals its owner's. */
  lemma {:induction false} CutEqualsUncut<V>(cfg: Config, k: Kernels<V>, n: nat, cuts: seq<nat>, steps: seq<Step<V>>,
                                            stores: seq<Store<V>>, u: Store<V>)
    requires WellFormed(cfg, n) && Partition(cuts, n) && AllBuild(cfg, cuts) && |stores| == |cuts| - 1
    requires forall i | 0 <= i < |steps| :: CandRoom(cfg, steps[i], u)
    requires AllOk(cfg, cuts, stores, u)
    ensures CutSteps(cfg, k, n, cuts, steps, stores).outs == UncutSteps(cfg, k, n, steps, u).outs
    ensures AllOk(cfg, cuts, CutSteps(cfg, k, n, cuts, steps, stores).stores, UncutSteps(cfg, k, n, steps, u).st)
    ensures |UncutSteps(cfg, k, n, steps, u).st.cand| >= |u.cand|
  {
    if steps != [] {
      var last, rest := steps[|steps| - 1], steps[..|steps| - 1];
      CutEqualsUncut(cfg, k, n, cuts, rest, stores, u);
      var mid := UncutSteps(cfg, k, n, rest, u).st;
      assert CandRoom(cfg, last, u);
      BuildsExactly(cfg, n, cuts);
      StepEqual(cfg, k, n, cuts, last, CutSteps(cfg, k, n, cuts, rest, stores).stores, mid);
    }
  }

  // ---------------------------------------------------------------- the forward method

  /** The shadow loop over an explicit list of ids. */
  function RunList<V>(cfg: Config, k: Kernels<V>, needs: map<nat, bool>, ids: seq<nat>, src: map<nat, V>,
                      step: Step<V>, st: Store<V>)
    : Store<V>
    requires needs.Keys <= src.Keys
  {
    if ids == [] then st
    else ShadowAt(cfg, k, needs, ids[|ids| - 1], src, step, RunList(cfg, k, needs, ids[..|ids| - 1], src, step, st))
  }

  /** Walking the ascending list visits every shadow below m in order. */
  lemma {:induction false} ListRunsShadows<V>(cfg: Config, k: Kernels<V>, needs: map<nat, bool>, m: nat,
                                              src: map<nat, V>, step: Step<V>, st: Store<V>)
    requires needs.Keys <= src.Keys
    ensures RunList(cfg, k, needs, Ascending(needs.Keys, m), src, step, st)
      == RunShadows(cfg, k, needs, m, src, step, st)
  {
    for i := 0 to m
      invariant RunList(cfg, k, needs, Ascending(needs.Keys, i), src, step, st) ==
                RunShadows(cfg, k, needs, i, src, step, st)
    {
      ShadowsUnfold(cfg, k, needs, i, src, step, st);
      RunListSnoc(cfg, k, needs, Ascending(needs.Keys, i), i, src, step, st);
    }
  }

  lemma RunListSnoc<V>(cfg: Config, k: Kernels<V>, needs: map<nat, bool>, ids: seq<nat>, s: nat, src: map<nat, V>,
                       step: Step<V>, st: Store<V>)
    requires needs.Keys <= src.Keys
    ensures RunList(cfg, k, needs, ids + [s], src, step, st) ==
            ShadowAt(cfg, k, needs, s, src, step, RunList(cfg, k, needs, ids, src, step, st))
  {
    assert (ids + [s])[..|ids|] == ids;
  }

  /** The model's __init__ on a rank: plan, shadows, layers. It raises, here None, exactly when the rank does not
      build. */
  method BuildModel<V>(cfg: Config, k: Kernels<V>, n: nat, cuts: seq<nat>, rank: nat,
                       cache: map<nat, V>, own: map<nat, V>, topk: seq<V>, cand: seq<V>)
    returns (m: Option<ModelRank<V>>)
    requires SourcesExist(cfg, n) && Partition(cuts, n) && IsRank(cuts, rank)
    ensures m.Some? <==> Builds(cfg, cuts[rank], cuts[rank + 1])
    ensures m.Some? ==> fresh(m.value) && m.value.Valid() && m.value.State() == Store(cache, own, topk, cand)
    ensures m.Some? ==> m.value.cfg == cfg && m.value.k == k && m.value.n == n && m.value.cuts == cuts
    ensures m.Some? ==> m.value.rank == rank
  {
    var plan := MakePlan(cfg, n, cuts, rank);
    var built := BuildRank(cfg, plan.shadowIds, cuts[rank], cuts[rank + 1]);
    if built.None? {
      return None;
    }
    var rk := new ModelRank(cfg, k, n, cuts, rank, plan, cache, own, topk, cand);
    m := Some(rk);
  }

  /** One rank's model object: its plan and the buffers it updates in place. */
  class ModelRank<V> {
    const cfg: Config
    const k: Kernels<V>
    const n: nat
    const cuts: seq<nat>
    const rank: nat
    const plan: Plan
    var cache: map<nat, V>
    var own: map<nat, V>
    var topk: seq<V>
    var cand: seq<V>

    ghost predicate Valid()
      reads this
    {
      && Partition(cuts, n) && IsRank(cuts, rank) && plan == PlanOf(cfg, cuts, rank)
      && Builds(cfg, cuts[rank], cuts[rank + 1])
    }

    ghost function State(): Store<V>
      reads this
    {
      Store(cache, own, topk, cand)
    }

    /** The object once its modules are built; BuildModel is the way to it. */
    constructor (cfg: Config, k: Kernels<V>, n: nat, cuts: seq<nat>, rank: nat, plan: Plan,
                 cache: map<nat, V>, own: map<nat, V>, topk: seq<V>, cand: seq<V>)
      requires Partition(cuts, n) && IsRank(cuts, rank) && plan == PlanOf(cfg, cuts, rank)
      requires Builds(cfg, cuts[rank], cuts[rank + 1])
      ensures Valid() && State() == Store(cache, own, topk, cand)
      ensures this.cfg == cfg && this.k == k && this.n == n && this.cuts == cuts && this.rank == rank
    {
      this.cfg, this.k, this.n, this.cuts, this.rank, this.plan := cfg, k, n, cuts, rank, plan;
      this.cache, this.own, this.topk, this.cand := cache, own, topk, cand;
    }

    /** ShadowSource.run, and the same work inside a source layer. */
    method Publish(l: nat, x: V, step: Step<V>, needTopk: bool)
      modifies this
      ensures State() == RunSource(cfg, k, l, x, step, needTopk, old(State()))
    {
      if l in cfg.kv {
        cache := cache[l := k.cacheStep(l, x, step.pos, Lookup(cache, l))];
      }
      if l in cfg.idx {
        if k.shortContext(l, step.pos) {
          topk := Write(topk, FillRows(k, l, step));
        } else if needTopk {
          var kc := Lookup(cache, LastSource(cfg.kv, l));
          topk := Write(topk, TopkRows(k, l, x, step, kc, CandSeen(cfg, l, step.n, cand)));
          if HasCand(cfg) && l == cfg.candSrc {
            cand := Write(cand, CandRows(k, l, x, step, kc));
          }
        }
      }
    }

    /** The shadow loop over plan.shadow_ids. */
    method RunShadowSources(src: map<nat, V>, step: Step<V>)
      requires plan.shadowNeeds.Keys <= src.Keys
      requires forall s | s in plan.shadowIds :: s in plan.shadowNeeds
      modifies this
      ensures State() == RunList(cfg, k, plan.shadowNeeds, plan.shadowIds, src, step, old(State()))
    {
      var ids := plan.shadowIds;
      var i := 0;
      while i < |ids|
        invariant 0 <= i <= |ids|
        invariant State() == RunList(cfg, k, plan.shadowNeeds, ids[..i], src, step, old(State()))
      {
        RunListSnoc(cfg, k, plan.shadowNeeds, ids[..i], ids[i], src, step, old(State()));
        Publish(ids[i], src[ids[i]], step, plan.shadowNeeds[ids[i]]);
        assert ids[..i + 1] == ids[..i] + [ids[i]];
        i := i + 1;
      }
      assert ids[..i] == ids;
    }

    /** One decoder layer: capture the attention input if it ships, publish, attend. */
    method Layer(l: nat, hidden: V, step: Step<V>, ghost ship: set<nat>, ghost p: Progress<V>)
      returns (next: V, rd: Read<V>, x: V)
      requires p.hidden == hidden && p.st == State()
      modifies this
      ensures RunLayer(cfg, k, l, step, ship, p) ==
              Progress(next, State(), p.trace + [rd], if l in ship then p.shipped[l := x] else p.shipped)
    {
      x := k.attnInput(l, hidden);
      Publish(l, x, step, true);
      var kept := k.ownStep(l, x, step.pos, Lookup(own, l));
      rd := if Compressed(cfg, l)
        then Read(l, Lookup(cache, LastSource(cfg.kv, l)), Rows(topk, step.n), CandSeen(cfg, l, step.n, cand))
        else Read(l, None, [], []);
      own := own[l := kept];
      next := k.attend(l, hidden, x, step.pos, kept, rd.cache, rd.topk);
    }

    /** The layers of this rank, capturing the inputs in `owned`. */
    method LocalLayers(start: V, step: Step<V>, ghost owned: set<nat>)
      returns (hidden: V, trace: seq<Read<V>>, shipped: map<nat, V>)
      requires IsRank(cuts, rank) && cuts[rank] <= cuts[rank + 1]
      requires forall s: nat :: s in owned <==> s in plan.ownedShipIds
      modifies this
      ensures Progress(hidden, State(), trace, shipped) ==
              RunLayers(cfg, k, cuts[rank], cuts[rank + 1], step, owned, Progress(start, old(State()), [], map[]))
    {
      ghost var p0 := Progress(start, State(), [], map[]);
      hidden, trace, shipped := start, [], map[];
      var l := cuts[rank];
      while l < cuts[rank + 1]
        invariant cuts[rank] <= l <= cuts[rank + 1]
        invariant Progress(hidden, State(), trace, shipped) == RunLayers(cfg, k, cuts[rank], l, step, owned, p0)
      {
        ghost var p := RunLayers(cfg, k, cuts[rank], l, step, owned, p0);
        LayersUnfold(cfg, k, cuts[rank], l, step, owned, p0);
        var next, rd, x := Layer(l, hidden, step, owned, p);
        if l in plan.ownedShipIds {
          shipped := shipped[l := x];
        }
        hidden, trace, l := next, trace + [rd], l + 1;
      }
    }

    /** The `out` dictionary, key by key. */
    method Ship(received: map<nat, V>, shipped: map<nat, V>) returns (src: map<nat, V>)
      requires forall s | s in plan.shipIds :: if s in plan.ownedShipIds then s in shipped else s in received
      ensures src == map s | s in plan.shipIds :: if s in plan.ownedShipIds then shipped[s] else received[s]
    {
      src := map[];
      var i := 0;
      while i < |plan.shipIds|
        invariant 0 <= i <= |plan.shipIds|
        invariant src == map s | s in plan.shipIds[..i] :: if s in plan.ownedShipIds then shipped[s] else received[s]
      {
        var s := plan.shipIds[i];
        src := src[s := if s in plan.ownedShipIds then shipped[s] else received[s]];
        i := i + 1;
      }
    }

    /** Before the local layers: receive candidates, run the shadows. */
    method Receives(msg: Message<V>, step: Step<V>)
      requires Valid() && RecvIds(cfg, cuts, rank) <= msg.src.Keys
      modifies this
      ensures State() == AfterShadows(cfg, k, cuts, rank, step, msg, old(State()))
    {
      if plan.recvCand {
        cand := Write(cand, msg.cand);
      }
      ListRunsShadows(cfg, k, plan.shadowNeeds, cuts[rank], msg.src, step, State());
      RunShadowSources(msg.src, step);
    }

    /** Receive, shadow and run the local layers. */
    method Computes(msg: Message<V>, step: Step<V>) returns (hidden: V, trace: seq<Read<V>>, shipped: map<nat, V>)
      requires Valid() && RecvIds(cfg, cuts, rank) <= msg.src.Keys
      modifies this
      ensures Progress(hidden, State(), trace, shipped) == RankRun(cfg, k, cuts, rank, step, msg, old(State()))
    {
      PlanFacts(cfg, n, cuts, rank);
      Receives(msg, step);
      hidden, trace, shipped := LocalLayers(msg.hidden, step, OwnedShipIds(cfg, cuts, rank));
    }

    /** The inserted forward code: receive, shadow, run the local layers, ship. */
    method Forward(msg: Message<V>, step: Step<V>) returns (out: Message<V>, trace: seq<Read<V>>)
      requires Valid() && RecvIds(cfg, cuts, rank) <= msg.src.Keys
      modifies this
      ensures var p := RankRun(cfg, k, cuts, rank, step, msg, old(State()));
              State() == p.st && trace == p.trace && out == Shipment(cfg, cuts, rank, step, msg, p)
    {
      var hidden, seen, shipped := Computes(msg, step);
      trace := seen;
      ShipmentByPlan(cfg, n, cuts, rank, step, msg, Progress(hidden, State(), trace, shipped));
      var src := Ship(msg.src, shipped);
      out := Message(hidden, src, if plan.shipCand then Rows(cand, step.n) else []);
    }
  }

  /** The dictionary built from the plan's lists is the shipment. */
  lemma ShipmentByPlan<V>(cfg: Config, n: nat, cuts: seq<nat>, r: nat, step: Step<V>, msg: Message<V>, p: Progress<V>)
    requires Partition(cuts, n) && IsRank(cuts, r)
    requires OwnedShipIds(cfg, cuts, r) <= p.shipped.Keys && RecvIds(cfg, cuts, r) <= msg.src.Keys
    ensures var plan := PlanOf(cfg, cuts, r);
            && (forall s | s in plan.shipIds :: if s in plan.ownedShipIds then s in p.shipped else s in msg.src)
            && Shipment(cfg, cuts, r, step, msg, p).src ==
               map s | s in plan.shipIds :: if s in plan.ownedShipIds then p.shipped[s] else msg.src[s]
  {
    PlanFacts(cfg, n, cuts, r);
    assert forall s | s in PlanOf(cfg, cuts, r).shipIds :: s in ShipIds(cfg, cuts, r);
  }

  /** The plan's lists, as sets. */
  lemma PlanFacts(cfg: Config, n: nat, cuts: seq<nat>, r: nat)
    requires Partition(cuts, n) && IsRank(cuts, r)
    ensures var p := PlanOf(cfg, cuts, r);
            && (forall s: nat :: s in p.ownedShipIds <==> s in OwnedShipIds(cfg, cuts, r))
            && (forall s: nat :: s in p.shipIds <==> s in ShipIds(cfg, cuts, r))
            && p.shadowNeeds.Keys <= RecvIds(cfg, cuts, r)
            && ShipIds(cfg, cuts, r) <= OwnedShipIds(cfg, cuts, r) + RecvIds(cfg, cuts, r)
  {
    NeedsAreEarlier(cfg, cuts, r);
  }
}
