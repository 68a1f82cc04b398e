/** Which earlier layers a pipeline rank must shadow, and which tensors travel
    between ranks (overlay/hybrid/pp_shadow.py).

    A rank owns the layers [start, end).  A layer with a positive compress
    ratio reads the caches of the last kv source at or below it and the top-k
    rows published by the last index source at or below it.  When such a source
    lives on an earlier rank, the rank runs a shadow of it. */
module ShadowPlan {

  datatype Config = Config(
    ratios: seq<nat>,   // compress_ratios
    kv: seq<nat>,       // kv_source_layer_ids
    idx: seq<nat>,      // index_source_layer_ids
    candSrc: int,       // candidate_source_layer_id, negative when absent
    candBlocks: nat)    // candidate_topk_blocks

  predicate Compressed(cfg: Config, l: nat) {
    l < |cfg.ratios| && cfg.ratios[l] != 0
  }

  predicate HasCand(cfg: Config) {
    cfg.candSrc >= 0 && cfg.candBlocks > 0
  }

  /** An indexer masks its scores with the candidate blocks when it sits after their source. */
  predicate UsesCand(cfg: Config, l: nat) {
    HasCand(cfg) && cfg.candSrc < l
  }

  /** The largest id at or below `l`; -1 stands for the empty `max` that Python rejects. */
  function LastSource(ids: seq<nat>, l: nat): (r: int)
    ensures -1 <= r <= l
  {
    if l in ids then l else if l == 0 then -1 else LastSource(ids, l - 1)
  }

  /** It is the maximum: a member at or below `l`, with no member in between. */
  lemma LastSourceIsMax(ids: seq<nat>, l: nat)
    ensures LastSource(ids, l) >= 0 ==> LastSource(ids, l) in ids
    ensures forall s {:trigger s in ids} | s in ids && s <= l :: s <= LastSource(ids, l)
  {
  }

  /** A compressed layer has a kv source and an index source at or below it. */
  ghost predicate HasSources(cfg: Config, l: nat) {
    Compressed(cfg, l) ==> LastSource(cfg.kv, l) >= 0 && LastSource(cfg.idx, l) >= 0
  }

  ghost predicate SourcesExist(cfg: Config, n: nat) {
    forall l: nat | l < n :: HasSources(cfg, l)
  }

  /** What the model demands of its configuration. */
  ghost predicate WellFormed(cfg: Config, n: nat) {
    && SourcesExist(cfg, n)
    && (forall s | s in cfg.idx && s < n :: Compressed(cfg, s))
    && (HasCand(cfg) ==> cfg.candSrc in cfg.idx)
  }

  ghost predicate KvAreIndex(cfg: Config) {
    forall s | s in cfg.kv :: s in cfg.idx
  }

  /** The earlier members of `ids` that compressed layers of [start, end) read from. */
  function Shadowed(cfg: Config, ids: seq<nat>, start: nat, end: nat): set<nat>
    decreases end
  {
    if end <= start then {}
    else
      var rest := Shadowed(cfg, ids, start, end - 1);
      var s := LastSource(ids, end - 1);
      if Compressed(cfg, end - 1) && 0 <= s < start then rest + {s} else rest
  }

  /** `s` lives before `start` and is the last of `ids` at or below some compressed layer of [start, end). */
  ghost predicate ReadFrom(cfg: Config, ids: seq<nat>, start: nat, end: nat, s: nat) {
    s < start && exists l: nat {:trigger Compressed(cfg, l)} | start <= l < end ::
      Compressed(cfg, l) && LastSource(ids, l) == s
  }

  /** Shadowed collects exactly the sources read across the cut. */
  lemma {:induction false} ShadowedIff(cfg: Config, ids: seq<nat>, start: nat, end: nat, s: nat)
    ensures s in Shadowed(cfg, ids, start, end) <==> ReadFrom(cfg, ids, start, end, s)
    ensures s in Shadowed(cfg, ids, start, end) ==> s in ids && s < start
    decreases end
  {
    if start < end {
      ShadowedIff(cfg, ids, start, end - 1, s);
      LastSourceIsMax(ids, end - 1);
      if ReadFrom(cfg, ids, start, end - 1, s) {
        var l: nat :| start <= l < end - 1 && Compressed(cfg, l) && LastSource(ids, l) == s;
        assert start <= l < end;
      }
    }
  }

  /** Every shadowed source, marked with whether its top-k rows are needed. */
  function NeedsMap(kv: set<nat>, topk: set<nat>): map<nat, bool> {
    map s | s in kv + topk :: s in topk
  }

  /** {source -> needs_topk}, stated directly. */
  function ShadowNeeds(cfg: Config, start: nat, end: nat): map<nat, bool> {
    NeedsMap(Shadowed(cfg, cfg.kv, start, end), Shadowed(cfg, cfg.idx, start, end))
  }

  lemma AddKv(kv: set<nat>, topk: set<nat>, k: nat)
    ensures NeedsMap(kv + {k}, topk) == var m := NeedsMap(kv, topk); if k in m then m else m[k := false]
  {
  }

  lemma AddTopk(kv: set<nat>, topk: set<nat>, i: nat)
    ensures NeedsMap(kv, topk + {i}) == NeedsMap(kv, topk)[i := true]
  {
  }

  /** A compressed layer enters its kv source without top-k unless present, then its index source with it. */
  lemma NeedsGrow(cfg: Config, start: nat, layer: nat, k: nat, i: nat)
    requires start <= layer && Compressed(cfg, layer)
    requires k == LastSource(cfg.kv, layer) && i == LastSource(cfg.idx, layer)
    ensures var m := ShadowNeeds(cfg, start, layer);
            var m' := if k < start && k !in m then m[k := false] else m;
            ShadowNeeds(cfg, start, layer + 1) == if i < start then m'[i := true] else m'
  {
    var kv, topk := Shadowed(cfg, cfg.kv, start, layer), Shadowed(cfg, cfg.idx, start, layer);
    AddKv(kv, topk, k);
    AddTopk(if k < start then kv + {k} else kv, topk, i);
  }

  /** shadow_needs_for: the dictionary filled layer by layer. */
  method ShadowNeedsFor(cfg: Config, start: nat, end: nat) returns (needed: map<nat, bool>)
    requires start <= end && SourcesExist(cfg, end)
    ensures needed == ShadowNeeds(cfg, start, end)
  {
    needed := map[];
    var layer := start;
    while layer < end
      invariant start <= layer <= end
      invariant needed == ShadowNeeds(cfg, start, layer)
    {
      assert HasSources(cfg, layer);
      if Compressed(cfg, layer) {
        var kvSrc: nat := LastSource(cfg.kv, layer);
        var idxSrc: nat := LastSource(cfg.idx, layer);
        NeedsGrow(cfg, start, layer, kvSrc, idxSrc);
        if kvSrc < start && kvSrc !in needed {
          needed := needed[kvSrc := false];
        }
        if idxSrc < start {
          needed := needed[idxSrc := true];
        }
      }
      layer := layer + 1;
    }
  }

  /** The members of `ids` below `n`, ascending: Python's `sorted`. */
  function Ascending(ids: set<nat>, n: nat): (r: seq<nat>)
    ensures forall s: nat :: s in r <==> s in ids && s < n
  {
    if n == 0 then []
    else
      var rest := Ascending(ids, n - 1);
      if n - 1 in ids then rest + [n - 1] else rest
  }

  lemma {:induction false} AscendingSorted(ids: set<nat>, n: nat)
    ensures forall i, j | 0 <= i < j < |Ascending(ids, n)| :: Ascending(ids, n)[i] < Ascending(ids, n)[j]
  {
    if n > 0 {
      AscendingSorted(ids, n - 1);
      var rest := Ascending(ids, n - 1);
      assert forall i | 0 <= i < |rest| :: rest[i] in rest;
    }
  }

  /** Rank ranges: contiguous and non-empty, covering [0, n). */
  ghost predicate Partition(cuts: seq<nat>, n: nat) {
    && |cuts| >= 2 && cuts[0] == 0 && cuts[|cuts| - 1] == n
    && forall i, j | 0 <= i < j < |cuts| :: cuts[i] < cuts[j]
  }

  predicate IsRank(cuts: seq<nat>, r: nat) {
    r + 1 < |cuts|
  }

  function Needs(cfg: Config, cuts: seq<nat>, r: nat): map<nat, bool>
    requires IsRank(cuts, r)
  {
    ShadowNeeds(cfg, cuts[r], cuts[r + 1])
  }

  /** Sources some rank after `r` shadows. */
  function LaterNeeds(cfg: Config, cuts: seq<nat>, r: nat): set<nat>
    requires IsRank(cuts, r)
    decreases |cuts| - r
  {
    if !IsRank(cuts, r + 1) then {} else Needs(cfg, cuts, r + 1).Keys + LaterNeeds(cfg, cuts, r + 1)
  }

  function ShipIds(cfg: Config, cuts: seq<nat>, r: nat): set<nat>
    requires IsRank(cuts, r)
  {
    set s | s in LaterNeeds(cfg, cuts, r) && s < cuts[r + 1]
  }

  function OwnedShipIds(cfg: Config, cuts: seq<nat>, r: nat): set<nat>
    requires IsRank(cuts, r)
  {
    set s | s in ShipIds(cfg, cuts, r) && cuts[r] <= s
  }

  function RecvIds(cfg: Config, cuts: seq<nat>, r: nat): set<nat>
    requires IsRank(cuts, r)
  {
    Needs(cfg, cuts, r).Keys + set s | s in ShipIds(cfg, cuts, r) && s < cuts[r]
  }

  predicate ShipCand(cfg: Config, cuts: seq<nat>, r: nat)
    requires IsRank(cuts, r)
  {
    HasCand(cfg) && cfg.candSrc < cuts[r + 1] &&
    exists e: nat | r + 1 < e < |cuts| :: cuts[e] > cfg.candSrc + 1
  }

  predicate RecvCand(cfg: Config, cuts: seq<nat>, r: nat)
    requires IsRank(cuts, r)
  {
    HasCand(cfg) && cuts[r] > cfg.candSrc
  }

  /** The fields PPShadowPlan sets once and never updates. */
  datatype Plan = Plan(
    shadowNeeds: map<nat, bool>, shadowIds: seq<nat>, shipIds: seq<nat>, ownedShipIds: seq<nat>,
    recvIds: seq<nat>, shipCand: bool, recvCand: bool)

  ghost function PlanOf(cfg: Config, cuts: seq<nat>, r: nat): Plan
    requires IsRank(cuts, r)
  {
    var hi := cuts[r + 1];
    Plan(Needs(cfg, cuts, r), Ascending(Needs(cfg, cuts, r).Keys, cuts[r]), Ascending(ShipIds(cfg, cuts, r), hi),
         Ascending(OwnedShipIds(cfg, cuts, r), hi), Ascending(RecvIds(cfg, cuts, r), hi),
         ShipCand(cfg, cuts, r), RecvCand(cfg, cuts, r))
  }

  method LaterNeedsFor(cfg: Config, n: nat, cuts: seq<nat>, rank: nat) returns (later: set<nat>)
    requires SourcesExist(cfg, n) && Partition(cuts, n) && IsRank(cuts, rank)
    ensures later == LaterNeeds(cfg, cuts, rank)
  {
    later := {};
    var j := rank + 1;
    while j < |cuts| - 1
      invariant rank < j <= |cuts| - 1
      invariant later + LaterNeeds(cfg, cuts, j - 1) == LaterNeeds(cfg, cuts, rank)
    {
      var more := ShadowNeedsFor(cfg, cuts[j], cuts[j + 1]);
      later := later + more.Keys;
      j := j + 1;
    }
  }

  /** No source of any kind lies before layer 0. */
  lemma FirstRankShadowsNothing(cfg: Config, ids: seq<nat>, end: nat)
    ensures Shadowed(cfg, ids, 0, end) == {}
  {
  }

  /** PPShadowPlan.__init__ */
  method MakePlan(cfg: Config, n: nat, cuts: seq<nat>, rank: nat) returns (p: Plan)
    requires SourcesExist(cfg, n) && Partition(cuts, n) && IsRank(cuts, rank)
    ensures p == PlanOf(cfg, cuts, rank)
  {
    var start, end := cuts[rank], cuts[rank + 1];
    var needs: map<nat, bool> := map[];
    if rank > 0 {
      needs := ShadowNeedsFor(cfg, start, end);
    } else {
      FirstRankShadowsNothing(cfg, cfg.kv, end);
      FirstRankShadowsNothing(cfg, cfg.idx, end);
    }
    var later := LaterNeedsFor(cfg, n, cuts, rank);
    var ship := set s | s in later && s < end;
    var owned := set s | s in ship && start <= s;
    var recv := needs.Keys + set s | s in ship && s < start;
    assert needs == Needs(cfg, cuts, rank);
    assert ship == ShipIds(cfg, cuts, rank);
    assert owned == OwnedShipIds(cfg, cuts, rank);
    assert recv == RecvIds(cfg, cuts, rank);
    p := Plan(needs, Ascending(needs.Keys, start), Ascending(ship, end), Ascending(owned, end), Ascending(recv, end),
              HasCand(cfg) && cfg.candSrc < end && exists e: nat | rank + 1 < e < |cuts| :: cuts[e] > cfg.candSrc + 1,
              HasCand(cfg) && start > cfg.candSrc);
  }

  /** What a rank shadows lives before it. */
  lemma NeedsAreEarlier(cfg: Config, cuts: seq<nat>, r: nat)
    requires IsRank(cuts, r)
    ensures forall s | s in Needs(cfg, cuts, r) :: s < cuts[r]
  {
    forall s | s in Needs(cfg, cuts, r)
      ensures s < cuts[r]
    {
      ShadowedIff(cfg, cfg.kv, cuts[r], cuts[r + 1], s);
      ShadowedIff(cfg, cfg.idx, cuts[r], cuts[r + 1], s);
    }
  }

  /** What a rank expects is exactly what its predecessor ships; what it ships
      it either owns or was sent; nothing it expects is produced at or after its start. */
  lemma RecvMatchesShip(cfg: Config, n: nat, cuts: seq<nat>, r: nat)
    requires Partition(cuts, n) && IsRank(cuts, r) && r > 0
    ensures RecvIds(cfg, cuts, r) == ShipIds(cfg, cuts, r - 1)
    ensures RecvCand(cfg, cuts, r) <==> ShipCand(cfg, cuts, r - 1)
    ensures ShipIds(cfg, cuts, r) <= OwnedShipIds(cfg, cuts, r) + RecvIds(cfg, cuts, r)
    ensures forall s | s in RecvIds(cfg, cuts, r) :: s < cuts[r]
  {
    NeedsAreEarlier(cfg, cuts, r);
    if RecvCand(cfg, cuts, r) {
      assert cuts[r + 1] > cuts[r];
    }
  }

  /** Some compressed layer of rank q reads source s from an earlier rank. */
  ghost predicate ReadOn(cfg: Config, cuts: seq<nat>, q: nat, s: nat)
    requires IsRank(cuts, q)
  {
    ReadFrom(cfg, cfg.kv, cuts[q], cuts[q + 1], s) || ReadFrom(cfg, cfg.idx, cuts[q], cuts[q + 1], s)
  }

  /** A rank ships exactly the sources up to its end that some later rank reads across its cut: none that nobody
      needs, and none missing. */
  lemma {:induction false} ShipIff(cfg: Config, cuts: seq<nat>, r: nat, s: nat)
    requires IsRank(cuts, r)
    ensures s in LaterNeeds(cfg, cuts, r) <==> exists q: nat | r < q && IsRank(cuts, q) :: ReadOn(cfg, cuts, q, s)
    ensures s in ShipIds(cfg, cuts, r) <==>
            s < cuts[r + 1] && exists q: nat | r < q && IsRank(cuts, q) :: ReadOn(cfg, cuts, q, s)
    decreases |cuts| - r
  {
    if IsRank(cuts, r + 1) {
      ShipIff(cfg, cuts, r + 1, s);
      ShadowedIff(cfg, cfg.kv, cuts[r + 1], cuts[r + 2], s);
      ShadowedIff(cfg, cfg.idx, cuts[r + 1], cuts[r + 2], s);
      assert s in Needs(cfg, cuts, r + 1) <==> ReadOn(cfg, cuts, r + 1, s);
    }
  }

  /** Candidates travel from the rank of their source on, over every cut behind it. */
  lemma CandTravels(cfg: Config, n: nat, cuts: seq<nat>, r: nat)
    requires Partition(cuts, n) && IsRank(cuts, r)
    ensures ShipCand(cfg, cuts, r) <==>
            cfg.candBlocks > 0 && 0 <= cfg.candSrc < cuts[r + 1] && IsRank(cuts, r + 1)
    ensures RecvCand(cfg, cuts, r) <==> cfg.candBlocks > 0 && 0 <= cfg.candSrc < cuts[r]
  {
    if IsRank(cuts, r + 1) {
      assert cuts[r + 2] > cuts[r + 1];
    }
  }

  /** The first rank shadows and receives nothing. */
  lemma FirstRankReceivesNothing(cfg: Config, n: nat, cuts: seq<nat>)
    requires Partition(cuts, n)
    ensures RecvIds(cfg, cuts, 0) == {} && !RecvCand(cfg, cuts, 0)
  {
    FirstRankShadowsNothing(cfg, cfg.kv, cuts[1]);
    FirstRankShadowsNothing(cfg, cfg.idx, cuts[1]);
  }

  /** A rank shadows at most one index source for its top-k, and no index source lies between it and the rank. */
  lemma OneTopkShadow(cfg: Config, n: nat, start: nat, end: nat, i: nat)
    requires WellFormed(cfg, n) && start <= end <= n
    requires i in Shadowed(cfg, cfg.idx, start, end)
    ensures i < start && i in cfg.idx && LastSource(cfg.kv, i) >= 0
    ensures forall j | j in cfg.idx && i < j :: start <= j
    ensures forall s | s in ShadowNeeds(cfg, start, end) :: ShadowNeeds(cfg, start, end)[s] <==> s == i
  {
    ShadowedIff(cfg, cfg.idx, start, end, i);
    var l: nat :| start <= l < end && Compressed(cfg, l) && LastSource(cfg.idx, l) == i;
    LastSourceIsMax(cfg.idx, l);
    assert HasSources(cfg, i);
    forall s | s in ShadowNeeds(cfg, start, end)
      ensures ShadowNeeds(cfg, start, end)[s] <==> s == i
    {
      ShadowedIff(cfg, cfg.idx, start, end, s);
      if s in Shadowed(cfg, cfg.idx, start, end) {
        var l': nat :| start <= l' < end && Compressed(cfg, l') && LastSource(cfg.idx, l') == s;
        LastSourceIsMax(cfg.idx, l');
      }
    }
  }

  /** When every kv source is an index source, no shadow lies above the one that replays the top-k,
      and the writer of its K cache is shadowed too: the ascending order runs the writer first. */
  lemma TopkShadowIsLast(cfg: Config, n: nat, start: nat, end: nat, i: nat, s: nat)
    requires WellFormed(cfg, n) && KvAreIndex(cfg) && start <= end <= n
    requires i in Shadowed(cfg, cfg.idx, start, end)
    requires s in ShadowNeeds(cfg, start, end)
    ensures s <= i < start && i in cfg.idx
    ensures ShadowNeeds(cfg, start, end)[s] <==> s == i
    ensures LastSource(cfg.kv, i) >= 0 && LastSource(cfg.kv, i) in Shadowed(cfg, cfg.kv, start, end)
  {
    OneTopkShadow(cfg, n, start, end, i);
    ShadowedIff(cfg, cfg.idx, start, end, i);
    ShadowedIff(cfg, cfg.idx, start, end, s);
    ShadowedIff(cfg, cfg.kv, start, end, s);
    var l: nat :| start <= l < end && Compressed(cfg, l) && LastSource(cfg.idx, l) == i;
    LastSourceIsMax(cfg.idx, l);
    LastSourceIsMax(cfg.kv, l);
    LastSourceIsMax(cfg.kv, i);
    assert HasSources(cfg, l);
    assert LastSource(cfg.kv, l) == LastSource(cfg.kv, i);
    ShadowedIff(cfg, cfg.kv, start, end, LastSource(cfg.kv, l));
  }

  /** The rank that replays a top-k holds the K cache the replay reads. */
  ghost predicate KCacheHeld(cfg: Config, start: nat, end: nat) {
    forall i | i in Shadowed(cfg, cfg.idx, start, end) :: LastSource(cfg.kv, i) in ShadowNeeds(cfg, start, end)
  }

  /** The same from the configuration: a shadowed index source is itself a kv source, or no kv source
      sits after it and at or below the rank's first compressed layer l0. */
  ghost predicate KCacheNear(cfg: Config, l0: nat, i: nat) {
    i in cfg.kv || forall s | s in cfg.kv :: !(i < s <= l0)
  }

  /** The K cache an index shadow replays from is on the rank exactly when that condition holds. */
  lemma KCacheAtHand(cfg: Config, start: nat, end: nat, l0: nat, i: nat)
    requires start <= l0 < end && Compressed(cfg, l0)
    requires forall l: nat {:trigger Compressed(cfg, l)} | start <= l < l0 :: !Compressed(cfg, l)
    requires LastSource(cfg.idx, l0) == i < start && LastSource(cfg.kv, i) >= 0
    ensures LastSource(cfg.kv, i) in ShadowNeeds(cfg, start, end) <==> KCacheNear(cfg, l0, i)
  {
    var kc: nat := LastSource(cfg.kv, i);
    ShadowedIff(cfg, cfg.kv, start, end, kc);
    ShadowedIff(cfg, cfg.idx, start, end, kc);
    ShadowedIff(cfg, cfg.idx, start, end, i);
    LastSourceIsMax(cfg.kv, i);
    LastSourceIsMax(cfg.kv, l0);
    LastSourceIsMax(cfg.idx, l0);
    if kc in Shadowed(cfg, cfg.kv, start, end) {
      var l: nat :| start <= l < end && Compressed(cfg, l) && LastSource(cfg.kv, l) == kc;
      LastSourceIsMax(cfg.kv, l);
      assert l0 <= l;
    }
    if kc in Shadowed(cfg, cfg.idx, start, end) {
      var l: nat :| start <= l < end && Compressed(cfg, l) && LastSource(cfg.idx, l) == kc;
      LastSourceIsMax(cfg.idx, l);
      assert l0 <= l;
    }
  }

  /** Index source 1 is shadowed, but kv source 2 hides the writer 0 of its K cache. */
  lemma KCacheMissing()
    ensures var cfg := Config([1, 1, 1, 1], [0, 2], [0, 1], -1, 0);
            && WellFormed(cfg, 4) && 1 in Shadowed(cfg, cfg.idx, 3, 4)
            && LastSource(cfg.kv, 1) == 0 && 0 !in ShadowNeeds(cfg, 3, 4) && !KCacheHeld(cfg, 3, 4)
  {
    var cfg := Config([1, 1, 1, 1], [0, 2], [0, 1], -1, 0);
    assert LastSource(cfg.idx, 0) == 0 && LastSource(cfg.idx, 1) == 1;
    assert LastSource(cfg.idx, 2) == 1;
    assert LastSource(cfg.idx, 3) == 1;
    assert LastSource(cfg.kv, 0) == 0 && LastSource(cfg.kv, 2) == 2;
    assert LastSource(cfg.kv, 1) == 0 && LastSource(cfg.kv, 3) == 2;
    assert Shadowed(cfg, cfg.idx, 3, 3) == {} && Shadowed(cfg, cfg.kv, 3, 3) == {};
    assert Shadowed(cfg, cfg.idx, 3, 4) == {1} && Shadowed(cfg, cfg.kv, 3, 4) == {2};
  }

  /** Every rank holds the K caches its replays read. */
  ghost predicate CutOk(cfg: Config, cuts: seq<nat>) {
    forall r: nat | IsRank(cuts, r) :: KCacheHeld(cfg, cuts[r], cuts[r + 1])
  }

  /** With kv sources among the index sources that is so for every cut. */
  lemma KvAreIndexCutOk(cfg: Config, n: nat, cuts: seq<nat>)
    requires WellFormed(cfg, n) && KvAreIndex(cfg) && Partition(cuts, n)
    ensures CutOk(cfg, cuts)
  {
    forall r: nat, i | IsRank(cuts, r) && i in Shadowed(cfg, cfg.idx, cuts[r], cuts[r + 1])
      ensures LastSource(cfg.kv, i) in ShadowNeeds(cfg, cuts[r], cuts[r + 1])
    {
      assert cuts[r] < cuts[r + 1] <= n;
      TopkShadowIsLast(cfg, n, cuts[r], cuts[r + 1], i, i);
    }
  }

  // ---------------------------------------------------------------- declared tensors

  /** make_empty_intermediate_tensors declares every expected id, and candidates when they are expected or shipped. */
  ghost predicate DeclaresCand(cfg: Config, cuts: seq<nat>, r: nat)
    requires IsRank(cuts, r)
  {
    ShipCand(cfg, cuts, r) || RecvCand(cfg, cuts, r)
  }

  /** The declared candidates are what the previous rank sends except on the candidate source's own rank when it is
      neither first nor last: there they are declared and not sent. */
  lemma DeclaredMatchesSent(cfg: Config, n: nat, cuts: seq<nat>, r: nat)
    requires Partition(cuts, n) && IsRank(cuts, r) && r > 0
    ensures (DeclaresCand(cfg, cuts, r) <==> ShipCand(cfg, cuts, r - 1)) <==>
            !(HasCand(cfg) && cuts[r] <= cfg.candSrc < cuts[r + 1] && IsRank(cuts, r + 1))
    ensures ShipCand(cfg, cuts, r - 1) ==> DeclaresCand(cfg, cuts, r)
  {
    RecvMatchesShip(cfg, n, cuts, r);
    if IsRank(cuts, r + 1) {
      assert cuts[r + 2] > cuts[r + 1];
    }
  }

  /** Three ranks of one layer, candidates from layer 1: its rank declares candidates that layer 0 does not send. */
  lemma DeclaredNotSent()
    ensures var cfg, cuts := Config([1, 1, 1], [0], [0, 1], 1, 8), [0, 1, 2, 3];
            && WellFormed(cfg, 3) && Partition(cuts, 3) && IsRank(cuts, 1)
            && DeclaresCand(cfg, cuts, 1) && !ShipCand(cfg, cuts, 0)
  {
    var cfg, cuts := Config([1, 1, 1], [0], [0, 1], 1, 8), [0, 1, 2, 3];
    assert LastSource(cfg.kv, 0) == 0 && LastSource(cfg.idx, 0) == 0;
    assert LastSource(cfg.kv, 1) == 0 && LastSource(cfg.idx, 1) == 1;
    assert LastSource(cfg.kv, 2) == 0 && LastSource(cfg.idx, 2) == 1;
    assert cuts[3] > cfg.candSrc + 1;
  }
}
