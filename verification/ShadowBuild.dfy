/** Which ranks can be built at all (overlay/vllm/models/deepseek_v4_1/attention.py and nvidia/model.py).

    A rank constructs its shadows in ascending order and then its own layers.  Each attention module
    registers itself and, as an indexer that owns keys, its K cache; a module that reads another
    layer's cache looks it up among what is registered and refuses to be built when it is missing. */
module ShadowBuild {
  import opened Common
  import opened ShadowPlan

  /** What static_forward_context holds: attention modules and indexer K caches, by layer. */
  datatype Registry = Registry(attns: set<nat>, kCaches: set<nat>)

  /** Layer l, a shadow or a rank's own, can be built beside the layers `on` the rank. */
  ghost predicate Fits(cfg: Config, l: nat, on: set<nat>) {
    && (Compressed(cfg, l) ==> cfg.ratios[l] <= 2)
    && HasSources(cfg, l)
    && (l in cfg.idx && l !in cfg.kv ==> Compressed(cfg, l) && SourceIn(cfg, l, on) && LastSource(cfg.kv, l) in cfg.idx)
    && (Compressed(cfg, l) && l !in cfg.kv ==> SourceIn(cfg, l, on))
  }

  ghost predicate SourceIn(cfg: Config, l: nat, on: set<nat>) {
    LastSource(cfg.kv, l) in on
  }

  /** The layers a rank constructs. */
  ghost function OnRank(cfg: Config, start: nat, end: nat): set<nat> {
    ShadowNeeds(cfg, start, end).Keys + set l: nat | l < end && IsOwn(start, l)
  }

  predicate IsOwn(start: nat, l: nat) {
    start <= l
  }

  /** Every layer of the rank can be built. */
  ghost predicate Builds(cfg: Config, start: nat, end: nat) {
    forall l | l in OnRank(cfg, start, end) :: Fits(cfg, l, OnRank(cfg, start, end))
  }

  ghost predicate AllBuild(cfg: Config, cuts: seq<nat>) {
    forall r: nat | IsRank(cuts, r) :: Builds(cfg, cuts[r], cuts[r + 1])
  }

  /** What the uncut model demands of layer l: a ratio the compressor knows, sources to read from, and keys to
      search: an index source without keys of its own shares those of a kv source that has an indexer. */
  ghost predicate Supported(cfg: Config, l: nat) {
    var compressed := l < |cfg.ratios| && cfg.ratios[l] > 0;
    && (compressed ==> cfg.ratios[l] <= 2)
    && (compressed ==> (exists s | s in cfg.kv :: s <= l) && exists i | i in cfg.idx :: i <= l)
    && (l in cfg.idx && l !in cfg.kv ==>
          compressed && exists s | s in cfg.kv && s in cfg.idx && s <= l :: forall t | t in cfg.kv && t <= l :: t <= s)
  }

  /** The uncut model builds exactly when every layer is supported. */
  lemma UncutBuilds(cfg: Config, n: nat)
    ensures Builds(cfg, 0, n) <==> forall l: nat | l < n :: Supported(cfg, l)
  {
    FirstRankShadowsNothing(cfg, cfg.kv, n);
    FirstRankShadowsNothing(cfg, cfg.idx, n);
    var on := OnRank(cfg, 0, n);
    forall l: nat | l < n
      ensures l in on && (Fits(cfg, l, on) <==> Supported(cfg, l))
    {
      assert IsOwn(0, l);
      LayerSupported(cfg, l, n, on);
    }
    assert forall l | l in on :: l < n;
  }

  lemma LayerSupported(cfg: Config, l: nat, n: nat, on: set<nat>)
    requires l < n && forall s: nat :: s in on <==> s < n
    ensures Fits(cfg, l, on) <==> Supported(cfg, l)
  {
    LastSourceIsMax(cfg.kv, l);
    LastSourceIsMax(cfg.idx, l);
  }

  // ---------------------------------------------------------------- the construction

  /** The constructor of one attention module: None is an exception. */
  function BuildOne(cfg: Config, reg: Registry, l: nat): Option<Registry> {
    if Compressed(cfg, l) && (cfg.ratios[l] > 2 || LastSource(cfg.kv, l) < 0 || LastSource(cfg.idx, l) < 0) then None
    else
      var reg1 := reg.(attns := reg.attns + {l});
      if l in cfg.idx && l !in cfg.kv && (!Compressed(cfg, l) || LastSource(cfg.kv, l) !in reg1.kCaches) then None
      else
        var reg2 := if l in cfg.idx && l in cfg.kv then reg1.(kCaches := reg1.kCaches + {l}) else reg1;
        if Compressed(cfg, l) && l !in cfg.kv && LastSource(cfg.kv, l) !in reg2.attns then None else Some(reg2)
  }

  /** Registered so far: the built layers, and the K caches of those that are kv and index sources. */
  ghost predicate Registered(cfg: Config, ids: seq<nat>, reg: Registry) {
    && (forall s: nat :: s in reg.attns <==> s in ids)
    && (forall s: nat :: s in reg.kCaches <==> s in ids && s in cfg.kv && s in cfg.idx)
  }

  ghost predicate StrictlyAscending(ids: seq<nat>) {
    forall i, j | 0 <= i < j < |ids| :: ids[i] < ids[j]
  }

  ghost function Members(ids: seq<nat>): (on: set<nat>)
    ensures forall l: nat :: l in on <==> l in ids
  {
    set l | l in ids
  }

  /** A module finds what it looks up exactly when it is anywhere on the rank: its source comes before it, and so
      does the source's turn. */
  lemma OneFits(cfg: Config, ids: seq<nat>, i: nat, reg: Registry)
    requires StrictlyAscending(ids) && i < |ids| && Registered(cfg, ids[..i], reg)
    ensures BuildOne(cfg, reg, ids[i]).Some? <==> Fits(cfg, ids[i], Members(ids))
    ensures BuildOne(cfg, reg, ids[i]).Some? ==> Registered(cfg, ids[..i + 1], BuildOne(cfg, reg, ids[i]).value)
  {
    var l := ids[i];
    assert ids[..i + 1] == ids[..i] + [l];
    LastSourceIsMax(cfg.kv, l);
    if l !in cfg.kv && LastSource(cfg.kv, l) >= 0 {
      EarlierOnRank(ids, i, LastSource(cfg.kv, l));
    }
  }

  lemma EarlierOnRank(ids: seq<nat>, i: nat, s: nat)
    requires StrictlyAscending(ids) && i < |ids| && s < ids[i]
    ensures s in ids <==> s in ids[..i]
  {
    if s in ids {
      var j :| 0 <= j < |ids| && ids[j] == s;
      assert ids[..i][j] == s;
    }
  }

  /** All modules of an ascending list. */
  method BuildList(cfg: Config, ids: seq<nat>) returns (r: Option<Registry>)
    requires StrictlyAscending(ids)
    ensures r.Some? <==> forall l | l in ids :: Fits(cfg, l, Members(ids))
    ensures r.Some? ==> Registered(cfg, ids, r.value)
  {
    var reg := Registry({}, {});
    for i := 0 to |ids|
      invariant Registered(cfg, ids[..i], reg)
      invariant forall j | 0 <= j < i :: Fits(cfg, ids[j], Members(ids))
    {
      OneFits(cfg, ids, i, reg);
      var next := BuildOne(cfg, reg, ids[i]);
      if next.None? {
        return None;
      }
      reg := next.value;
    }
    assert ids[..|ids|] == ids;
    r := Some(reg);
  }

  method Range(start: nat, end: nat) returns (ids: seq<nat>)
    requires start <= end
    ensures StrictlyAscending(ids) && forall l: nat :: l in ids <==> start <= l < end
  {
    ids := [];
    for l := start to end
      invariant |ids| == l - start && forall i | 0 <= i < |ids| :: ids[i] == start + i
      invariant forall s: nat :: s in ids <==> start <= s < l
    {
      ids := ids + [l];
    }
  }

  /** The model constructor of a rank: shadows in ascending order, then its own layers. It succeeds exactly when the
      rank builds, and then everything on the rank is registered. */
  method BuildRank(cfg: Config, shadowIds: seq<nat>, start: nat, end: nat) returns (r: Option<Registry>)
    requires start <= end && shadowIds == Ascending(ShadowNeeds(cfg, start, end).Keys, start)
    ensures r.Some? <==> Builds(cfg, start, end)
    ensures r.Some? ==> forall s: nat :: s in r.value.attns <==> s in OnRank(cfg, start, end)
  {
    var own := Range(start, end);
    var ids := shadowIds + own;
    ShadowsFirst(cfg, start, end, shadowIds, own);
    assert Members(ids) == OnRank(cfg, start, end);
    r := BuildList(cfg, ids);
  }

  lemma ShadowsFirst(cfg: Config, start: nat, end: nat, shadowIds: seq<nat>, own: seq<nat>)
    requires shadowIds == Ascending(ShadowNeeds(cfg, start, end).Keys, start)
    requires StrictlyAscending(own) && forall l: nat :: l in own <==> start <= l < end
    ensures StrictlyAscending(shadowIds + own)
    ensures forall l: nat :: l in shadowIds + own <==> l in OnRank(cfg, start, end)
  {
    AscendingSorted(ShadowNeeds(cfg, start, end).Keys, start);
    forall s: nat
      ensures s in ShadowNeeds(cfg, start, end) ==> s < start
    {
      ShadowedIff(cfg, cfg.kv, start, end, s);
      ShadowedIff(cfg, cfg.idx, start, end, s);
    }
    forall i, j | 0 <= i < j < |shadowIds + own|
      ensures (shadowIds + own)[i] < (shadowIds + own)[j]
    {
      if i < |shadowIds| <= j {
        assert shadowIds[i] in shadowIds && own[j - |shadowIds|] in own;
      }
    }
  }

  // ---------------------------------------------------------------- which cuts build

  /** The uncut model has every layer and no shadow. */
  lemma UncutRank(cfg: Config, n: nat, l: nat)
    ensures l in OnRank(cfg, 0, n) <==> l < n
  {
    FirstRankShadowsNothing(cfg, cfg.kv, n);
    FirstRankShadowsNothing(cfg, cfg.idx, n);
  }

  /** A rank that builds holds the K caches it replays from. */
  lemma BuiltRankHolds(cfg: Config, start: nat, end: nat)
    requires Builds(cfg, start, end)
    ensures KCacheHeld(cfg, start, end)
  {
    forall i | i in Shadowed(cfg, cfg.idx, start, end)
      ensures LastSource(cfg.kv, i) in ShadowNeeds(cfg, start, end)
    {
      ShadowedIff(cfg, cfg.idx, start, end, i);
      LastSourceIsMax(cfg.kv, i);
      assert i in OnRank(cfg, start, end);
      assert Fits(cfg, i, OnRank(cfg, start, end));
    }
  }

  /** A rank's own layers and the kv sources it shadows always find what they read; the index source it replays does
      when its K cache is held. */
  lemma HeldRankBuilds(cfg: Config, n: nat, start: nat, end: nat)
    requires WellFormed(cfg, n) && Builds(cfg, 0, n) && start <= end <= n && KCacheHeld(cfg, start, end)
    ensures Builds(cfg, start, end)
  {
    var on := OnRank(cfg, start, end);
    forall l | l in on
      ensures Fits(cfg, l, on)
    {
      LayerBuilds(cfg, n, start, end, l);
    }
  }

  lemma LayerBuilds(cfg: Config, n: nat, start: nat, end: nat, l: nat)
    requires WellFormed(cfg, n) && Builds(cfg, 0, n) && start <= end <= n && KCacheHeld(cfg, start, end)
    requires l in OnRank(cfg, start, end)
    ensures Fits(cfg, l, OnRank(cfg, start, end))
  {
    ShadowedIff(cfg, cfg.kv, start, end, l);
    ShadowedIff(cfg, cfg.idx, start, end, l);
    UncutRank(cfg, n, l);
    assert Fits(cfg, l, OnRank(cfg, 0, n));
    if l !in cfg.kv && Compressed(cfg, l) && start <= l {
      var kc := LastSource(cfg.kv, l);
      if kc < start {
        ShadowedIff(cfg, cfg.kv, start, end, kc);
      }
    }
  }

  /** A cut builds, rank by rank, if and only if the uncut model does and every rank holds the K caches it replays
      from. */
  lemma BuildsExactly(cfg: Config, n: nat, cuts: seq<nat>)
    requires WellFormed(cfg, n) && Partition(cuts, n)
    ensures AllBuild(cfg, cuts) <==> Builds(cfg, 0, n) && CutOk(cfg, cuts)
  {
    if AllBuild(cfg, cuts) {
      BuiltCutBuildsUncut(cfg, n, cuts);
      forall r: nat | IsRank(cuts, r)
        ensures KCacheHeld(cfg, cuts[r], cuts[r + 1])
      {
        BuiltRankHolds(cfg, cuts[r], cuts[r + 1]);
      }
    }
    if Builds(cfg, 0, n) && CutOk(cfg, cuts) {
      forall r: nat | IsRank(cuts, r)
        ensures Builds(cfg, cuts[r], cuts[r + 1])
      {
        assert cuts[r] < cuts[r + 1] <= n;
        HeldRankBuilds(cfg, n, cuts[r], cuts[r + 1]);
      }
    }
  }

  lemma BuiltCutBuildsUncut(cfg: Config, n: nat, cuts: seq<nat>)
    requires Partition(cuts, n) && AllBuild(cfg, cuts)
    ensures Builds(cfg, 0, n)
  {
    forall l | l in OnRank(cfg, 0, n)
      ensures Fits(cfg, l, OnRank(cfg, 0, n))
    {
      UncutRank(cfg, n, l);
      var r := RankOf(cuts, n, |cuts| - 1, l);
      assert Builds(cfg, cuts[r], cuts[r + 1]) && l in OnRank(cfg, cuts[r], cuts[r + 1]);
      assert Fits(cfg, l, OnRank(cfg, cuts[r], cuts[r + 1]));
      LastSourceIsMax(cfg.kv, l);
      if LastSource(cfg.kv, l) >= 0 {
        UncutRank(cfg, n, LastSource(cfg.kv, l));
      }
    }
  }

  /** The rank that owns layer l. */
  lemma {:induction false} RankOf(cuts: seq<nat>, n: nat, m: nat, l: nat) returns (r: nat)
    requires Partition(cuts, n) && 0 < m < |cuts| && l < cuts[m]
    ensures IsRank(cuts, r) && cuts[r] <= l < cuts[r + 1]
  {
    if cuts[m - 1] <= l {
      r := m - 1;
    } else {
      r := RankOf(cuts, n, m - 1, l);
    }
  }

  /** With kv sources among the index sources, a model that builds uncut builds under every cut. */
  lemma KvAreIndexBuilds(cfg: Config, n: nat, cuts: seq<nat>)
    requires WellFormed(cfg, n) && KvAreIndex(cfg) && Partition(cuts, n) && Builds(cfg, 0, n)
    ensures AllBuild(cfg, cuts)
  {
    KvAreIndexCutOk(cfg, n, cuts);
    BuildsExactly(cfg, n, cuts);
  }

  /** Otherwise a cut can be refused: index source 1 is shadowed on the last rank, but kv source 2 hides the writer 0
      of its K cache. The uncut model builds. */
  lemma CutRefused()
    ensures var cfg := Config([1, 1, 1, 1], [0, 2], [0, 1], -1, 0);
            WellFormed(cfg, 4) && Builds(cfg, 0, 4) && !Builds(cfg, 3, 4)
  {
    var cfg := Config([1, 1, 1, 1], [0, 2], [0, 1], -1, 0);
    KCacheMissing();
    assert LastSource(cfg.idx, 0) == 0 && LastSource(cfg.idx, 1) == 1;
    assert LastSource(cfg.idx, 2) == 1;
    assert LastSource(cfg.idx, 3) == 1;
    assert LastSource(cfg.kv, 0) == 0 && LastSource(cfg.kv, 2) == 2;
    assert LastSource(cfg.kv, 1) == 0 && LastSource(cfg.kv, 3) == 2;
    forall l | l in OnRank(cfg, 0, 4)
      ensures Fits(cfg, l, OnRank(cfg, 0, 4))
    {
      UncutRank(cfg, 4, l);
      assert l == 0 || l == 1 || l == 2 || l == 3;
    }
    if Builds(cfg, 3, 4) {
      BuiltRankHolds(cfg, 3, 4);
    }
  }
}
