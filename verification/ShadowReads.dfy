/** What every layer reads in one step, told without the stores that carry it: the value its kv source wrote
    in this very step, the rows its index source published, the candidate source's rows
    (overlay/vllm/models/deepseek_v4_1/attention.py). */
module ShadowReads {
  import opened Common
  import opened ShadowPlan
  import opened ShadowBuild
  import opened ShadowRun

  /** The latest member of `ids` at or below l. */
  ghost predicate Latest(ids: seq<nat>, s: nat, l: nat) {
    s in ids && s <= l && forall t | t in ids && t <= l :: t <= s
  }

  lemma LatestIsLast(ids: seq<nat>, s: nat, l: nat)
    requires Latest(ids, s, l)
    ensures LastSource(ids, l) == s
  {
    LastSourceIsMax(ids, l);
  }

  /** The cache of kv source s as updated by this step. */
  ghost function CacheNow<V>(cfg: Config, k: Kernels<V>, s: nat, step: Step<V>, u: Store<V>): V {
    k.cacheStep(s, InputOf(cfg, k, s, step, u), step.pos, if s in u.cache then Some(u.cache[s]) else None)
  }

  /** What layer l finds as its source's cache. */
  ghost function SourceCache<V>(cfg: Config, k: Kernels<V>, l: nat, step: Step<V>, u: Store<V>): Option<V> {
    if s: nat :| Latest(cfg.kv, s, l) then Some(CacheNow(cfg, k, s, step, u)) else None
  }

  /** The candidate rows index source i scores with: those of the candidate source, for the sources after it. In a
      short context that source scores nothing, and the rows of an earlier step remain. */
  ghost function Candidates<V>(cfg: Config, k: Kernels<V>, i: nat, step: Step<V>, u: Store<V>): seq<V> {
    var c := cfg.candSrc;
    if cfg.candBlocks == 0 || c < 0 || i <= c then []
    else if c !in cfg.idx || k.shortContext(c, step.pos) then u.cand[..if step.n <= |u.cand| then step.n else |u.cand|]
    else
      seq(step.n, j => k.candRow(c, InputOf(cfg, k, c, step, u), step.pos, SourceCache(cfg, k, c, step, u), j))
  }

  /** The top-k rows index source i publishes. */
  ghost function Published<V>(cfg: Config, k: Kernels<V>, i: nat, step: Step<V>, u: Store<V>): seq<V> {
    if k.shortContext(i, step.pos) then seq(step.n, j => k.fillRow(i, step.pos, j))
    else
      var cand := Candidates(cfg, k, i, step, u);
      seq(step.n, j => k.topkRow(i, InputOf(cfg, k, i, step, u), step.pos, SourceCache(cfg, k, i, step, u), cand, j))
  }

  /** The read of layer l. */
  ghost predicate ReadsRight<V>(cfg: Config, k: Kernels<V>, l: nat, step: Step<V>, u: Store<V>, rd: Read<V>) {
    var shares := l < |cfg.ratios| && cfg.ratios[l] > 0;
    && rd.layer == l
    && (!shares ==> rd.cache == None && rd.topk == [] && rd.cand == [])
    && (shares ==>
          && (forall s: nat | Latest(cfg.kv, s, l) :: rd.cache == Some(CacheNow(cfg, k, s, step, u)))
          && (forall i: nat | Latest(cfg.idx, i, l) :: rd.topk == Published(cfg, k, i, step, u))
          && rd.cand == if l in cfg.idx then Candidates(cfg, k, l, step, u) else [])
  }

  // ---------------------------------------------------------------- the caches

  /** Right after its own layer a source's cache is the one of this step. */
  lemma {:induction false} CacheWritten<V>(cfg: Config, k: Kernels<V>, s: nat, step: Step<V>, u: Store<V>)
    requires s in cfg.kv
    ensures Lookup(Uncut(cfg, k, s + 1, step, u).st.cache, s) == Some(CacheNow(cfg, k, s, step, u))
  {
    CachesStable(cfg, k, 0, s, step, u, s);
  }

  /** And it stays so for the rest of the step. */
  lemma CacheAt<V>(cfg: Config, k: Kernels<V>, s: nat, l: nat, step: Step<V>, u: Store<V>)
    requires s in cfg.kv && s < l
    ensures Lookup(Uncut(cfg, k, l, step, u).st.cache, s) == Some(CacheNow(cfg, k, s, step, u))
  {
    CacheWritten(cfg, k, s, step, u);
    CachesStable(cfg, k, s + 1, l, step, u, s);
  }

  lemma SourceCacheIs<V>(cfg: Config, k: Kernels<V>, s: nat, l: nat, step: Step<V>, u: Store<V>)
    requires Latest(cfg.kv, s, l)
    ensures SourceCache(cfg, k, l, step, u) == Some(CacheNow(cfg, k, s, step, u))
  {
    var t: nat :| Latest(cfg.kv, t, l) && SourceCache(cfg, k, l, step, u) == Some(CacheNow(cfg, k, t, step, u));
    assert Latest(cfg.kv, t, l);
  }

  /** After layer l, the latest kv source at or below it has the cache of this step. */
  lemma SourceCacheAt<V>(cfg: Config, k: Kernels<V>, l: nat, step: Step<V>, u: Store<V>)
    ensures Lookup(Uncut(cfg, k, l + 1, step, u).st.cache, LastSource(cfg.kv, l)) == SourceCache(cfg, k, l, step, u)
  {
    LastSourceIsMax(cfg.kv, l);
    var s := LastSource(cfg.kv, l);
    if s >= 0 {
      SourceCacheIs(cfg, k, s, l, step, u);
      CacheAt(cfg, k, s, l + 1, step, u);
    }
  }

  /** A layer's publishing half leaves the caches that the layer leaves. */
  lemma {:induction false} LayerStores<V>(cfg: Config, k: Kernels<V>, l: nat, step: Step<V>, u: Store<V>)
    ensures var before, after := Uncut(cfg, k, l, step, u).st, Uncut(cfg, k, l + 1, step, u).st;
            after.(own := before.own) == RunSource(cfg, k, l, InputOf(cfg, k, l, step, u), step, true, before)
  {
  }

  // ---------------------------------------------------------------- candidate and top-k rows

  /** The candidate rows an index source finds. */
  lemma CandidatesAt<V>(cfg: Config, k: Kernels<V>, i: nat, step: Step<V>, u: Store<V>)
    requires i in cfg.idx
    ensures CandSeen(cfg, i, step.n, Uncut(cfg, k, i, step, u).st.cand) == Candidates(cfg, k, i, step, u)
  {
    if UsesCand(cfg, i) {
      var c: nat := cfg.candSrc;
      CandStable(cfg, k, c + 1, i, step, u);
      CandStable(cfg, k, 0, c, step, u);
      LayerStores(cfg, k, c, step, u);
      SourceCacheAt(cfg, k, c, step, u);
    }
  }

  /** After its own layer an index source's rows are in the top-k buffer. */
  lemma RowsPublished<V>(cfg: Config, k: Kernels<V>, i: nat, step: Step<V>, u: Store<V>)
    requires i in cfg.idx
    ensures Rows(Uncut(cfg, k, i + 1, step, u).st.topk, step.n) == Published(cfg, k, i, step, u)
  {
    LayerStores(cfg, k, i, step, u);
    SourceCacheAt(cfg, k, i, step, u);
    CandidatesAt(cfg, k, i, step, u);
  }

  /** Layers that are no index sources leave the top-k rows alone. */
  lemma TopkStable<V>(cfg: Config, k: Kernels<V>, lo: nat, hi: nat, step: Step<V>, u: Store<V>)
    requires lo <= hi && forall t | t in cfg.idx :: !(lo <= t < hi)
    ensures Uncut(cfg, k, hi, step, u).st.topk == Uncut(cfg, k, lo, step, u).st.topk
  {
    for m := lo to hi
      invariant Uncut(cfg, k, m, step, u).st.topk == Uncut(cfg, k, lo, step, u).st.topk
    {
      LayerStores(cfg, k, m, step, u);
    }
  }

  lemma TopkAt<V>(cfg: Config, k: Kernels<V>, i: nat, l: nat, step: Step<V>, u: Store<V>)
    requires Latest(cfg.idx, i, l)
    ensures Rows(Uncut(cfg, k, l + 1, step, u).st.topk, step.n) == Published(cfg, k, i, step, u)
  {
    RowsPublished(cfg, k, i, step, u);
    TopkStable(cfg, k, i + 1, l + 1, step, u);
  }

  // ---------------------------------------------------------------- the reads

  /** Layer l reads after its own publishing half. */
  lemma {:induction false} LastRead<V>(cfg: Config, k: Kernels<V>, l: nat, step: Step<V>, u: Store<V>)
    ensures Uncut(cfg, k, l + 1, step, u).trace ==
            Uncut(cfg, k, l, step, u).trace + [ReadAt(cfg, l, step.n, Uncut(cfg, k, l + 1, step, u).st)]
  {
  }

  lemma {:induction false} TraceAt<V>(cfg: Config, k: Kernels<V>, n: nat, step: Step<V>, u: Store<V>, l: nat)
    requires l < n
    ensures |Uncut(cfg, k, n, step, u).trace| == n
    ensures Uncut(cfg, k, n, step, u).trace[l] == ReadAt(cfg, l, step.n, Uncut(cfg, k, l + 1, step, u).st)
  {
    for m := 0 to n
      invariant |Uncut(cfg, k, m, step, u).trace| == m
      invariant l < m ==> Uncut(cfg, k, m, step, u).trace[l] == ReadAt(cfg, l, step.n, Uncut(cfg, k, l + 1, step, u).st)
    {
      LastRead(cfg, k, m, step, u);
    }
  }

  /** The candidate source writes its own rows and reads none; a later one reads what it found. */
  lemma CandRead<V>(cfg: Config, k: Kernels<V>, l: nat, step: Step<V>, u: Store<V>)
    requires l in cfg.idx
    ensures CandSeen(cfg, l, step.n, Uncut(cfg, k, l + 1, step, u).st.cand) == Candidates(cfg, k, l, step, u)
  {
    CandidatesAt(cfg, k, l, step, u);
    if UsesCand(cfg, l) {
      CandStable(cfg, k, l, l + 1, step, u);
    }
  }

  /** One step of the uncut model: every layer reads what its sources published in this step. */
  lemma UncutReads<V>(cfg: Config, k: Kernels<V>, n: nat, step: Step<V>, u: Store<V>, l: nat)
    requires l < n
    ensures |Uncut(cfg, k, n, step, u).trace| == n
    ensures ReadsRight(cfg, k, l, step, u, Uncut(cfg, k, n, step, u).trace[l])
  {
    TraceAt(cfg, k, n, step, u, l);
    SourceCacheAt(cfg, k, l, step, u);
    forall i: nat | Latest(cfg.idx, i, l)
      ensures Rows(Uncut(cfg, k, l + 1, step, u).st.topk, step.n) == Published(cfg, k, i, step, u)
    {
      TopkAt(cfg, k, i, l, step, u);
    }
    forall s: nat | Latest(cfg.kv, s, l)
      ensures SourceCache(cfg, k, l, step, u) == Some(CacheNow(cfg, k, s, step, u))
    {
      SourceCacheIs(cfg, k, s, l, step, u);
    }
    if l in cfg.idx {
      CandRead(cfg, k, l, step, u);
    }
  }

  /** The stream: layer l attends with its own window cache of this step and with exactly what it read. */
  lemma {:induction false} StreamAt<V>(cfg: Config, k: Kernels<V>, n: nat, step: Step<V>, u: Store<V>, l: nat)
    requires l < n
    ensures |Uncut(cfg, k, n, step, u).trace| == n
    ensures var rd, x := Uncut(cfg, k, n, step, u).trace[l], InputOf(cfg, k, l, step, u);
            Uncut(cfg, k, l + 1, step, u).hidden ==
            k.attend(l, Uncut(cfg, k, l, step, u).hidden, x, step.pos, k.ownStep(l, x, step.pos, Lookup(u.own, l)),
                     rd.cache, rd.topk)
  {
    TraceAt(cfg, k, n, step, u, l);
    CachesStable(cfg, k, 0, l, step, u, l);
  }

  /** What a step leaves behind: each kv source's cache of this step, each layer's own window cache of this step,
      and every other entry as it was. */
  lemma StoresAfter<V>(cfg: Config, k: Kernels<V>, n: nat, step: Step<V>, u: Store<V>, s: nat)
    ensures var st := Uncut(cfg, k, n, step, u).st;
            && Lookup(st.cache, s) ==
               (if s in cfg.kv && s < n then Some(CacheNow(cfg, k, s, step, u)) else Lookup(u.cache, s))
            && Lookup(st.own, s) ==
               if s < n then Some(k.ownStep(s, InputOf(cfg, k, s, step, u), step.pos, Lookup(u.own, s)))
               else Lookup(u.own, s)
  {
    if n <= s {
      CachesStable(cfg, k, 0, n, step, u, s);
    } else {
      CachesStable(cfg, k, 0, s, step, u, s);
      CachesStable(cfg, k, s + 1, n, step, u, s);
      OwnEntries(cfg, k, s, step, u);
    }
  }

  lemma {:induction false} OwnEntries<V>(cfg: Config, k: Kernels<V>, s: nat, step: Step<V>, u: Store<V>)
    requires SameAt(Uncut(cfg, k, s, step, u).st, u, s)
    ensures var st := Uncut(cfg, k, s + 1, step, u).st;
            && Lookup(st.own, s) == Some(k.ownStep(s, InputOf(cfg, k, s, step, u), step.pos, Lookup(u.own, s)))
            && Lookup(st.cache, s) == if s in cfg.kv then Some(CacheNow(cfg, k, s, step, u)) else Lookup(u.cache, s)
  {
  }

  // ---------------------------------------------------------------- whole runs, cut anywhere

  /** Output t of an uncut run is that of step t from the store the earlier steps left. */
  lemma {:induction false} OutputAt<V>(cfg: Config, k: Kernels<V>, n: nat, steps: seq<Step<V>>, u: Store<V>, t: nat)
    requires t < |steps|
    ensures var run := UncutSteps(cfg, k, n, steps, u);
            |run.outs| == |steps| &&
            var p := Uncut(cfg, k, n, steps[t], UncutSteps(cfg, k, n, steps[..t], u).st);
            run.outs[t] == Output(p.hidden, p.trace)
    decreases |steps|
  {
    var rest := steps[..|steps| - 1];
    if t < |rest| {
      OutputAt(cfg, k, n, rest, u, t);
      assert rest[..t] == steps[..t];
    } else if rest != [] {
      OutputAt(cfg, k, n, rest, u, 0);
    }
  }

  /** Any cut that builds, any run, any step, any layer: it reads what its sources published in that step. */
  lemma CutReads<V>(cfg: Config, k: Kernels<V>, n: nat, cuts: seq<nat>, steps: seq<Step<V>>, stores: seq<Store<V>>,
                    u: Store<V>, t: nat, l: nat)
    requires WellFormed(cfg, n) && Partition(cuts, n) && AllBuild(cfg, cuts) && |stores| == |cuts| - 1
    requires forall i | 0 <= i < |steps| :: CandRoom(cfg, steps[i], u)
    requires AllOk(cfg, cuts, stores, u)
    requires t < |steps| && l < n
    ensures var outs := CutSteps(cfg, k, n, cuts, steps, stores).outs;
            && |outs| == |steps| && |outs[t].trace| == n
            && ReadsRight(cfg, k, l, steps[t], UncutSteps(cfg, k, n, steps[..t], u).st, outs[t].trace[l])
  {
    CutEqualsUncut(cfg, k, n, cuts, steps, stores, u);
    OutputAt(cfg, k, n, steps, u, t);
    UncutReads(cfg, k, n, steps[t], UncutSteps(cfg, k, n, steps[..t], u).st, l);
  }
}
