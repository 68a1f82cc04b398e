/** CUDA-graph dispatch keys for uniform decode steps of any query length up to K + 1
    (overlay/vllm/v1/cudagraph_dispatcher.py with the families of overlay/patch_full_q1.py
    and overlay/patch_full_qall.py), without LoRA and in FULL_AND_PIECEWISE mode. */
module GraphKeys {

  /** queryLen is K + 1; families is off when DSV41_FULL_Q1 is not "1". */
  datatype Config = Config(sizes: seq<nat>, maxSeqs: nat, queryLen: nat, families: bool)

  ghost predicate ConfigOk(c: Config) {
    && |c.sizes| > 0 && c.sizes[0] > 0 && c.maxSeqs > 0 && c.queryLen > 0
    && forall i, j | 0 <= i < j < |c.sizes| :: c.sizes[i] < c.sizes[j]
  }

  function Largest(c: Config): nat
    requires |c.sizes| > 0
  {
    c.sizes[|c.sizes| - 1]
  }

  /** A batch descriptor; a relaxed one has no request count. */
  datatype Desc = Desc(tokens: nat, reqs: int, uniform: bool)

  datatype Mode = Full | Piecewise | Eager

  function Times(a: nat, b: nat): nat {
    a * b
  }

  // ---------------------------------------------------------------- arithmetic

  lemma Quotient(x: nat, q: nat)
    requires q > 0 && x % q == 0
    ensures x / q >= 0 && Times(q, x / q) == x
  {
  }

  lemma QuotientBack(q: nat, r: nat, x: nat)
    requires q > 0 && Times(q, r) == x
    ensures x % q == 0 && x / q == r
  {
    var k, m := x / q, x % q;
    assert x == q * k + m;
    var e := r - k;
    assert q * e == m;
    assert e >= 1 ==> q * e >= q;
    assert e <= -1 ==> q * e <= 0 - q;
  }

  lemma Cancel(a: nat, b: nat, m: nat)
    ensures a <= b ==> Times(a, m) <= Times(b, m)
    ensures a < b && m > 0 ==> Times(a, m) < Times(b, m)
  {
  }

  lemma Commutes(a: nat, b: nat)
    ensures Times(a, b) == Times(b, a)
  {
  }

  // ---------------------------------------------------------------- padding

  /** The smallest capture size that is at least n. */
  ghost predicate IsNext(c: Config, n: nat, p: nat) {
    p in c.sizes && n <= p && forall s | s in c.sizes && n <= s :: p <= s
  }

  /** The smallest capture size that is at least n and a multiple of q. */
  ghost predicate IsNextMultiple(c: Config, n: nat, q: nat, p: nat)
    requires q > 0
  {
    p in c.sizes && n <= p && p % q == 0 && forall s | s in c.sizes && n <= s && s % q == 0 :: p <= s
  }

  ghost predicate TableOk(c: Config, table: seq<nat>)
    requires |c.sizes| > 0
  {
    && |table| == Largest(c) + 1
    && forall n: nat | 0 < n < |table| :: IsNext(c, n, table[n])
  }

  lemma NextInGap(c: Config, i: nat, n: nat)
    requires ConfigOk(c) && i < |c.sizes| && n <= c.sizes[i] && (i > 0 ==> c.sizes[i - 1] < n)
    ensures IsNext(c, n, c.sizes[i])
  {
    forall s | s in c.sizes && n <= s
      ensures c.sizes[i] <= s
    {
      var j :| 0 <= j < |c.sizes| && c.sizes[j] == s;
      assert j < i ==> j <= i - 1;
    }
  }

  /** _compute_bs_to_padded_graph_size */
  method PaddedSizes(c: Config) returns (table: array<nat>)
    requires ConfigOk(c)
    ensures fresh(table) && TableOk(c, table[..])
  {
    table := new nat[Largest(c) + 1](_ => 0);
    var start := 0;
    for i := 0 to |c.sizes|
      invariant start == if i == 0 then 0 else c.sizes[i - 1]
      invariant forall n: nat | 0 < n < start :: n < table.Length && IsNext(c, n, table[n])
    {
      var end := c.sizes[i];
      assert end <= Largest(c);
      assert start < end;
      for bs := start to end
        invariant forall n: nat | 0 < n < bs :: IsNext(c, n, table[n])
      {
        if bs > 0 {
          if bs == start {
            NextInGap(c, i - 1, bs);
          } else {
            NextInGap(c, i, bs);
          }
        }
        table[bs] := if bs == start then start else end;
      }
      start := end;
    }
    NextInGap(c, |c.sizes| - 1, start);
    table[start] := start;
  }

  /** The candidates' first element: the first size from i on that is a multiple of q and at least n. */
  function FirstMultiple(sizes: seq<nat>, n: nat, q: nat, i: nat): (k: nat)
    requires q > 0 && i <= |sizes|
    ensures i <= k <= |sizes|
    ensures k < |sizes| ==> n <= sizes[k] && sizes[k] % q == 0
    ensures forall j | i <= j < k :: !(n <= sizes[j] && sizes[j] % q == 0)
    decreases |sizes| - i
  {
    if i == |sizes| || (n <= sizes[i] && sizes[i] % q == 0) then i else FirstMultiple(sizes, n, q, i + 1)
  }

  function Min(a: nat, b: nat): nat {
    if a <= b then a else b
  }

  /** _create_padded_batch_descriptor for a uniform step of query length q. */
  function UniformDesc(c: Config, table: seq<nat>, n: nat, q: nat): Desc
    requires n < |table| && q > 0
  {
    if table[n] % q == 0 then Desc(table[n], Min(Div(table[n], q), c.maxSeqs), true)
    else
      var k := FirstMultiple(c.sizes, n, q, 0);
      if k < |c.sizes| then Desc(c.sizes[k], Min(Div(c.sizes[k], q), c.maxSeqs), true)
      else MixedDesc(c, table, n)
  }

  function MixedDesc(c: Config, table: seq<nat>, n: nat): Desc
    requires n < |table|
  {
    Desc(table[n], Min(table[n], c.maxSeqs), false)
  }

  function Div(a: nat, b: nat): (d: nat)
    requires b > 0
    ensures d == a / b
  {
    assert a / b >= 0;
    a / b
  }

  function Relaxed(d: Desc): Desc {
    Desc(d.tokens, -1, false)
  }

  /** Whichever branch picks it, a uniform descriptor holds the smallest fitting multiple of q, if there is one. */
  lemma UniformPadding(c: Config, table: seq<nat>, n: nat, q: nat)
    requires ConfigOk(c) && TableOk(c, table) && 0 < n < |table| && q > 0
    ensures var d := UniformDesc(c, table, n, q);
            if d.uniform then IsNextMultiple(c, n, q, d.tokens) && d.reqs == Min(d.tokens / q, c.maxSeqs)
            else IsNext(c, n, d.tokens) && forall s | s in c.sizes && n <= s :: s % q != 0
  {
    assert IsNext(c, n, table[n]);
    var k := FirstMultiple(c.sizes, n, q, 0);
    forall s | s in c.sizes && n <= s && s % q == 0
      ensures k < |c.sizes| && c.sizes[k] <= s
    {
      var j :| 0 <= j < |c.sizes| && c.sizes[j] == s;
      assert j >= k;
      assert j > k ==> c.sizes[k] < c.sizes[j];
    }
  }

  // ---------------------------------------------------------------- the captured keys

  /** A key of family q: q tokens for each of at most maxSeqs requests. */
  ghost predicate FamilyKey(c: Config, d: Desc, q: nat) {
    d.uniform && d.tokens in c.sizes && 0 <= d.reqs <= c.maxSeqs && Times(q, d.reqs) == d.tokens
  }

  predicate HasFamily(c: Config, q: nat) {
    0 < q <= c.queryLen && (q == c.queryLen || c.families)
  }

  ghost predicate KeysOk(c: Config, full: set<Desc>, piecewise: set<Desc>) {
    && (forall d :: d in full <==> exists q: nat :: HasFamily(c, q) && FamilyKey(c, d, q))
    && (forall d :: d in piecewise <==> d.tokens in c.sizes && d.reqs == -1 && !d.uniform)
  }

  /** The sizes a family captures. */
  predicate Captures(c: Config, q: nat, x: nat)
    requires q > 0
  {
    x % q == 0 && x / q <= c.maxSeqs
  }

  /** Padding leaves a capture size alone, so the size's own descriptor is a key of the family. */
  lemma CaptureKey(c: Config, table: seq<nat>, q: nat, x: nat)
    requires ConfigOk(c) && TableOk(c, table) && q > 0 && x in c.sizes && Captures(c, q, x)
    ensures 0 < x < |table| && UniformDesc(c, table, x, q) == Desc(x, x / q, true)
    ensures FamilyKey(c, UniformDesc(c, table, x, q), q)
  {
    SizeInTable(c, x);
    assert IsNext(c, x, table[x]);
    Quotient(x, q);
  }

  lemma SizeInTable(c: Config, x: nat)
    requires ConfigOk(c) && x in c.sizes
    ensures 0 < x <= Largest(c)
  {
    var j :| 0 <= j < |c.sizes| && c.sizes[j] == x;
    assert j > 0 ==> c.sizes[0] < c.sizes[j];
    assert j < |c.sizes| - 1 ==> c.sizes[j] < c.sizes[|c.sizes| - 1];
  }

  /** Conversely every key of the family is some captured size's. */
  lemma KeyCaptured(c: Config, d: Desc, q: nat)
    requires FamilyKey(c, d, q) && q > 0
    ensures Captures(c, q, d.tokens) && d == Desc(d.tokens, d.tokens / q, true)
  {
    QuotientBack(q, d.reqs, d.tokens);
  }

  /** One family's inner loop. */
  method AddFamily(c: Config, table: seq<nat>, q: nat, full: set<Desc>) returns (r: set<Desc>)
    requires ConfigOk(c) && TableOk(c, table) && q > 0
    ensures forall d :: d in r <==> d in full || FamilyKey(c, d, q)
  {
    r := full;
    for i := 0 to |c.sizes|
      invariant forall d :: d in r <==> d in full || (FamilyKey(c, d, q) && d.tokens in c.sizes[..i])
    {
      var x := c.sizes[i];
      forall d | FamilyKey(c, d, q) && d.tokens == x
        ensures Captures(c, q, x) && d == Desc(x, x / q, true)
      {
        KeyCaptured(c, d, q);
      }
      if Captures(c, q, x) {
        CaptureKey(c, table, q, x);
        r := r + {UniformDesc(c, table, x, q)};
      }
      assert c.sizes[..i + 1] == c.sizes[..i] + [x];
    }
    assert c.sizes[..|c.sizes|] == c.sizes;
  }

  class Dispatcher {
    const c: Config
    var table: seq<nat>
    var full: set<Desc>
    var piecewise: set<Desc>

    ghost predicate Valid()
      reads this
    {
      ConfigOk(c) && TableOk(c, table) && KeysOk(c, full, piecewise)
    }

    /** initialize_cudagraph_keys */
    constructor (c: Config)
      requires ConfigOk(c)
      ensures Valid() && this.c == c
    {
      var padded := PaddedSizes(c);
      var t := padded[..];
      var pw := PiecewiseKeys(c, t);
      var keys := AddFamily(c, t, c.queryLen, {});
      if c.queryLen > 1 && c.families {
        for q := 1 to c.queryLen
          invariant forall d ::
            d in keys <==> FamilyKey(c, d, c.queryLen) || exists p: nat :: 0 < p < q && FamilyKey(c, d, p)
        {
          keys := AddFamily(c, t, q, keys);
        }
      }
      this.c, table, full, piecewise := c, t, keys, pw;
    }

    /** dispatch of a step of n tokens; q is its uniform query length, 0 if it has none. A step of 1 to the largest
        capture size replays a captured graph that holds its tokens; a uniform step gets a FULL graph of its own
        query length, covering its requests, exactly when the smallest fitting multiple is within q * maxSeqs. */
    method Dispatch(n: nat, q: nat) returns (mode: Mode, d: Desc)
      requires Valid()
      ensures n > Largest(c) ==> mode == Eager
      ensures 0 < n <= Largest(c) ==> n <= d.tokens
      ensures 0 < n <= Largest(c) ==> (mode == Full && d in full) || (mode == Piecewise && d in piecewise)
      ensures forall reqs: nat | reqs > 0 && IsUniform(c, q, n, reqs) ::
        && (OwnGraph(mode, d, q) <==> exists p: nat :: IsNextMultiple(c, n, q, p) && p <= Times(q, c.maxSeqs))
        && (OwnGraph(mode, d, q) ==> n <= d.tokens && reqs <= d.reqs && FamilyKey(c, d, q))
      ensures (mode, d) == Dispatched(c, table, n, q, full, piecewise)
    {
      forall reqs: nat | reqs > 0 && IsUniform(c, q, n, reqs)
        ensures var (m, k) := Dispatched(c, table, n, q, full, piecewise);
          && (OwnGraph(m, k, q) <==> exists p: nat :: IsNextMultiple(c, n, q, p) && p <= Times(q, c.maxSeqs))
          && (OwnGraph(m, k, q) ==> n <= k.tokens && reqs <= k.reqs && FamilyKey(c, k, q))
      {
        DispatchExact(c, table, full, piecewise, n, q, reqs);
      }
      if n > Largest(c) {
        return Eager, Desc(n, -1, false);
      }
      if n > 0 {
        AlwaysCovered(c, table, full, piecewise, n, q);
      }
      d := if q > 0 then UniformDesc(c, table, n, q) else MixedDesc(c, table, n);
      if d in full {
        return Full, d;
      }
      if Relaxed(d) in piecewise {
        return Piecewise, Relaxed(d);
      }
      return Eager, Desc(n, -1, false);
    }
  }

  method PiecewiseKeys(c: Config, table: seq<nat>) returns (pw: set<Desc>)
    requires ConfigOk(c) && TableOk(c, table)
    ensures forall d :: d in pw <==> d.tokens in c.sizes && d.reqs == -1 && !d.uniform
  {
    pw := {};
    for i := 0 to |c.sizes|
      invariant forall d :: d in pw <==> d.tokens in c.sizes[..i] && d.reqs == -1 && !d.uniform
    {
      var x := c.sizes[i];
      SizeInTable(c, x);
      assert IsNext(c, x, table[x]);
      pw := pw + {Relaxed(MixedDesc(c, table, x))};
      assert c.sizes[..i + 1] == c.sizes[..i] + [x];
    }
    assert c.sizes[..|c.sizes|] == c.sizes;
  }

  function Dispatched(c: Config, table: seq<nat>, n: nat, q: nat, full: set<Desc>, piecewise: set<Desc>): (Mode, Desc)
    requires |c.sizes| > 0 && |table| == Largest(c) + 1
  {
    if n > Largest(c) then (Eager, Desc(n, -1, false))
    else
      var d := if q > 0 then UniformDesc(c, table, n, q) else MixedDesc(c, table, n);
      if d in full then (Full, d)
      else if Relaxed(d) in piecewise then (Piecewise, Relaxed(d))
      else (Eager, Desc(n, -1, false))
  }

  // ---------------------------------------------------------------- what a uniform step gets

  /** The runner's uniform-step predicate on the longest request, the token count and the request count. */
  predicate IsUniform(c: Config, longest: nat, n: nat, reqs: nat) {
    || (longest == c.queryLen && n == Times(longest, reqs))
    || (c.queryLen > 1 && 1 <= longest < c.queryLen && n == Times(longest, reqs) && c.families)
  }

  /** It recognises exactly the steps of a captured family: reqs requests of q tokens each. */
  lemma UniformIffFamily(c: Config, q: nat, n: nat, reqs: nat)
    requires ConfigOk(c)
    ensures IsUniform(c, q, n, reqs) <==> HasFamily(c, q) && n == Times(q, reqs)
  {
  }

  /** The query length a captured or replayed key stands for. */
  function QueryLen(d: Desc): int
    requires d.reqs > 0
  {
    d.tokens / d.reqs
  }

  /** A FULL graph captured for query length q. */
  predicate OwnGraph(mode: Mode, d: Desc, q: nat) {
    mode == Full && d.reqs > 0 && QueryLen(d) == q
  }

  lemma KeyQueryLen(c: Config, d: Desc, q: nat)
    requires ConfigOk(c) && FamilyKey(c, d, q)
    ensures d.reqs > 0 && QueryLen(d) == q
  {
    SizeInTable(c, d.tokens);
    Commutes(q, d.reqs);
    assert Times(q, 0) == 0;
    QuotientBack(d.reqs, q, d.tokens);
  }

  /** A uniform step of `reqs` requests with q tokens each gets a FULL graph of its own query length exactly when
      some capture size is a multiple of q and holds the step, and the smallest such size does not exceed
      q * maxSeqs. That graph covers the step's tokens and requests. */
  lemma DispatchExact(c: Config, table: seq<nat>, full: set<Desc>, piecewise: set<Desc>, n: nat, q: nat, reqs: nat)
    requires ConfigOk(c) && TableOk(c, table) && KeysOk(c, full, piecewise)
    requires IsUniform(c, q, n, reqs) && reqs > 0
    ensures var (mode, d) := Dispatched(c, table, n, q, full, piecewise);
            (OwnGraph(mode, d, q) <==> exists p: nat :: IsNextMultiple(c, n, q, p) && p <= Times(q, c.maxSeqs))
    ensures var (mode, d) := Dispatched(c, table, n, q, full, piecewise);
            OwnGraph(mode, d, q) ==> d in full && n <= d.tokens && reqs <= d.reqs && FamilyKey(c, d, q)
  {
    Cancel(1, reqs, q);
    Commutes(reqs, q);
    if n <= Largest(c) {
      UniformPadding(c, table, n, q);
      var d := UniformDesc(c, table, n, q);
      if d.uniform {
        SmallestUnique(c, n, q, d.tokens);
        Quotient(d.tokens, q);
        Commutes(q, d.tokens / q);
        Commutes(q, c.maxSeqs);
        Cancel(c.maxSeqs, d.tokens / q, q);
        Cancel(d.tokens / q, c.maxSeqs, q);
        if d.tokens <= Times(q, c.maxSeqs) {
          OwnFamily(c, full, piecewise, d, n, q, reqs);
        } else {
          CappedKey(c, full, piecewise, d, q);
        }
      } else {
        NonUniformKey(c, full, piecewise, d);
      }
    } else {
      TooLarge(c, n);
    }
  }

  lemma SmallestUnique(c: Config, n: nat, q: nat, p: nat)
    requires q > 0 && IsNextMultiple(c, n, q, p)
    ensures forall r: nat :: IsNextMultiple(c, n, q, r) <==> r == p
  {
  }

  lemma TooLarge(c: Config, n: nat)
    requires ConfigOk(c) && n > Largest(c)
    ensures forall s | s in c.sizes :: s < n
  {
    forall s | s in c.sizes
      ensures s < n
    {
      SizeInTable(c, s);
    }
  }

  lemma NonUniformKey(c: Config, full: set<Desc>, piecewise: set<Desc>, d: Desc)
    requires KeysOk(c, full, piecewise) && !d.uniform
    ensures d !in full
  {
  }

  lemma OwnFamily(c: Config, full: set<Desc>, piecewise: set<Desc>, d: Desc, n: nat, q: nat, reqs: nat)
    requires ConfigOk(c) && KeysOk(c, full, piecewise) && HasFamily(c, q)
    requires d.uniform && IsNextMultiple(c, n, q, d.tokens) && n == Times(q, reqs)
    requires 0 <= d.reqs <= c.maxSeqs && Times(q, d.reqs) == d.tokens
    ensures d in full && d.reqs > 0 && QueryLen(d) == q && reqs <= d.reqs && FamilyKey(c, d, q)
  {
    assert FamilyKey(c, d, q);
    KeyQueryLen(c, d, q);
    Commutes(q, reqs);
    Commutes(q, d.reqs);
    Cancel(d.reqs, reqs, q);
  }

  /** Where the request cap bites, the key has maxSeqs requests for more than q * maxSeqs tokens: it can only be
      another family's. */
  lemma CappedKey(c: Config, full: set<Desc>, piecewise: set<Desc>, d: Desc, q: nat)
    requires ConfigOk(c) && KeysOk(c, full, piecewise) && d.reqs == c.maxSeqs && d.tokens > Times(q, c.maxSeqs)
    ensures d in full ==> d.reqs > 0 && QueryLen(d) > q
  {
    if d in full {
      var q' :| HasFamily(c, q') && FamilyKey(c, d, q');
      KeyQueryLen(c, d, q');
      Cancel(q', q, c.maxSeqs);
    }
  }

  /** And that happens: three one-token requests, capture sizes 1, 2 and 8, at most four requests. The step is
      dispatched to the graph of four requests of two tokens. */
  lemma CapPicksAnotherFamily(full: set<Desc>, piecewise: set<Desc>)
    requires KeysOk(Config([1, 2, 8], 4, 2, true), full, piecewise)
    ensures var c := Config([1, 2, 8], 4, 2, true);
            var table := [0, 1, 2, 8, 8, 8, 8, 8, 8];
            ConfigOk(c) && TableOk(c, table) && IsUniform(c, 1, 3, 3)
            && Dispatched(c, table, 3, 1, full, piecewise) == (Full, Desc(8, 4, true)) &&
              QueryLen(Desc(8, 4, true)) == 2
  {
    var c := Config([1, 2, 8], 4, 2, true);
    var d := Desc(8, 4, true);
    assert c.sizes[0] == 1 && c.sizes[1] == 2 && c.sizes[2] == 8;
    assert Times(2, 4) == 8;
    assert HasFamily(c, 2) && FamilyKey(c, d, 2);
  }

  /** Every step of 1 to max capture size tokens replays a captured graph that holds its tokens. */
  lemma AlwaysCovered(c: Config, table: seq<nat>, full: set<Desc>, piecewise: set<Desc>, n: nat, q: nat)
    requires ConfigOk(c) && TableOk(c, table) && KeysOk(c, full, piecewise) && 0 < n <= Largest(c)
    ensures var (mode, d) := Dispatched(c, table, n, q, full, piecewise);
            n <= d.tokens && ((mode == Full && d in full) || (mode == Piecewise && d in piecewise))
  {
    if q > 0 {
      UniformPadding(c, table, n, q);
    } else {
      assert IsNext(c, n, table[n]);
    }
  }
}
