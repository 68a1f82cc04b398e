/** Spreading decodes over the micro-batches in flight
    (overlay/patch_pp_spread.py, on top of the guard of overlay/patch_pp_spec_tokens.py).

    Between outputs, a scheduling pass walks the running requests in order and
    takes every ready prefill chunk but at most `cap` ready decodes. */
module Spread {

  /** A running request: its real tokens, how many are computed, is_prefill_chunk. */
  datatype Run = Run(numTokens: nat, computed: nat, chunk: bool)

  /** The schedule-ahead guard lets it through. */
  predicate Ready(r: Run) {
    r.computed < r.numTokens
  }

  predicate ReadyDecode(r: Run) {
    Ready(r) && !r.chunk
  }

  /** max(1, ceil(n / pp)) */
  function Cap(n: nat, pp: nat): nat
    requires pp > 0
  {
    var c := (n + pp - 1) / pp;
    if c < 1 then 1 else c
  }

  /** Ready decodes before position i. */
  function Rank(s: seq<Run>, i: nat): nat
    requires i <= |s|
  {
    if i == 0 then 0 else Rank(s, i - 1) + if ReadyDecode(s[i - 1]) then 1 else 0
  }

  /** The decodes before position i with a real token left to compute. */
  ghost function ReadyBefore(s: seq<Run>, i: nat): set<nat>
    requires i <= |s|
  {
    set j: nat | j < i && s[j].computed < s[j].numTokens && !s[j].chunk
  }

  lemma {:induction false} RankIsCount(s: seq<Run>, i: nat)
    requires i <= |s|
    ensures Rank(s, i) == |ReadyBefore(s, i)|
  {
    if i > 0 {
      RankIsCount(s, i - 1);
      var rest := ReadyBefore(s, i - 1);
      assert ReadyBefore(s, i) == if ReadyDecode(s[i - 1]) then rest + {i - 1} else rest;
    }
  }

  /** A pass takes request i: any ready prefill chunk, and the first `cap` ready decodes; a zero cap is no cap. */
  predicate Taken(s: seq<Run>, cap: nat, i: nat)
    requires i < |s|
  {
    Ready(s[i]) && (cap == 0 || s[i].chunk || Rank(s, i) < cap)
  }

  /** With enough token budget a decode gets all its real tokens and its drafts; a chunk makes progress. */
  predicate Advances(a: Run, b: Run) {
    && b.numTokens == a.numTokens && b.computed > a.computed
    && (!a.chunk ==> b.computed >= a.numTokens)
    && b.chunk == (b.computed < b.numTokens)
  }

  /** One scheduling pass with no output applied. */
  ghost predicate PassStep(s: seq<Run>, t: seq<Run>, cap: nat) {
    && |t| == |s|
    && forall i | 0 <= i < |s| :: if Taken(s, cap, i) then Advances(s[i], t[i]) else t[i] == s[i]
  }

  /** The scheduling loop: which positions a pass takes, and how many decodes among them. */
  method SchedulePass(running: seq<Run>, cap: nat) returns (scheduled: seq<nat>, decodes: nat)
    ensures forall i: nat :: i in scheduled <==> i < |running| && Taken(running, cap, i)
    ensures forall a, b | 0 <= a < b < |scheduled| :: scheduled[a] < scheduled[b]
    ensures cap > 0 ==> decodes == DecodesTaken(running, cap, |running|) <= cap
    ensures forall i: nat | i < |running| && (cap == 0 || running[i].chunk) ::
      i in scheduled <==> running[i].computed < running[i].numTokens
    ensures cap > 0 ==> forall i: nat | i < |running| && !running[i].chunk ::
      i in scheduled <==> running[i].computed < running[i].numTokens && |ReadyBefore(running, i)| < cap
  {
    scheduled, decodes := [], 0;
    var reqIndex := 0;
    while reqIndex < |running|
      invariant 0 <= reqIndex <= |running|
      invariant decodes == if Rank(running, reqIndex) < cap then Rank(running, reqIndex) else cap
      invariant cap > 0 ==> decodes == DecodesTaken(running, cap, reqIndex)
      invariant forall i: nat :: i in scheduled <==> i < reqIndex && Taken(running, cap, i)
      invariant forall a | 0 <= a < |scheduled| :: scheduled[a] < reqIndex
      invariant forall a, b | 0 <= a < b < |scheduled| :: scheduled[a] < scheduled[b]
    {
      var request := running[reqIndex];
      if request.numTokens <= request.computed {
        reqIndex := reqIndex + 1;
        continue;
      }
      if cap > 0 && !request.chunk {
        if decodes >= cap {
          reqIndex := reqIndex + 1;
          continue;
        }
        decodes := decodes + 1;
      }
      scheduled := scheduled + [reqIndex];
      reqIndex := reqIndex + 1;
    }
    forall i: nat | i < |running|
      ensures Rank(running, i) == |ReadyBefore(running, i)|
    {
      RankIsCount(running, i);
    }
  }

  /** Decodes taken among the first n positions. */
  function DecodesTaken(s: seq<Run>, cap: nat, n: nat): nat
    requires n <= |s|
  {
    if n == 0 then 0
    else DecodesTaken(s, cap, n - 1) + if Taken(s, cap, n - 1) && !s[n - 1].chunk then 1 else 0
  }

  /** After t passes exactly the first t * cap ready decodes of the start are gone. */
  ghost predicate Drained(s0: seq<Run>, s: seq<Run>, gone: nat) {
    && |s| == |s0|
    && forall i | 0 <= i < |s| :: ReadyDecode(s[i]) <==> ReadyDecode(s0[i]) && Rank(s0, i) >= gone
  }

  lemma {:induction false} RankAfter(s0: seq<Run>, s: seq<Run>, gone: nat, i: nat)
    requires Drained(s0, s, gone) && i <= |s|
    ensures Rank(s, i) == if Rank(s0, i) <= gone then 0 else Rank(s0, i) - gone
  {
    if i > 0 {
      RankAfter(s0, s, gone, i - 1);
    }
  }

  lemma DrainStep(s0: seq<Run>, s: seq<Run>, t: seq<Run>, gone: nat, cap: nat)
    requires Drained(s0, s, gone) && PassStep(s, t, cap) && cap > 0
    ensures Drained(s0, t, gone + cap)
  {
    forall i | 0 <= i < |s|
      ensures ReadyDecode(t[i]) <==> ReadyDecode(s0[i]) && Rank(s0, i) >= gone + cap
    {
      RankAfter(s0, s, gone, i);
    }
  }

  lemma {:induction false} DrainedAfter(states: seq<seq<Run>>, cap: nat, t: nat)
    requires cap > 0 && t < |states| && forall j | 0 < j < |states| :: PassStep(states[j - 1], states[j], cap)
    ensures Drained(states[0], states[t], t * cap)
  {
    if t > 0 {
      DrainedAfter(states, cap, t - 1);
      DrainStep(states[0], states[t - 1], states[t], (t - 1) * cap, cap);
    }
  }

  lemma {:induction false} RankBound(s: seq<Run>, i: nat, j: nat)
    requires i <= j <= |s|
    ensures Rank(s, i) <= Rank(s, j) <= Rank(s, i) + (j - i)
  {
    if i < j {
      RankBound(s, i, j - 1);
    }
  }

  lemma CapCovers(n: nat, pp: nat)
    requires pp > 0
    ensures n <= pp * Cap(n, pp) && Cap(n, pp) > 0
  {
  }

  /** It is the least cap from 1 on that lets pp passes take n decodes. */
  lemma CapIsLeast(n: nat, pp: nat, c: nat)
    requires pp > 0 && c > 0
    ensures n <= pp * c <==> Cap(n, pp) <= c
  {
    var q := (n + pp - 1) / pp;
    CeilBounds(n, pp, q);
    Multiples(pp, c, q);
  }

  lemma CeilBounds(n: nat, pp: nat, q: nat)
    requires pp > 0 && q == (n + pp - 1) / pp
    ensures pp * q <= n + pp - 1 < pp * q + pp
  {
  }

  lemma Multiples(pp: nat, c: nat, q: nat)
    ensures c < q ==> pp * c <= pp * q - pp
    ensures q <= c ==> pp * q <= pp * c
  {
    if c < q {
      assert pp * (c + 1) <= pp * q;
    }
  }

  /** t is the quotient of r by cap exactly when r lies in the t-th block of cap. */
  lemma BlockOf(r: nat, cap: nat, t: nat)
    requires cap > 0
    ensures t * cap <= r < (t + 1) * cap <==> t == r / cap
  {
    var q := r / cap;
    assert q * cap <= r < q * cap + cap;
    if t < q {
      assert (t + 1) * cap <= q * cap;
    } else if t > q {
      assert t * cap >= (q + 1) * cap;
    }
  }

  predicate TakenDecode(s: seq<Run>, cap: nat, i: nat)
    requires i < |s|
  {
    Taken(s, cap, i) && !s[i].chunk
  }

  /** With no output returned, pp consecutive passes take every decode that was
      ready at the start exactly once, in pass rank / cap, and no other decode. */
  lemma SpreadCovers(states: seq<seq<Run>>, pp: nat, i: nat)
    requires pp > 0 && |states| == pp + 1 && i < |states[0]|
    requires forall j | 0 < j <= pp :: PassStep(states[j - 1], states[j], Cap(|states[0]|, pp))
    ensures var s0, cap := states[0], Cap(|states[0]|, pp);
            && cap > 0
            && (ReadyDecode(s0[i]) ==> Rank(s0, i) / cap < pp)
            && forall t: nat | t < pp ::
                 && |states[t]| == |s0|
                 && (TakenDecode(states[t], cap, i) <==> ReadyDecode(s0[i]) && t == Rank(s0, i) / cap)
  {
    var s0 := states[0];
    var cap := Cap(|s0|, pp);
    CapCovers(|s0|, pp);
    forall t: nat | t < pp
      ensures |states[t]| == |s0|
      ensures TakenDecode(states[t], cap, i) <==> ReadyDecode(s0[i]) && t == Rank(s0, i) / cap
    {
      DrainedAfter(states, cap, t);
      RankAfter(s0, states[t], t * cap, i);
      BlockOf(Rank(s0, i), cap, t);
    }
    RankBound(s0, 0, i);
    QuotientBelow(Rank(s0, i), cap, pp);
  }

  lemma QuotientBelow(r: nat, cap: nat, pp: nat)
    requires cap > 0 && r < pp * cap
    ensures r / cap < pp
  {
    var q := r / cap;
    assert q * cap <= r;
    assert pp <= q ==> pp * cap <= q * cap;
  }
}
