/** Dispatch of routed experts to the EXL3 kernel (overlay/exl3/dsv41_exl3.py): assignments
    sorted by expert, launched at once, by row-count tiers, or in row tiles.

    A launch is seen through its interface: for each expert whose count lies in [lo, hi] it
    adds weight * f_e(x[token]) for each of the expert's rows of the buffer.  What reaches the
    output is therefore the multiset of added terms, and all claims are about its multiplicities. */
module Exl3 {
  import opened Grouping

  /** One row of the assignment buffer. */
  datatype Row = Row(token: nat, weight: real)

  /** weight * f_e(x[token]) */
  datatype Term = Term(e: int, row: Row)

  /** Flat ids and weights, k slots per token; ids outside [0, experts) are invalid. */
  datatype Routing = Routing(ids: seq<int>, wts: seq<real>, tokens: nat, k: nat, experts: nat)

  ghost predicate RoutingOk(r: Routing) {
    |r.ids| == |r.wts| == r.tokens * r.k
  }

  /** Invalid ids go behind all experts. */
  function Local(r: Routing, i: nat): (e: nat)
    requires i < |r.ids|
    ensures e <= r.experts && (e < r.experts ==> e == r.ids[i])
  {
    if r.ids[i] < 0 || r.ids[i] >= r.experts then r.experts else r.ids[i]
  }

  function TermAt(r: Routing, i: nat): Term
    requires i < |r.ids| == |r.wts| && r.k > 0
  {
    Term(Local(r, i), Row(i / r.k, r.wts[i]))
  }

  /** The assignments in row order. */
  function Flat(r: Routing): (s: seq<Term>)
    requires RoutingOk(r)
    ensures |s| == |r.ids| && (|s| > 0 ==> r.k > 0) && forall i: nat | i < |s| :: s[i] == TermAt(r, i)
  {
    if |r.ids| == 0 then [] else
      assert r.k > 0;
      seq(|r.ids|, i requires 0 <= i < |r.ids| => TermAt(r, i))
  }

  /** How often the per-expert loop adds a term. */
  ghost function Reference(r: Routing, x: Term): nat
    requires RoutingOk(r)
  {
    if IsExpert(x.e, r.experts) then multiset(Flat(r))[x] else 0
  }

  /** What any argsort by local expert leaves: equal experts in any order. */
  ghost predicate Sorted(r: Routing, s: seq<Term>)
    requires RoutingOk(r)
  {
    multiset(s) == multiset(Flat(r)) && forall i, j | 0 <= i < j < |s| :: s[i].e <= s[j].e
  }

  function Experts(s: seq<Term>): (es: seq<int>)
    ensures |es| == |s| && forall i | 0 <= i < |s| :: es[i] == s[i].e
  {
    seq(|s|, i requires 0 <= i < |s| => s[i].e)
  }

  function Rows(s: seq<Term>): (rs: seq<Row>)
    ensures |rs| == |s| && forall i | 0 <= i < |s| :: rs[i] == s[i].row
  {
    seq(|s|, i requires 0 <= i < |s| => s[i].row)
  }

  function Prefix(counts: seq<nat>, e: nat): nat
    requires e <= |counts|
  {
    if e == 0 then 0 else Prefix(counts, e - 1) + counts[e - 1]
  }

  lemma {:induction false} PrefixMonotone(counts: seq<nat>, d: nat, e: nat)
    requires d <= e <= |counts|
    ensures Prefix(counts, d) <= Prefix(counts, e)
  {
    if d < e {
      PrefixMonotone(counts, d, e - 1);
    }
  }

  // ---------------------------------------------------------------- a launch

  /** n rows from place a on, under expert e. */
  function Tagged(e: int, buf: seq<Row>, a: nat, n: nat): multiset<Term>
    requires a + n <= |buf|
  {
    if n == 0 then multiset{} else Tagged(e, buf, a, n - 1) + multiset{Term(e, buf[a + n - 1])}
  }

  /** The kernel on the first n experts. */
  function Launched(counts: seq<nat>, buf: seq<Row>, lo: nat, hi: nat, n: nat): multiset<Term>
    requires n <= |counts| && Prefix(counts, n) <= |buf|
  {
    if n == 0 then multiset{}
    else if lo <= counts[n - 1] <= hi then
      Launched(counts, buf, lo, hi, n - 1) + Tagged(n - 1, buf, Prefix(counts, n - 1), counts[n - 1])
    else Launched(counts, buf, lo, hi, n - 1)
  }

  /** Occurrences of v among the n rows from place a on. */
  ghost function Occ(buf: seq<Row>, a: nat, n: nat, v: Row): nat
    requires a + n <= |buf|
  {
    if n == 0 then 0 else Occ(buf, a, n - 1, v) + if buf[a + n - 1] == v then 1 else 0
  }

  lemma {:induction false} OccSplit(buf: seq<Row>, a: nat, m: nat, n: nat, v: Row)
    requires a + m + n <= |buf|
    ensures Occ(buf, a, m + n, v) == Occ(buf, a, m, v) + Occ(buf, a + m, n, v)
  {
    if n > 0 {
      OccSplit(buf, a, m, n - 1, v);
    }
  }

  lemma {:induction false} OccEqual(buf: seq<Row>, a: nat, buf': seq<Row>, a': nat, n: nat, v: Row)
    requires a + n <= |buf| && a' + n <= |buf'| && forall i: nat | a <= i < a + n :: buf[i] == buf'[a' + (i - a)]
    ensures Occ(buf, a, n, v) == Occ(buf', a', n, v)
  {
    if n > 0 {
      OccEqual(buf, a, buf', a', n - 1, v);
    }
  }

  lemma {:induction false} TaggedAt(e: int, buf: seq<Row>, a: nat, n: nat, x: Term)
    requires a + n <= |buf|
    ensures Tagged(e, buf, a, n)[x] == if x.e == e then Occ(buf, a, n, x.row) else 0
  {
    if n > 0 {
      TaggedAt(e, buf, a, n - 1, x);
    }
  }

  /** A launch adds to a term what its expert's rows hold of it, when the expert's count is in range. */
  ghost function LaunchAt(counts: seq<nat>, buf: seq<Row>, lo: nat, hi: nat, n: nat, x: Term): nat
    requires n <= |counts| && Prefix(counts, n) <= |buf|
  {
    if 0 <= x.e < n && lo <= counts[x.e] <= hi then
      PrefixMonotone(counts, x.e + 1, n);
      Occ(buf, Prefix(counts, x.e), counts[x.e], x.row)
    else 0
  }

  lemma {:induction false} LaunchedAt(counts: seq<nat>, buf: seq<Row>, lo: nat, hi: nat, n: nat, x: Term)
    requires n <= |counts| && Prefix(counts, n) <= |buf|
    ensures Launched(counts, buf, lo, hi, n)[x] == LaunchAt(counts, buf, lo, hi, n, x)
  {
    if n > 0 {
      LaunchedAt(counts, buf, lo, hi, n - 1, x);
      TaggedAt(n - 1, buf, Prefix(counts, n - 1), counts[n - 1], x);
    }
  }

  // ---------------------------------------------------------------- the sorted buffer

  /** The terms of expert e among the first n. */
  ghost function Only(s: seq<Term>, n: nat, e: int): multiset<Term>
    requires n <= |s|
  {
    if n == 0 then multiset{} else if s[n - 1].e == e then Only(s, n - 1, e) + multiset{s[n - 1]} else Only(s, n - 1, e)
  }

  lemma {:induction false} OnlyCount(s: seq<Term>, n: nat, e: int)
    requires n <= |s|
    ensures |Only(s, n, e)| == Count(Experts(s), n, e)
  {
    if n > 0 {
      OnlyCount(s, n - 1, e);
    }
  }

  lemma {:induction false} OnlyAt(s: seq<Term>, n: nat, e: int, x: Term)
    requires n <= |s|
    ensures Only(s, n, e)[x] == if x.e == e then multiset(s[..n])[x] else 0
  {
    if n > 0 {
      OnlyAt(s, n - 1, e, x);
      assert s[..n] == s[..n - 1] + [s[n - 1]];
    }
  }

  /** Counts do not depend on the order. */
  lemma CountPermuted(a: seq<Term>, b: seq<Term>, e: int)
    requires multiset(a) == multiset(b)
    ensures Count(Experts(a), |a|, e) == Count(Experts(b), |b|, e)
  {
    assert a[..|a|] == a && b[..|b|] == b;
    forall x
      ensures Only(a, |a|, e)[x] == Only(b, |b|, e)[x]
    {
      OnlyAt(a, |a|, e, x);
      OnlyAt(b, |b|, e, x);
    }
    assert Only(a, |a|, e) == Only(b, |b|, e);
    OnlyCount(a, |a|, e);
    OnlyCount(b, |b|, e);
  }

  ghost predicate Ascending(s: seq<Term>) {
    (forall i, j | 0 <= i < j < |s| :: s[i].e <= s[j].e) && forall i | 0 <= i < |s| :: s[i].e >= 0
  }

  /** Among the first n no expert is below e, or all are. */
  lemma {:induction false} NoneBelow(es: seq<int>, m: nat, n: nat, e: nat)
    requires m <= n <= |es| && forall i | m <= i < n :: es[i] >= e
    ensures StartTo(es, n, e) == StartTo(es, m, e)
  {
    if m < n {
      NoneBelow(es, m, n - 1, e);
      StartToStep(es, n, e);
    }
  }

  lemma {:induction false} AllBelow(es: seq<int>, n: nat, e: nat)
    requires n <= |es| && forall i | 0 <= i < n :: 0 <= es[i] < e
    ensures StartTo(es, n, e) == n
  {
    if n == 0 {
      NothingYet(es, e);
    } else {
      AllBelow(es, n - 1, e);
      StartToStep(es, n, e);
    }
  }

  lemma {:induction false} StartToMonotone(es: seq<int>, m: nat, n: nat, e: nat)
    requires m <= n <= |es|
    ensures StartTo(es, m, e) <= StartTo(es, n, e)
  {
    if m < n {
      StartToMonotone(es, m, n - 1, e);
      StartToStep(es, n, e);
    }
  }

  /** In a sorted buffer the experts below e fill exactly the first Start(e) places. */
  lemma SortedBelow(s: seq<Term>, e: nat, p: nat)
    requires Ascending(s) && p < |s|
    ensures s[p].e < e <==> p < Start(Experts(s), e)
  {
    var es := Experts(s);
    if s[p].e < e {
      AllBelow(es, p + 1, e);
      StartToMonotone(es, p + 1, |es|, e);
    } else {
      NoneBelow(es, p, |es|, e);
      StartBound(es, p, e);
    }
  }

  /** Rows taken under one expert are its terms. */
  lemma {:induction false} SliceRows(s: seq<Term>, e: int, a: nat, n: nat, row: Row)
    requires a + n <= |s| && forall i | a <= i < a + n :: s[i].e == e
    ensures Occ(Rows(s), a, n, row) == multiset(s[a..a + n])[Term(e, row)]
  {
    if n > 0 {
      SliceRows(s, e, a, n - 1, row);
      assert s[a..a + n] == s[a..a + n - 1] + [s[a + n - 1]];
    }
  }

  /** Where the terms of e fill a range, the range holds all of them. */
  lemma RangeHoldsAll(s: seq<Term>, e: nat, a: nat, b: nat, row: Row)
    requires a <= b <= |s| && forall p: nat | p < |s| :: s[p].e == e <==> a <= p < b
    ensures Occ(Rows(s), a, b - a, row) == multiset(s)[Term(e, row)]
  {
    assert s == s[..a] + s[a..b] + s[b..];
    assert Term(e, row) !in s[..a] && Term(e, row) !in s[b..];
    SliceRows(s, e, a, b - a, row);
  }

  /** Each expert's range is where its terms are. */
  lemma RangeExact(s: seq<Term>, e: nat, a: nat, b: nat)
    requires Ascending(s) && a == Start(Experts(s), e) && b == Start(Experts(s), e + 1)
    ensures a <= b <= |s| && forall p: nat | p < |s| :: s[p].e == e <==> a <= p < b
  {
    StartBound(Experts(s), |s|, e + 1);
    forall p: nat | p < |s|
      ensures s[p].e == e <==> a <= p < b
    {
      SortedBelow(s, e, p);
      SortedBelow(s, e + 1, p);
    }
  }

  /** The row counts the dispatcher computes: occurrences of each expert among the local ids. */
  ghost predicate CountsOf(r: Routing, counts: seq<nat>)
    requires RoutingOk(r)
  {
    |counts| == r.experts && forall e: nat | e < r.experts :: counts[e] == Count(Experts(Flat(r)), |r.ids|, e)
  }

  lemma {:induction false} PrefixIsStart(r: Routing, s: seq<Term>, counts: seq<nat>, e: nat)
    requires RoutingOk(r) && Sorted(r, s) && CountsOf(r, counts) && e <= r.experts
    ensures Prefix(counts, e) == Start(Experts(s), e)
  {
    if e > 0 {
      PrefixIsStart(r, s, counts, e - 1);
      CountPermuted(Flat(r), s, e - 1);
    }
  }

  lemma SortedAscending(r: Routing, s: seq<Term>)
    requires RoutingOk(r) && Sorted(r, s)
    ensures Ascending(s) && |s| == |r.ids|
  {
    assert |multiset(s)| == |s| && |multiset(Flat(r))| == |r.ids|;
    forall i | 0 <= i < |s|
      ensures s[i].e >= 0
    {
      assert s[i] in multiset(Flat(r));
    }
  }

  /** The dispatcher's counts mark out each expert's terms in the sorted buffer. */
  lemma ExpertPlaces(r: Routing, s: seq<Term>, counts: seq<nat>, e: nat)
    requires RoutingOk(r) && Sorted(r, s) && CountsOf(r, counts) && e < r.experts
    ensures Prefix(counts, e) + counts[e] == Prefix(counts, e + 1) <= |s|
    ensures forall p: nat | p < |s| :: s[p].e == e <==> Prefix(counts, e) <= p < Prefix(counts, e + 1)
  {
    SortedAscending(r, s);
    PrefixIsStart(r, s, counts, e);
    PrefixIsStart(r, s, counts, e + 1);
    RangeExact(s, e, Prefix(counts, e), Prefix(counts, e + 1));
  }

  /** They hold the expert's reference terms. */
  lemma ExpertRange(r: Routing, s: seq<Term>, counts: seq<nat>, e: nat, row: Row)
    requires RoutingOk(r) && Sorted(r, s) && CountsOf(r, counts) && e < r.experts
    ensures Prefix(counts, e) + counts[e] <= |s|
    ensures Occ(Rows(s), Prefix(counts, e), counts[e], row) == Reference(r, Term(e, row))
  {
    ExpertPlaces(r, s, counts, e);
    RangeHoldsAll(s, e, Prefix(counts, e), Prefix(counts, e) + counts[e], row);
  }

  lemma BufferHoldsAll(r: Routing, s: seq<Term>, counts: seq<nat>)
    requires RoutingOk(r) && Sorted(r, s) && CountsOf(r, counts)
    ensures Prefix(counts, r.experts) <= |Rows(s)|
  {
    SortedAscending(r, s);
    PrefixIsStart(r, s, counts, r.experts);
    StartBound(Experts(s), |s|, r.experts);
  }

  /** A launch over the whole buffer adds, for experts with counts in range, exactly the reference terms. */
  lemma WholeLaunch(r: Routing, s: seq<Term>, counts: seq<nat>, lo: nat, hi: nat, x: Term)
    requires RoutingOk(r) && Sorted(r, s) && CountsOf(r, counts)
    ensures Prefix(counts, r.experts) <= |Rows(s)|
    ensures Launched(counts, Rows(s), lo, hi, r.experts)[x]
         == if IsExpert(x.e, r.experts) && lo <= counts[x.e] <= hi then Reference(r, x) else 0
  {
    BufferHoldsAll(r, s, counts);
    LaunchedAt(counts, Rows(s), lo, hi, r.experts, x);
    if IsExpert(x.e, r.experts) {
      ExpertRange(r, s, counts, x.e, x.row);
    }
  }

  /** An expert without rows has no terms, one with rows has one. */
  lemma CountIsZero(r: Routing, counts: seq<nat>, x: Term)
    requires RoutingOk(r) && CountsOf(r, counts) && IsExpert(x.e, r.experts) && counts[x.e] == 0
    ensures Reference(r, x) == 0
  {
    if x in multiset(Flat(r)) {
      var i: nat :| i < |r.ids| && Flat(r)[i] == x;
      CountMonotone(Experts(Flat(r)), i + 1, |r.ids|, x.e);
    }
  }

  lemma SomeTerm(r: Routing, counts: seq<nat>, e: nat) returns (x: Term)
    requires RoutingOk(r) && CountsOf(r, counts) && e < r.experts && counts[e] > 0
    ensures x.e == e && Reference(r, x) > 0
  {
    var j := NthOccurrence(Experts(Flat(r)), |r.ids|, e, 0);
    x := Flat(r)[j];
    assert x in multiset(Flat(r));
  }

  // ---------------------------------------------------------------- one launch

  /** The terms added are those of the reference loop. */
  ghost predicate AddsReference(r: Routing, added: multiset<Term>)
    requires RoutingOk(r)
  {
    forall x: Term :: added[x] == Reference(r, x)
  }

  /** A single launch is right exactly when no expert has more rows than the kernel's temporaries. */
  lemma SingleLaunchExact(r: Routing, s: seq<Term>, counts: seq<nat>, cap: nat)
    requires RoutingOk(r) && Sorted(r, s) && CountsOf(r, counts)
    ensures Prefix(counts, r.experts) <= |Rows(s)|
    ensures AddsReference(r, Launched(counts, Rows(s), 1, cap, r.experts)) <==>
            forall e: nat | e < r.experts :: counts[e] <= cap
  {
    BufferHoldsAll(r, s, counts);
    var added := Launched(counts, Rows(s), 1, cap, r.experts);
    if forall e: nat | e < r.experts :: counts[e] <= cap {
      forall x: Term
        ensures added[x] == Reference(r, x)
      {
        WholeLaunch(r, s, counts, 1, cap, x);
        if IsExpert(x.e, r.experts) && counts[x.e] == 0 {
          CountIsZero(r, counts, x);
        }
      }
    } else {
      var e: nat :| e < r.experts && counts[e] > cap;
      var x := SomeTerm(r, counts, e);
      WholeLaunch(r, s, counts, 1, cap, x);
    }
  }

  /** No token names an expert twice. */
  ghost predicate DistinctRows(r: Routing) {
    forall i: nat, j: nat |
      i < j < |r.ids| && r.k > 0 && i / r.k == j / r.k && IsExpert(r.ids[i], r.experts) :: r.ids[i] != r.ids[j]
  }

  /** Slot t * k + j belongs to token t. */
  lemma SlotToken(t: nat, k: nat, j: nat)
    requires j < k
    ensures (t * k + j) / k == t
  {
    var n := t * k + j;
    var d := n / k - t;
    assert n == k * (n / k) + n % k;
    assert d * k == j - n % k;
    assert d >= 1 ==> d * k >= k;
    assert d <= -1 ==> d * k <= 0 - k;
  }

  /** The k slots from `at` on name no expert twice. */
  ghost predicate RowDistinct(r: Routing, at: nat) {
    forall i: nat, j: nat |
      at <= i < j < at + r.k && j < |r.ids| && IsExpert(r.ids[i], r.experts) :: r.ids[i] != r.ids[j]
  }

  lemma RowsAreDistinct(r: Routing, t: nat)
    requires DistinctRows(r)
    ensures RowDistinct(r, t * r.k)
  {
    var at := t * r.k;
    forall i: nat, j: nat | at <= i < j < at + r.k && j < |r.ids| && IsExpert(r.ids[i], r.experts)
      ensures r.ids[i] != r.ids[j]
    {
      SlotToken(t, r.k, i - at);
      SlotToken(t, r.k, j - at);
    }
  }

  /** Within a token's row an expert occurs at most once. */
  lemma {:induction false} CountInRow(r: Routing, at: nat, j: nat, e: nat)
    requires RoutingOk(r) && RowDistinct(r, at) && j <= r.k && at + j <= |r.ids| && e < r.experts
    ensures Count(Experts(Flat(r)), at + j, e) <= Count(Experts(Flat(r)), at, e) + 1
    ensures (forall i: nat | at <= i < at + j :: r.ids[i] != e) ==>
      Count(Experts(Flat(r)), at + j, e) == Count(Experts(Flat(r)), at, e)
  {
    if j > 0 {
      CountInRow(r, at, j - 1, e);
      var n := at + j - 1;
      assert Experts(Flat(r))[n] == Local(r, n);
      assert r.ids[n] == e ==> forall i: nat | at <= i < n :: r.ids[i] != e;
    }
  }

  lemma {:induction false} CountUpToRow(r: Routing, t: nat, e: nat)
    requires RoutingOk(r) && DistinctRows(r) && t * r.k <= |r.ids| && e < r.experts
    ensures Count(Experts(Flat(r)), t * r.k, e) <= t
  {
    if t > 0 {
      RowEnd(t, r.k);
      CountUpToRow(r, t - 1, e);
      RowsAreDistinct(r, t - 1);
      CountInRow(r, (t - 1) * r.k, r.k, e);
    }
  }

  lemma RowEnd(t: nat, k: nat)
    requires t > 0
    ensures 0 <= (t - 1) * k && (t - 1) * k + k == t * k
  {
  }

  /** Distinct experts per token: no expert has more rows than there are tokens. */
  lemma CountsWithinTokens(r: Routing, counts: seq<nat>, e: nat)
    requires RoutingOk(r) && DistinctRows(r) && CountsOf(r, counts) && e < r.experts
    ensures counts[e] <= r.tokens
  {
    CountUpToRow(r, r.tokens, e);
  }

  /** Without that, the launch for small batches can lose terms: one token naming expert 0 twice, one temporary row. */
  lemma RepeatedExpertIsLost()
    ensures var r := Routing([0, 0], [1.0, 1.0], 1, 2, 1); var s := Flat(r);
            RoutingOk(r) && Sorted(r, s) && CountsOf(r, [2]) && Prefix([2], 1) <= |Rows(s)|
            && r.tokens <= 1 && !AddsReference(r, Launched([2], Rows(s), 1, 1, 1))
  {
    var r := Routing([0, 0], [1.0, 1.0], 1, 2, 1);
    var es := Experts(Flat(r));
    assert es == [0, 0];
    assert Count(es, 1, 0) == 1 && Count(es, 2, 0) == 2;
    assert CountsOf(r, [2]);
    SingleLaunchExact(r, Flat(r), [2], 1);
    assert [2][0] > 1;
  }

  // ---------------------------------------------------------------- what the reference terms are

  /** Of the n slots from place `at` on, those that name expert e with weight w. */
  ghost function Hits(r: Routing, at: nat, e: int, w: real, n: nat): nat
    requires at + n <= |r.ids| == |r.wts|
  {
    if n == 0 then 0
    else Hits(r, at, e, w, n - 1) + if r.ids[at + n - 1] == e && r.wts[at + n - 1] == w then 1 else 0
  }

  lemma FlatStep(r: Routing, m: nat, x: Term)
    requires RoutingOk(r) && m < |r.ids|
    ensures r.k > 0
    ensures multiset(Flat(r)[..m + 1])[x] == multiset(Flat(r)[..m])[x] + if TermAt(r, m) == x then 1 else 0
  {
    assert Flat(r)[..m + 1] == Flat(r)[..m] + [Flat(r)[m]];
  }

  /** Slots before a token's own and behind them belong to other tokens. */
  lemma OtherToken(i: nat, t: nat, k: nat)
    requires k > 0
    ensures i < t * k || i >= t * k + k ==> i / k != t
  {
    assert i == k * (i / k) + i % k;
  }

  /** No slot from m on to n is of the token. */
  lemma {:induction false} NoneOfToken(r: Routing, x: Term, m: nat, n: nat)
    requires RoutingOk(r) && m <= n <= |r.ids|
    requires forall i: nat | m <= i < n :: r.k > 0 && i / r.k != x.row.token
    ensures multiset(Flat(r)[..n])[x] == multiset(Flat(r)[..m])[x]
  {
    if m < n {
      NoneOfToken(r, x, m, n - 1);
      FlatStep(r, n - 1, x);
    }
  }

  /** The token's own slots, n of them from place `at` on. */
  lemma {:induction false} OwnSlots(r: Routing, x: Term, at: nat, n: nat)
    requires RoutingOk(r) && IsExpert(x.e, r.experts) && at + n <= |r.ids|
    requires forall i: nat | at <= i < at + n :: r.k > 0 && i / r.k == x.row.token
    ensures multiset(Flat(r)[..at + n])[x] == multiset(Flat(r)[..at])[x] + Hits(r, at, x.e, x.row.weight, n)
  {
    if n > 0 {
      OwnSlots(r, x, at, n - 1);
      FlatStep(r, at + n - 1, x);
    }
  }

  /** The reference adds weight w times expert e's output for token t once for every slot of the token that names e
      with weight w; ids that name no expert and tokens there are not add nothing. */
  lemma ReferenceIs(r: Routing, e: int, t: nat, w: real)
    requires RoutingOk(r)
    ensures t < r.tokens ==> t * r.k + r.k <= |r.ids|
    ensures Reference(r, Term(e, Row(t, w))) ==
            if 0 <= e < r.experts && t < r.tokens then Hits(r, t * r.k, e, w, r.k) else 0
  {
    var x, flat := Term(e, Row(t, w)), Flat(r);
    assert flat[..|flat|] == flat && flat[..0] == [];
    if t < r.tokens {
      RowFits(r, t);
      if 0 <= e < r.experts {
        TokenTerms(r, x, t * r.k);
      }
    } else if 0 <= e < r.experts {
      RowBeyond(r, t);
      forall i: nat | i < |r.ids|
        ensures r.k > 0 && i / r.k != t
      {
        OtherToken(i, t, r.k);
      }
      NoneOfToken(r, x, 0, |r.ids|);
    }
  }

  /** The terms of a token, whose slots start at `at`. */
  lemma TokenTerms(r: Routing, x: Term, at: nat)
    requires RoutingOk(r) && IsExpert(x.e, r.experts) && at == x.row.token * r.k && at + r.k <= |r.ids|
    ensures multiset(Flat(r)[..|r.ids|])[x] == Hits(r, at, x.e, x.row.weight, r.k)
  {
    forall i: nat | i < |r.ids|
      ensures r.k > 0 && (i / r.k == x.row.token <==> at <= i < at + r.k)
    {
      OtherToken(i, x.row.token, r.k);
      if at <= i < at + r.k {
        SlotToken(x.row.token, r.k, i - at);
      }
    }
    NoneOfToken(r, x, 0, at);
    OwnSlots(r, x, at, r.k);
    NoneOfToken(r, x, at + r.k, |r.ids|);
    assert Flat(r)[..0] == [];
  }

  lemma RowFits(r: Routing, t: nat)
    requires RoutingOk(r) && t < r.tokens
    ensures 0 <= t * r.k && t * r.k + r.k <= |r.ids|
  {
    assert (t + 1) * r.k <= r.tokens * r.k;
  }

  lemma RowBeyond(r: Routing, t: nat)
    requires RoutingOk(r) && t >= r.tokens
    ensures |r.ids| <= t * r.k
  {
  }

  // ---------------------------------------------------------------- the per-expert loop

  /** The terms of one expert. */
  method AddExpert(r: Routing, e: nat, out: multiset<Term>) returns (added: multiset<Term>)
    requires RoutingOk(r) && e < r.experts
    ensures forall x: Term :: added[x] == out[x] + if x.e == e then Reference(r, x) else 0
  {
    added := out;
    ghost var flat := Flat(r);
    for i := 0 to |r.ids|
      invariant forall x: Term :: added[x] == out[x] + if x.e == e then multiset(flat[..i])[x] else 0
    {
      assert flat[..i + 1] == flat[..i] + [flat[i]];
      assert flat[i] == TermAt(r, i);
      if r.ids[i] == e {
        added := added + multiset{Term(e, Row(i / r.k, r.wts[i]))};
      }
    }
    assert flat[..|r.ids|] == flat;
  }

  /** apply_exl3_python_loop over the experts of `only`. */
  method PythonLoop(r: Routing, only: set<nat>, out: multiset<Term>) returns (added: multiset<Term>)
    requires RoutingOk(r)
    ensures forall x: Term ::
      added[x] == out[x] + if IsExpert(x.e, r.experts) && x.e in only then Reference(r, x) else 0
  {
    added := out;
    for e := 0 to r.experts
      invariant forall x: Term :: added[x] == out[x] + if IsExpert(x.e, e) && x.e in only then Reference(r, x) else 0
    {
      if e in only {
        added := AddExpert(r, e, added);
      }
    }
  }

  // ---------------------------------------------------------------- tiers

  method CountInTier(counts: seq<nat>, lo: nat, hi: nat) returns (any: bool)
    ensures any <==> exists e: nat :: e < |counts| && lo <= counts[e] <= hi
  {
    any := false;
    for e := 0 to |counts|
      invariant any <==> exists d: nat :: d < e && lo <= counts[d] <= hi
    {
      if lo <= counts[e] <= hi {
        any := true;
      }
    }
  }

  method FatExperts(counts: seq<nat>, cap: nat) returns (fat: set<nat>)
    ensures forall e: nat :: e in fat <==> e < |counts| && counts[e] > cap
  {
    fat := {};
    for e := 0 to |counts|
      invariant forall d: nat :: d in fat <==> d < e && counts[d] > cap
    {
      if counts[e] > cap {
        fat := fat + {e};
      }
    }
  }

  /** One tier: the launch is left out when no expert is in it. */
  method LaunchTier(r: Routing, s: seq<Term>, counts: seq<nat>, lo: nat, hi: nat, out: multiset<Term>)
    returns (added: multiset<Term>)
    requires RoutingOk(r) && Sorted(r, s) && CountsOf(r, counts)
    ensures forall x: Term ::
      added[x] == out[x] + if IsExpert(x.e, r.experts) && lo <= counts[x.e] <= hi then Reference(r, x) else 0
  {
    added := out;
    var any := CountInTier(counts, lo, hi);
    if any {
      BufferHoldsAll(r, s, counts);
      var launch := Launched(counts, Rows(s), lo, hi, r.experts);
      forall x: Term
        ensures launch[x] == if IsExpert(x.e, r.experts) && lo <= counts[x.e] <= hi then Reference(r, x) else 0
      {
        WholeLaunch(r, s, counts, lo, hi, x);
      }
      added := added + launch;
    }
  }

  /** What the tiers add: experts whose count is above the capacity and at most 32 get their terms twice. */
  ghost predicate IsTiered(r: Routing, counts: seq<nat>, cap: nat, added: multiset<Term>)
    requires RoutingOk(r) && CountsOf(r, counts)
  {
    forall x: Term :: added[x] ==
      if IsExpert(x.e, r.experts) && cap < counts[x.e] <= 32 then 2 * Reference(r, x) else Reference(r, x)
  }

  /** _exl3_prefill_tiered */
  method Tiered(r: Routing, s: seq<Term>, counts: seq<nat>, cap: nat) returns (added: multiset<Term>)
    requires RoutingOk(r) && Sorted(r, s) && CountsOf(r, counts)
    ensures IsTiered(r, counts, cap, added)
  {
    added := LaunchTier(r, s, counts, 1, 16, multiset{});
    added := LaunchTier(r, s, counts, 17, 32, added);
    added := LaunchTier(r, s, counts, 33, cap, added);
    var fat := FatExperts(counts, cap);
    if fat != {} {
      added := PythonLoop(r, fat, added);
    }
    forall x: Term | IsExpert(x.e, r.experts) && counts[x.e] == 0
      ensures Reference(r, x) == 0
    {
      CountIsZero(r, counts, x);
    }
  }

  /** So the tiers are right exactly when no count falls between the capacity and 32. */
  lemma TiersExact(r: Routing, counts: seq<nat>, cap: nat, added: multiset<Term>)
    requires RoutingOk(r) && CountsOf(r, counts) && IsTiered(r, counts, cap, added)
    ensures AddsReference(r, added) <==> forall e: nat | e < r.experts :: !(cap < counts[e] <= 32)
  {
    if e: nat :| e < r.experts && cap < counts[e] <= 32 {
      var x := SomeTerm(r, counts, e);
    }
  }

  /** Two tokens on one expert with one temporary row: more tokens than rows, so the tiers run, and each term is
      added twice. */
  lemma TiersDouble(added: multiset<Term>)
    requires RoutingOk(TwoOnOne()) && CountsOf(TwoOnOne(), [2]) && IsTiered(TwoOnOne(), [2], 1, added)
    ensures DistinctRows(TwoOnOne()) && TwoOnOne().tokens > 1
    ensures added[Term(0, Row(0, 1.0))] == 2 && Reference(TwoOnOne(), Term(0, Row(0, 1.0))) == 1
  {
    assert Flat(TwoOnOne()) == [Term(0, Row(0, 1.0)), Term(0, Row(1, 1.0))];
  }

  /** Its counts are what the dispatcher computes. */
  lemma TwoOnOneCounts()
    ensures RoutingOk(TwoOnOne()) && CountsOf(TwoOnOne(), [2])
  {
    var es := Experts(Flat(TwoOnOne()));
    assert es == [0, 0];
    assert Count(es, 1, 0) == 1 && Count(es, 2, 0) == 2;
  }

  function TwoOnOne(): Routing {
    Routing([0, 0], [1.0, 1.0], 2, 1, 1)
  }

  // ---------------------------------------------------------------- row tiles

  function Min(a: nat, b: nat): nat {
    if a <= b then a else b
  }

  /** Rows of an expert with c rows in the tile that starts at row0. */
  function TileCount(c: nat, row0: nat, tile: nat): nat {
    if c <= row0 then 0 else Min(c - row0, tile)
  }

  function TileCounts(counts: seq<nat>, row0: nat, tile: nat): (tc: seq<nat>)
    ensures |tc| == |counts| && forall e | 0 <= e < |counts| :: tc[e] == TileCount(counts[e], row0, tile)
  {
    seq(|counts|, e requires 0 <= e < |counts| => TileCount(counts[e], row0, tile))
  }

  /** Every row of an expert is in exactly one of its tiles. */
  lemma OneTile(c: nat, tile: nat, row: nat, t: nat)
    requires tile > 0 && row < c
    ensures t * tile >= 0
    ensures t * tile <= row < t * tile + TileCount(c, t * tile, tile) <==> t == row / tile
  {
    var q, at := row / tile, t * tile;
    assert row == tile * q + row % tile;
    TilesApart(t, q, tile);
    TilesApart(q, t, tile);
  }

  lemma TilesApart(t: nat, q: nat, tile: nat)
    ensures t * tile >= 0 && q * tile >= 0
    ensures t < q ==> t * tile + tile <= q * tile
  {
    if t < q {
      assert (t + 1) * tile <= q * tile;
    }
  }

  /** The expert that position idx of a tile's buffer belongs to. */
  ghost predicate Owns(tc: seq<nat>, idx: nat, e: nat) {
    e < |tc| && Prefix(tc, e) <= idx < Prefix(tc, e + 1)
  }

  lemma OwnerUnique(tc: seq<nat>, idx: nat, d: nat, e: nat)
    requires Owns(tc, idx, d) && Owns(tc, idx, e)
    ensures d == e
  {
    if d < e {
      PrefixMonotone(tc, d + 1, e);
    } else if e < d {
      PrefixMonotone(tc, e + 1, d);
    }
  }

  /** torch.searchsorted(cum, idx, right=True) on the running sums of tc. */
  method SearchRight(tc: seq<nat>, cum: seq<nat>, idx: nat) returns (e: nat)
    requires |cum| == |tc| && (forall d: nat | d < |tc| :: cum[d] == Prefix(tc, d + 1)) && idx < Prefix(tc, |tc|)
    ensures Owns(tc, idx, e)
  {
    e := 0;
    while cum[e] <= idx
      invariant e < |tc| && Prefix(tc, e) <= idx
      decreases |tc| - e
    {
      e := e + 1;
      if e == |tc| {
        assert false;
      }
    }
  }

  method RunningSums(tc: seq<nat>) returns (cum: seq<nat>)
    ensures |cum| == |tc| && forall d: nat | d < |tc| :: cum[d] == Prefix(tc, d + 1)
  {
    cum := [];
    var sum := 0;
    for e := 0 to |tc|
      invariant sum == Prefix(tc, e) && |cum| == e && forall d: nat | d < e :: cum[d] == Prefix(tc, d + 1)
    {
      sum := sum + tc[e];
      cum := cum + [sum];
    }
  }

  /** Position idx of the tile's buffer comes from its owner's rows in the sorted buffer. */
  ghost predicate Sourced(counts: seq<nat>, tc: seq<nat>, row0: nat, rows: seq<Row>, idx: nat, v: Row)
    requires |counts| == |tc|
  {
    forall e: nat | Owns(tc, idx, e) ::
      Prefix(counts, e) + row0 + (idx - Prefix(tc, e)) < |rows| &&
        v == rows[Prefix(counts, e) + row0 + (idx - Prefix(tc, e))]
  }

  /** The rows a tile launches. */
  method GatherTile(counts: seq<nat>, row0: nat, tile: nat, rows: seq<Row>) returns (g: seq<Row>)
    requires Prefix(counts, |counts|) <= |rows|
    ensures IsTile(counts, rows, row0, TileCounts(counts, row0, tile), g)
  {
    var tc := TileCounts(counts, row0, tile);
    var prefix := RunningSums(counts);
    var cum := RunningSums(tc);
    var n := if |cum| == 0 then 0 else cum[|cum| - 1];
    g := [];
    for idx := 0 to n
      invariant |g| == idx && forall i: nat | i < idx :: Sourced(counts, tc, row0, rows, i, g[i])
    {
      var e := SearchRight(tc, cum, idx);
      var local := idx - (cum[e] - tc[e]);
      var src := (if e == 0 then 0 else prefix[e - 1]) + row0 + local;
      PrefixMonotone(counts, e + 1, |counts|);
      forall d: nat | Owns(tc, idx, d)
        ensures d == e
      {
        OwnerUnique(tc, idx, d, e);
      }
      g := g + [rows[src]];
    }
  }

  /** Each expert's part of the tile's buffer is a slice of its rows. */
  lemma TileSlice(counts: seq<nat>, tc: seq<nat>, row0: nat, rows: seq<Row>, g: seq<Row>, e: nat, v: Row)
    requires |counts| == |tc| && e < |tc| && |g| == Prefix(tc, |tc|)
    requires forall idx: nat | idx < |g| :: Sourced(counts, tc, row0, rows, idx, g[idx])
    requires tc[e] > 0 && Prefix(counts, e) + row0 + tc[e] <= |rows|
    ensures Prefix(tc, e + 1) <= |g|
    ensures Occ(g, Prefix(tc, e), tc[e], v) == Occ(rows, Prefix(counts, e) + row0, tc[e], v)
  {
    PrefixMonotone(tc, e + 1, |tc|);
    var a := Prefix(tc, e);
    forall i: nat | a <= i < a + tc[e]
      ensures g[i] == rows[Prefix(counts, e) + row0 + (i - a)]
    {
      assert Sourced(counts, tc, row0, rows, i, g[i]);
      assert Owns(tc, i, e);
    }
    OccEqual(g, a, rows, Prefix(counts, e) + row0, tc[e], v);
  }

  /** What the tiles below row0 have added of a term. */
  ghost function DoneAt(counts: seq<nat>, rows: seq<Row>, row0: nat, x: Term): nat
    requires Prefix(counts, |counts|) <= |rows|
  {
    if IsExpert(x.e, |counts|) then
      PrefixMonotone(counts, x.e + 1, |counts|);
      Occ(rows, Prefix(counts, x.e), Min(counts[x.e], row0), x.row)
    else 0
  }

  /** The buffer a tile launches. */
  ghost predicate IsTile(counts: seq<nat>, rows: seq<Row>, row0: nat, tc: seq<nat>, g: seq<Row>) {
    |counts| == |tc| && |g| == Prefix(tc, |tc|) &&
      forall idx: nat | idx < |g| :: Sourced(counts, tc, row0, rows, idx, g[idx])
  }

  /** Rows done before the tile and the tile's own are the rows done after it. */
  lemma OccGrows(rows: seq<Row>, a: nat, c: nat, row0: nat, tile: nat, n: nat, v: Row)
    requires a + c <= |rows| && n == TileCount(c, row0, tile)
    ensures n > 0 ==> row0 + n <= c
    ensures n > 0 ==>
      Occ(rows, a, Min(c, row0), v) + Occ(rows, a + row0, n, v) == Occ(rows, a, Min(c, row0 + tile), v)
    ensures n == 0 ==> Min(c, row0) == Min(c, row0 + tile)
  {
    if n > 0 {
      OccSplit(rows, a, row0, n, v);
    }
  }

  lemma TileAt(counts: seq<nat>, rows: seq<Row>, row0: nat, tile: nat, tc: seq<nat>, g: seq<Row>, x: Term)
    requires Prefix(counts, |counts|) <= |rows| && IsTile(counts, rows, row0, tc, g) && IsExpert(x.e, |counts|)
    requires tc[x.e] == TileCount(counts[x.e], row0, tile)
    ensures DoneAt(counts, rows, row0, x) + LaunchAt(tc, g, 1, tile, |tc|, x) == DoneAt(counts, rows, row0 + tile, x)
  {
    PrefixMonotone(counts, x.e + 1, |counts|);
    var a := Prefix(counts, x.e);
    DoneIs(counts, rows, row0, x, a);
    DoneIs(counts, rows, row0 + tile, x, a);
    OccGrows(rows, a, counts[x.e], row0, tile, tc[x.e], x.row);
    if tc[x.e] > 0 {
      TileSlice(counts, tc, row0, rows, g, x.e, x.row);
    }
    LaunchIs(tc, g, tile, x);
  }

  lemma DoneIs(counts: seq<nat>, rows: seq<Row>, row0: nat, x: Term, a: nat)
    requires Prefix(counts, |counts|) <= |rows| && IsExpert(x.e, |counts|)
    requires a == Prefix(counts, x.e) && a + counts[x.e] <= |rows|
    ensures DoneAt(counts, rows, row0, x) == Occ(rows, a, Min(counts[x.e], row0), x.row)
  {
  }

  lemma LaunchIs(tc: seq<nat>, g: seq<Row>, tile: nat, x: Term)
    requires Prefix(tc, |tc|) <= |g| && IsExpert(x.e, |tc|) && tc[x.e] <= tile
    ensures Prefix(tc, x.e) + tc[x.e] <= |g|
    ensures LaunchAt(tc, g, 1, tile, |tc|, x) == Occ(g, Prefix(tc, x.e), tc[x.e], x.row)
  {
    PrefixMonotone(tc, x.e + 1, |tc|);
  }

  /** One tile's launch carries every expert on by at most `tile` rows. */
  lemma TileLaunch(counts: seq<nat>, rows: seq<Row>, row0: nat, tile: nat, tc: seq<nat>, g: seq<Row>, x: Term)
    requires Prefix(counts, |counts|) <= |rows| && IsTile(counts, rows, row0, tc, g) &&
      tc == TileCounts(counts, row0, tile)
    ensures DoneAt(counts, rows, row0, x) + Launched(tc, g, 1, tile, |tc|)[x] == DoneAt(counts, rows, row0 + tile, x)
  {
    LaunchedAt(tc, g, 1, tile, |tc|, x);
    if IsExpert(x.e, |counts|) {
      TileAt(counts, rows, row0, tile, tc, g, x);
    }
  }

  lemma NothingLaunched(tc: seq<nat>, g: seq<Row>, tile: nat, x: Term)
    requires Prefix(tc, |tc|) == 0 <= |g|
    ensures Launched(tc, g, 1, tile, |tc|)[x] == 0
  {
    LaunchedAt(tc, g, 1, tile, |tc|, x);
    if IsExpert(x.e, |tc|) {
      PrefixMonotone(tc, x.e + 1, |tc|);
    }
  }

  lemma CeilCovers(rows: nat, tile: nat, t: nat)
    requires tile > 0 && t == (rows + tile - 1) / tile
    ensures t * tile >= rows
  {
    assert rows + tile - 1 == tile * t + (rows + tile - 1) % tile;
  }

  ghost predicate TilesDone(counts: seq<nat>, rows: seq<Row>, row0: nat, added: multiset<Term>)
    requires Prefix(counts, |counts|) <= |rows|
  {
    forall x: Term :: added[x] == DoneAt(counts, rows, row0, x)
  }

  lemma NoTileYet(counts: seq<nat>, rows: seq<Row>)
    requires Prefix(counts, |counts|) <= |rows|
    ensures TilesDone(counts, rows, 0, multiset{})
  {
    forall x: Term
      ensures DoneAt(counts, rows, 0, x) == 0
    {
      if IsExpert(x.e, |counts|) {
        PrefixMonotone(counts, x.e + 1, |counts|);
      }
    }
  }

  /** The body of the tile loop. */
  method AddTile(counts: seq<nat>, rows: seq<Row>, row0: nat, tile: nat, out: multiset<Term>)
    returns (added: multiset<Term>)
    requires Prefix(counts, |counts|) <= |rows| && TilesDone(counts, rows, row0, out)
    ensures TilesDone(counts, rows, row0 + tile, added)
  {
    var tc := TileCounts(counts, row0, tile);
    var g := GatherTile(counts, row0, tile, rows);
    added := out;
    if |g| > 0 {
      added := added + Launched(tc, g, 1, tile, |tc|);
    }
    forall x: Term
      ensures added[x] == DoneAt(counts, rows, row0 + tile, x)
    {
      assert out[x] == DoneAt(counts, rows, row0, x);
      TileLaunch(counts, rows, row0, tile, tc, g, x);
      if |g| == 0 {
        NothingLaunched(tc, g, tile, x);
      }
    }
  }

  /** Beyond the largest count there is nothing more. */
  lemma BeyondMax(counts: seq<nat>, rows: seq<Row>, maxRows: nat, row0: nat, added: multiset<Term>)
    requires Prefix(counts, |counts|) <= |rows| && TilesDone(counts, rows, row0, added) && maxRows <= row0
    requires forall e | 0 <= e < |counts| :: counts[e] <= maxRows
    ensures TilesDone(counts, rows, maxRows, added)
  {
    forall x: Term
      ensures DoneAt(counts, rows, row0, x) == DoneAt(counts, rows, maxRows, x)
    {
      if IsExpert(x.e, |counts|) {
        assert Min(counts[x.e], row0) == Min(counts[x.e], maxRows);
      }
    }
  }

  /** _exl3_moe_row_tiles */
  method RowTiles(counts: seq<nat>, rows: seq<Row>, tile: nat, maxRows: nat) returns (added: multiset<Term>)
    requires tile > 0 && Prefix(counts, |counts|) <= |rows| && forall e | 0 <= e < |counts| :: counts[e] <= maxRows
    ensures TilesDone(counts, rows, maxRows, added)
  {
    added := multiset{};
    NoTileYet(counts, rows);
    var tiles := (maxRows + tile - 1) / tile;
    CeilCovers(maxRows, tile, tiles);
    var row0 := 0;
    for t := 0 to tiles
      invariant row0 == t * tile
      invariant TilesDone(counts, rows, row0, added)
    {
      added := AddTile(counts, rows, row0, tile, added);
      assert (t + 1) * tile == row0 + tile;
      row0 := row0 + tile;
    }
    BeyondMax(counts, rows, maxRows, row0, added);
  }

  /** Once every row is behind, the tiles have added the reference terms. */
  lemma TilesComplete(r: Routing, s: seq<Term>, counts: seq<nat>, maxRows: nat, x: Term)
    requires RoutingOk(r) && Sorted(r, s) && CountsOf(r, counts) && forall e | 0 <= e < |counts| :: counts[e] <= maxRows
    ensures Prefix(counts, |counts|) <= |Rows(s)| && DoneAt(counts, Rows(s), maxRows, x) == Reference(r, x)
  {
    BufferHoldsAll(r, s, counts);
    if IsExpert(x.e, r.experts) {
      ExpertRange(r, s, counts, x.e, x.row);
    }
  }

  // ---------------------------------------------------------------- all branches

  /** The scatter-add of ones over the local ids. */
  method ExpertCounts(r: Routing) returns (counts: seq<nat>)
    requires RoutingOk(r)
    ensures CountsOf(r, counts)
  {
    counts := seq(r.experts, _ => 0);
    ghost var es := Experts(Flat(r));
    for i := 0 to |r.ids|
      invariant |counts| == r.experts && forall e: nat | e < r.experts :: counts[e] == Count(es, i, e)
    {
      assert es[i] == Local(r, i);
      var e := Local(r, i);
      if e < r.experts {
        counts := counts[e := counts[e] + 1];
      }
    }
  }

  method MaxCount(counts: seq<nat>) returns (m: nat)
    ensures forall e | 0 <= e < |counts| :: counts[e] <= m
    ensures m == 0 || m in counts
  {
    m := 0;
    for e := 0 to |counts|
      invariant forall d | 0 <= d < e :: counts[d] <= m
      invariant m == 0 || m in counts
    {
      if counts[e] > m {
        m := counts[e];
      }
    }
  }

  /** Rows of expert e. */
  ghost function RowsOf(r: Routing, e: nat): nat
    requires RoutingOk(r)
  {
    Count(Experts(Flat(r)), |r.ids|, e)
  }

  /** They are the slots that name it. */
  lemma {:induction false} RowsOfIs(r: Routing, e: nat, n: nat)
    requires RoutingOk(r) && e < r.experts && n <= |r.ids|
    ensures Count(Experts(Flat(r)), n, e) == Count(r.ids, n, e)
  {
    if n > 0 {
      RowsOfIs(r, e, n - 1);
    }
  }

  /** The branch taken is right: the single launch when no expert outgrows the temporaries, the tiers when no count
      falls above the capacity and up to 32, the row tiles always. */
  ghost predicate BranchRight(r: Routing, cap: nat, tiers: bool)
    requires RoutingOk(r)
  {
    if r.tokens <= cap then forall e: nat | e < r.experts :: RowsOf(r, e) <= cap
    else if tiers then forall e: nat | e < r.experts :: !(cap < RowsOf(r, e) <= 32)
    else true
  }

  /** Distinct experts per token and, for tiers, 32 temporary rows are enough. */
  lemma DistinctIsRight(r: Routing, cap: nat, tiers: bool)
    requires RoutingOk(r) && DistinctRows(r) && (tiers ==> cap >= 32)
    ensures BranchRight(r, cap, tiers)
  {
    if r.tokens <= cap {
      var counts := seq(r.experts, e requires 0 <= e < r.experts => RowsOf(r, e));
      forall e: nat | e < r.experts
        ensures RowsOf(r, e) <= cap
      {
        CountsWithinTokens(r, counts, e);
        assert counts[e] == RowsOf(r, e);
      }
    }
  }

  /** apply_exl3_fused_moe without the cooperative kernel; cap is the kernel's temporary rows. */
  method FusedMoe(r: Routing, s: seq<Term>, cap: nat, tiers: bool) returns (added: multiset<Term>)
    requires RoutingOk(r) && Sorted(r, s) && cap > 0
    ensures AddsReference(r, added) <==> BranchRight(r, cap, tiers)
  {
    var counts := ExpertCounts(r);
    assert forall e: nat | e < r.experts :: counts[e] == RowsOf(r, e);
    BufferHoldsAll(r, s, counts);
    if r.tokens <= cap {
      added := Launched(counts, Rows(s), 1, cap, r.experts);
      SingleLaunchExact(r, s, counts, cap);
      return;
    }
    if tiers {
      added := Tiered(r, s, counts, cap);
      TiersExact(r, counts, cap, added);
      return;
    }
    var maxRows := MaxCount(counts);
    if maxRows <= cap {
      added := Launched(counts, Rows(s), 1, cap, r.experts);
      SingleLaunchExact(r, s, counts, cap);
    } else {
      added := RowTiles(counts, Rows(s), cap, maxRows);
      forall x: Term
        ensures added[x] == Reference(r, x)
      {
        TilesComplete(r, s, counts, maxRows, x);
      }
    }
  }
}
