/** Counting sort of (token, slot) pairs by expert (overlay/hybrid/cpu_moe.cpp).
    Slot i of the flat id list goes to expert ids[i]; ids outside [0, E) are skipped. */
module Grouping {

  /** Occurrences of e among the first n ids. */
  ghost function Count(ids: seq<int>, n: nat, e: int): nat
    requires n <= |ids|
  {
    if n == 0 then 0 else Count(ids, n - 1, e) + if ids[n - 1] == e then 1 else 0
  }

  /** Occurrences of all experts below e among the first n ids. */
  ghost function StartTo(ids: seq<int>, n: nat, e: nat): nat
    requires n <= |ids|
  {
    if e == 0 then 0 else StartTo(ids, n, e - 1) + Count(ids, n, e - 1)
  }

  /** Where expert e's range starts. */
  ghost function Start(ids: seq<int>, e: nat): nat {
    StartTo(ids, |ids|, e)
  }

  predicate IsExpert(e: int, experts: nat) {
    0 <= e < experts
  }

  /** Where slot i belongs: after all smaller experts and all earlier slots of its own. */
  ghost function Place(ids: seq<int>, i: nat): nat
    requires i < |ids| && ids[i] >= 0
  {
    Start(ids, ids[i]) + Count(ids, i, ids[i])
  }

  lemma {:induction false} CountMonotone(ids: seq<int>, m: nat, n: nat, e: int)
    requires m <= n <= |ids|
    ensures Count(ids, m, e) <= Count(ids, n, e)
  {
    if m < n {
      CountMonotone(ids, m, n - 1, e);
    }
  }

  lemma {:induction false} StartMonotone(ids: seq<int>, d: nat, e: nat)
    requires d <= e
    ensures Start(ids, d) <= Start(ids, e)
  {
    if d < e {
      StartMonotone(ids, d, e - 1);
    }
  }

  /** A slot's place lies in its expert's range. */
  lemma PlaceInRange(ids: seq<int>, i: nat)
    requires i < |ids| && ids[i] >= 0
    ensures Start(ids, ids[i]) <= Place(ids, i) < Start(ids, ids[i] + 1)
  {
    CountMonotone(ids, i + 1, |ids|, ids[i]);
  }

  lemma PlaceInjective(ids: seq<int>, i: nat, j: nat)
    requires i < |ids| && j < |ids| && ids[i] >= 0 && ids[j] >= 0 && i != j
    ensures Place(ids, i) != Place(ids, j)
  {
    PlaceInRange(ids, i);
    PlaceInRange(ids, j);
    if ids[i] < ids[j] {
      StartMonotone(ids, ids[i] + 1, ids[j]);
    } else if ids[j] < ids[i] {
      StartMonotone(ids, ids[j] + 1, ids[i]);
    } else if i < j {
      CountMonotone(ids, i + 1, j, ids[i]);
    } else {
      CountMonotone(ids, j + 1, i, ids[i]);
    }
  }

  /** Every offset below the count is some occurrence's. */
  lemma {:induction false} NthOccurrence(ids: seq<int>, n: nat, e: int, c: nat) returns (j: nat)
    requires n <= |ids| && c < Count(ids, n, e)
    ensures j < n && ids[j] == e && Count(ids, j, e) == c
  {
    if ids[n - 1] == e && c == Count(ids, n - 1, e) {
      j := n - 1;
    } else {
      j := NthOccurrence(ids, n - 1, e, c);
    }
  }

  /** All valid slots fit. */
  lemma {:induction false} StartBound(ids: seq<int>, n: nat, e: nat)
    requires n <= |ids|
    ensures StartTo(ids, n, e) <= n
  {
    if n == 0 {
      NothingYet(ids, e);
    } else {
      StartBound(ids, n - 1, e);
      StartToStep(ids, n, e);
    }
  }

  lemma {:induction false} NothingYet(ids: seq<int>, e: nat)
    ensures StartTo(ids, 0, e) == 0
  {
    if e > 0 {
      NothingYet(ids, e - 1);
    }
  }

  lemma {:induction false} StartToStep(ids: seq<int>, n: nat, e: nat)
    requires 0 < n <= |ids|
    ensures StartTo(ids, n, e) == StartTo(ids, n - 1, e) + if 0 <= ids[n - 1] < e then 1 else 0
  {
    if e > 0 {
      StartToStep(ids, n, e - 1);
    }
  }

  /** What the grouping delivers: range bounds per expert, and in each range the expert's slots in order. */
  ghost predicate Grouped(ids: seq<int>, experts: nat, eStart: seq<int>, tok: seq<int>) {
    && |eStart| == experts + 1 && |tok| == |ids|
    && (forall e: nat | e <= experts :: eStart[e] == Start(ids, e))
    && (forall i: nat | i < |ids| && IsExpert(ids[i], experts) :: Place(ids, i) < |tok| && tok[Place(ids, i)] == i)
  }

  /** Each range holds exactly its expert's slots. */
  lemma RangeHoldsExpert(ids: seq<int>, experts: nat, eStart: seq<int>, tok: seq<int>, e: nat, q: int)
    requires Grouped(ids, experts, eStart, tok) && e < experts && eStart[e] <= q < eStart[e + 1]
    ensures 0 <= q < |tok| && 0 <= tok[q] < |ids| && ids[tok[q]] == e && Place(ids, tok[q]) == q
  {
    var j := NthOccurrence(ids, |ids|, e, q - eStart[e]);
    assert Place(ids, j) == q;
  }

  // ---------------------------------------------------------------- the three loops

  method CountIds(ids: seq<int>, experts: nat, eStart: array<int>)
    requires eStart.Length == experts + 1
    modifies eStart
    ensures eStart[0] == 0 && forall e: nat | e < experts :: eStart[e + 1] == Count(ids, |ids|, e)
  {
    for e := 0 to experts + 1
      invariant forall d | 0 <= d < e :: eStart[d] == 0
    {
      eStart[e] := 0;
    }
    for i := 0 to |ids|
      invariant eStart[0] == 0 && forall e: nat | e < experts :: eStart[e + 1] == Count(ids, i, e)
    {
      if 0 <= ids[i] < experts {
        eStart[ids[i] + 1] := eStart[ids[i] + 1] + 1;
      }
    }
  }

  method PrefixSums(ids: seq<int>, experts: nat, eStart: array<int>)
    requires eStart.Length == experts + 1
    requires eStart[0] == 0 && forall e: nat | e < experts :: eStart[e + 1] == Count(ids, |ids|, e)
    modifies eStart
    ensures forall e: nat | e <= experts :: eStart[e] == Start(ids, e)
  {
    for e := 0 to experts
      invariant forall d: nat | d <= e :: eStart[d] == Start(ids, d)
      invariant forall d: nat | e <= d < experts :: eStart[d + 1] == Count(ids, |ids|, d)
    {
      eStart[e + 1] := eStart[e + 1] + eStart[e];
    }
  }

  /** The first n slots are in their places. */
  ghost predicate Filled(ids: seq<int>, experts: nat, n: nat, tok: seq<int>) {
    n <= |ids| && forall i: nat | i < n && IsExpert(ids[i], experts) :: Place(ids, i) < |tok| && tok[Place(ids, i)] == i
  }

  /** The next free place of every expert. */
  ghost predicate NextFree(ids: seq<int>, experts: nat, n: nat, fill: seq<int>) {
    n <= |ids| && |fill| == experts && forall e: nat | e < experts :: fill[e] == Start(ids, e) + Count(ids, n, e)
  }

  lemma PlaceFits(ids: seq<int>, experts: nat, i: nat)
    requires i < |ids| && IsExpert(ids[i], experts)
    ensures Place(ids, i) < |ids|
  {
    PlaceInRange(ids, i);
    StartMonotone(ids, ids[i] + 1, experts);
    StartBound(ids, |ids|, experts);
  }

  lemma FillStep(ids: seq<int>, experts: nat, n: nat, tok: seq<int>)
    requires Filled(ids, experts, n, tok) && n < |ids| && |tok| == |ids| && IsExpert(ids[n], experts)
    requires Place(ids, n) < |tok|
    ensures Filled(ids, experts, n + 1, tok[Place(ids, n) := n])
  {
    forall i: nat | i < n && IsExpert(ids[i], experts)
      ensures Place(ids, i) != Place(ids, n)
    {
      PlaceInjective(ids, i, n);
    }
  }

  lemma SkipSlot(ids: seq<int>, experts: nat, n: nat, tok: seq<int>, fill: seq<int>)
    requires Filled(ids, experts, n, tok) && NextFree(ids, experts, n, fill) && n < |ids| && !IsExpert(ids[n], experts)
    ensures Filled(ids, experts, n + 1, tok) && NextFree(ids, experts, n + 1, fill)
  {
  }

  method Fill(ids: seq<int>, experts: nat, eStart: array<int>, tok: array<int>)
    requires eStart.Length == experts + 1 && tok.Length == |ids| && tok != eStart
    requires forall e: nat | e <= experts :: eStart[e] == Start(ids, e)
    modifies tok
    ensures Filled(ids, experts, |ids|, tok[..])
  {
    var fill := new int[experts];
    for e := 0 to experts
      invariant forall d: nat | d < e :: fill[d] == Start(ids, d)
    {
      fill[e] := eStart[e];
    }
    for i := 0 to |ids|
      invariant NextFree(ids, experts, i, fill[..])
      invariant Filled(ids, experts, i, tok[..])
    {
      var e := ids[i];
      if 0 <= e < experts {
        PlaceFits(ids, experts, i);
        FillStep(ids, experts, i, tok[..]);
        assert fill[..][e] == Place(ids, i);
        ghost var t, f := tok[..], fill[..];
        tok[fill[e]] := i;
        assert tok[..] == t[Place(ids, i) := i];
        fill[e] := fill[e] + 1;
        assert fill[..] == f[e := f[e] + 1];
      } else {
        SkipSlot(ids, experts, i, tok[..], fill[..]);
      }
    }
  }

  /** The grouping block of cpu_moe_forward. */
  method GroupByExpert(ids: seq<int>, experts: nat, eStart: array<int>, tok: array<int>)
    requires eStart.Length == experts + 1 && tok.Length == |ids| && tok != eStart
    modifies eStart, tok
    ensures Grouped(ids, experts, eStart[..], tok[..])
  {
    CountIds(ids, experts, eStart);
    PrefixSums(ids, experts, eStart);
    Fill(ids, experts, eStart, tok);
  }

  predicate HasSlots(eStart: seq<int>, e: nat) {
    e + 1 < |eStart| && eStart[e + 1] > eStart[e]
  }

  /** The experts with at least one slot, ascending. */
  method ActiveExperts(experts: nat, eStart: seq<int>) returns (active: seq<nat>)
    requires |eStart| == experts + 1
    ensures forall e: nat :: e in active <==> HasSlots(eStart, e)
  {
    active := [];
    for e := 0 to experts
      invariant forall d: nat :: d in active <==> d < e && HasSlots(eStart, d)
    {
      if HasSlots(eStart, e) {
        active := active + [e];
      }
    }
  }
}
