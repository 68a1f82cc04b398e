/** The thread pool of the row store (overlay/engram_ssd/row_store.cpp), as the
    interleaved atomic sections of its worker threads and its single caller.

    A run hands the pool n job indices; index j takes lens[j] row steps.  Every
    critical section, every row step of a job and every wake-up is one event, so
    a sequence of events is an interleaving.  `jobs`, `progress`, `owner` and
    `log` record history; no branch looks at them. */
module Pool {

  /** A thread in loop(): about to test the wait condition, asleep on it, or inside job(idx) after k row steps. */
  datatype Worker = Checking | Asleep | Running(idx: nat, k: nat)

  /** The thread in run(): outside, before notify_all, before testing its wait condition, asleep on it. */
  datatype Caller = Idle | Published | Testing | Waiting

  /** Row step k of index idx, made with the function of run `tag`. */
  datatype Entry = Entry(tag: nat, idx: nat, k: nat)

  datatype State = State(
    workers: seq<Worker>, caller: Caller, job: int, njobs: nat, next: nat, finished: nat,
    jobs: seq<seq<nat>>, progress: seq<nat>, owner: seq<int>, log: seq<Entry>)

  datatype Event =
    | Start(lens: seq<nat>)
    | NotifyAll
    | Test
    | CallerWakes
    | Check(w: nat)
    | Wakes(w: nat)
    | RowStep(w: nat)
    | Finish(w: nat)

  ghost function Init(threads: nat): State {
    State(seq(threads, _ => Checking), Idle, -1, 0, 0, 0, [], [], [], [])
  }

  /** The job function being executed is whatever `job` holds now. */
  ghost function Lens(s: State): seq<nat> {
    if 0 <= s.job < |s.jobs| then s.jobs[s.job] else []
  }

  ghost predicate Enabled(s: State, ev: Event) {
    match ev
    case Start(_) => s.caller == Idle
    case NotifyAll => s.caller == Published
    case Test => s.caller == Testing
    case CallerWakes => s.caller == Waiting
    case Check(w) => w < |s.workers| && s.workers[w] == Checking
    case Wakes(w) => w < |s.workers| && s.workers[w] == Asleep
    case RowStep(w) =>
      && w < |s.workers| && s.workers[w].Running? && s.workers[w].idx < |Lens(s)|
      && s.workers[w].k < Lens(s)[s.workers[w].idx]
    case Finish(w) =>
      && w < |s.workers| && s.workers[w].Running? && s.workers[w].idx < |Lens(s)|
      && s.workers[w].k >= Lens(s)[s.workers[w].idx]
  }

  ghost function WakeAll(ws: seq<Worker>): (r: seq<Worker>)
    ensures |r| == |ws| && forall w: nat | w < |ws| :: r[w] == if ws[w] == Asleep then Checking else ws[w]
  {
    seq(|ws|, w requires 0 <= w < |ws| => if ws[w] == Asleep then Checking else ws[w])
  }

  ghost function Apply(s: State, ev: Event): State
    requires Enabled(s, ev)
  {
    match ev
    case Start(lens) =>
      s.(caller := Published, job := |s.jobs|, njobs := |lens|, next := 0, finished := 0, jobs := s.jobs + [lens],
        progress := [], owner := [])
    case NotifyAll => s.(caller := Testing, workers := WakeAll(s.workers))
    case Test => s.(caller := if s.finished == s.njobs then Idle else Waiting)
    case CallerWakes => s.(caller := Testing)
    case Check(w) =>
      if s.next < s.njobs then
        s.(workers := s.workers[w := Running(s.next, 0)], next := s.next + 1, progress := s.progress + [0],
          owner := s.owner + [w])
      else
        s.(workers := s.workers[w := Asleep])
    case Wakes(w) => s.(workers := s.workers[w := Checking])
    case RowStep(w) =>
      var r := s.workers[w];
      s.(workers := s.workers[w := Running(r.idx, r.k + 1)],
         progress := if r.idx < |s.progress| then s.progress[r.idx := r.k + 1] else s.progress,
         log := s.log + [Entry(if s.job >= 0 then s.job else 0, r.idx, r.k)])
    case Finish(w) =>
      var idx := s.workers[w].idx;
      s.(workers := s.workers[w := Checking], finished := s.finished + 1,
         owner := if idx < |s.owner| then s.owner[idx := -1] else s.owner,
         caller := if s.finished + 1 == s.njobs && s.caller == Waiting then Testing else s.caller)
  }

  // ---------------------------------------------------------------- what every interleaving keeps

  ghost function Ended(owner: seq<int>): nat {
    if |owner| == 0 then 0 else Ended(owner[..|owner| - 1]) + if owner[|owner| - 1] == -1 then 1 else 0
  }

  /** The caller is in a run, or has none yet to be in. */
  ghost predicate Counters(s: State) {
    && s.job == |s.jobs| - 1
    && s.njobs == |Lens(s)|
    && s.next <= s.njobs && |s.progress| == |s.owner| == s.next
    && s.finished == Ended(s.owner)
    && (s.caller == Idle ==> s.finished == s.njobs)
  }

  /** Claimed indices and running workers correspond one to one; an ended index is complete. */
  ghost predicate Owners(s: State) {
    && |s.progress| == |s.owner| == s.next <= |Lens(s)|
    && (forall i | 0 <= i < s.next :: s.owner[i] == -1 || 0 <= s.owner[i] < |s.workers|)
    && (forall i | 0 <= i < s.next && s.owner[i] >= 0 :: s.workers[s.owner[i]] == Running(i, s.progress[i]))
    && (forall i | 0 <= i < s.next && s.owner[i] == -1 :: s.progress[i] == Lens(s)[i])
    && (forall w | 0 <= w < |s.workers| && s.workers[w].Running? ::
          s.workers[w].idx < s.next && s.owner[s.workers[w].idx] == w)
    && (forall i | 0 <= i < s.next :: s.progress[i] <= Lens(s)[i])
  }

  /** Nobody sleeps through what it waits for. */
  ghost predicate NoLostWakeup(s: State) {
    && (s.caller == Waiting ==> s.finished < s.njobs)
    && (s.next < s.njobs && s.caller != Published ==> forall w | 0 <= w < |s.workers| :: s.workers[w] != Asleep)
  }

  /** How often a row step must have been made by now: earlier runs are complete, the current one as far as recorded. */
  ghost function Due(s: State, e: Entry): nat {
    if e.tag + 1 < |s.jobs| then (if e.idx < |s.jobs[e.tag]| && e.k < s.jobs[e.tag][e.idx] then 1 else 0)
    else if e.tag + 1 == |s.jobs| && e.idx < |s.progress| && e.k < s.progress[e.idx] then 1
    else 0
  }

  /** How often it was made. */
  ghost function Made(log: seq<Entry>, e: Entry): nat {
    if |log| == 0 then 0 else Made(log[..|log| - 1], e) + if log[|log| - 1] == e then 1 else 0
  }

  lemma MadeOne(log: seq<Entry>, x: Entry, e: Entry)
    ensures Made(log + [x], e) == Made(log, e) + if x == e then 1 else 0
  {
    assert (log + [x])[..|log|] == log;
  }

  lemma {:induction false} MadeIn(log: seq<Entry>, e: Entry)
    ensures Made(log, e) > 0 <==> e in log
  {
    if |log| > 0 {
      MadeIn(log[..|log| - 1], e);
      assert log == log[..|log| - 1] + [log[|log| - 1]];
    }
  }

  ghost predicate LogRight(s: State) {
    forall e: Entry :: Made(s.log, e) == Due(s, e)
  }

  ghost predicate Inv(s: State) {
    Counters(s) && Owners(s) && NoLostWakeup(s) && LogRight(s)
  }

  lemma {:induction false} EndedBound(owner: seq<int>)
    ensures Ended(owner) <= |owner|
    ensures Ended(owner) == |owner| <==> forall i | 0 <= i < |owner| :: owner[i] == -1
  {
    if |owner| > 0 {
      var init := owner[..|owner| - 1];
      EndedBound(init);
      assert forall i | 0 <= i < |init| :: init[i] == owner[i];
    }
  }

  lemma {:induction false} EndedSet(owner: seq<int>, i: nat)
    requires i < |owner| && owner[i] != -1
    ensures Ended(owner[i := -1]) == Ended(owner) + 1
  {
    var init := owner[..|owner| - 1];
    if i == |owner| - 1 {
      assert owner[i := -1][..|owner| - 1] == init;
    } else {
      EndedSet(init, i);
      assert owner[i := -1][..|owner| - 1] == init[i := -1];
    }
  }

  /** An idle caller means no index of the last run is still being worked on. */
  lemma IdleMeansDone(s: State)
    requires Counters(s) && Owners(s) && s.finished == s.njobs
    ensures s.next == s.njobs
    ensures forall i | 0 <= i < s.next :: s.owner[i] == -1
    ensures forall w | 0 <= w < |s.workers| :: !s.workers[w].Running?
  {
    EndedBound(s.owner);
  }

  lemma InitInv(threads: nat)
    ensures Inv(Init(threads))
  {
  }

  lemma StartStep(s: State, lens: seq<nat>)
    requires Inv(s) && Enabled(s, Start(lens))
    ensures Inv(Apply(s, Start(lens)))
  {
    IdleMeansDone(s);
    var s' := Apply(s, Start(lens));
    forall e: Entry
      ensures Made(s'.log, e) == Due(s', e)
    {
      assert Made(s.log, e) == Due(s, e);
    }
  }

  lemma CallerStep(s: State, ev: Event)
    requires Inv(s) && Enabled(s, ev) && (ev.NotifyAll? || ev.Test? || ev.CallerWakes?)
    ensures Inv(Apply(s, ev))
  {
    EndedBound(s.owner);
    var s' := Apply(s, ev);
    forall e: Entry
      ensures Made(s'.log, e) == Due(s', e)
    {
      assert Made(s.log, e) == Due(s, e);
    }
  }

  lemma ClaimCounts(s: State, w: nat)
    requires Inv(s) && Enabled(s, Check(w)) && s.next < s.njobs
    ensures Counters(Apply(s, Check(w))) && NoLostWakeup(Apply(s, Check(w)))
  {
    var owner := Apply(s, Check(w)).owner;
    assert owner[..|owner| - 1] == s.owner;
    EndedBound(s.owner);
  }

  lemma ClaimOwners(s: State, w: nat)
    requires Owners(s) && s.njobs == |Lens(s)| && Enabled(s, Check(w)) && s.next < s.njobs
    ensures Owners(Apply(s, Check(w)))
  {
  }

  lemma ClaimStep(s: State, w: nat)
    requires Inv(s) && Enabled(s, Check(w)) && s.next < s.njobs
    ensures Inv(Apply(s, Check(w)))
  {
    var s' := Apply(s, Check(w));
    ClaimCounts(s, w);
    ClaimOwners(s, w);
    forall e: Entry
      ensures Made(s'.log, e) == Due(s', e)
    {
      assert Made(s.log, e) == Due(s, e);
    }
  }

  lemma SleepStep(s: State, w: nat)
    requires Inv(s) && Enabled(s, Check(w)) && s.next >= s.njobs
    ensures Inv(Apply(s, Check(w)))
  {
    var s' := Apply(s, Check(w));
    forall e: Entry
      ensures Made(s'.log, e) == Due(s', e)
    {
      assert Made(s.log, e) == Due(s, e);
    }
  }

  lemma WakeStep(s: State, w: nat)
    requires Inv(s) && Enabled(s, Wakes(w))
    ensures Inv(Apply(s, Wakes(w)))
  {
    var s' := Apply(s, Wakes(w));
    forall e: Entry
      ensures Made(s'.log, e) == Due(s', e)
    {
      assert Made(s.log, e) == Due(s, e);
    }
  }

  lemma RowStepStep(s: State, w: nat)
    requires Inv(s) && Enabled(s, RowStep(w))
    ensures Inv(Apply(s, RowStep(w)))
  {
    var s' := Apply(s, RowStep(w));
    var r := s.workers[w];
    assert s.owner[r.idx] == w && s.progress[r.idx] == r.k;
    forall e: Entry
      ensures Made(s'.log, e) == Due(s', e)
    {
      assert Made(s.log, e) == Due(s, e);
      MadeOne(s.log, Entry(s.job, r.idx, r.k), e);
    }
  }

  lemma FinishCounts(s: State, w: nat)
    requires Inv(s) && Enabled(s, Finish(w))
    ensures Counters(Apply(s, Finish(w))) && Owners(Apply(s, Finish(w)))
  {
    EndedSet(s.owner, s.workers[w].idx);
    EndedBound(s.owner);
  }

  lemma FinishStep(s: State, w: nat)
    requires Inv(s) && Enabled(s, Finish(w))
    ensures Inv(Apply(s, Finish(w)))
  {
    var s' := Apply(s, Finish(w));
    FinishCounts(s, w);
    EndedBound(s'.owner);
    forall e: Entry
      ensures Made(s'.log, e) == Due(s', e)
    {
      assert Made(s.log, e) == Due(s, e);
    }
  }

  /** Every event keeps the invariant. */
  lemma StepInv(s: State, ev: Event)
    requires Inv(s) && Enabled(s, ev)
    ensures Inv(Apply(s, ev))
  {
    match ev
    case Start(lens) => StartStep(s, lens);
    case NotifyAll => CallerStep(s, ev);
    case Test => CallerStep(s, ev);
    case CallerWakes => CallerStep(s, ev);
    case Check(w) => if s.next < s.njobs { ClaimStep(s, w); } else { SleepStep(s, w); }
    case Wakes(w) => WakeStep(s, w);
    case RowStep(w) => RowStepStep(s, w);
    case Finish(w) => FinishStep(s, w);
  }

  // ---------------------------------------------------------------- whole runs

  ghost predicate Possible(s: State, evs: seq<Event>)
    decreases |evs|
  {
    |evs| == 0 || (Enabled(s, evs[0]) && Possible(Apply(s, evs[0]), evs[1..]))
  }

  ghost function After(s: State, evs: seq<Event>): State
    requires Possible(s, evs)
    decreases |evs|
  {
    if |evs| == 0 then s else After(Apply(s, evs[0]), evs[1..])
  }

  lemma {:induction false} AfterInv(s: State, evs: seq<Event>)
    requires Inv(s) && Possible(s, evs)
    ensures Inv(After(s, evs))
    decreases |evs|
  {
    if |evs| > 0 {
      StepInv(s, evs[0]);
      AfterInv(Apply(s, evs[0]), evs[1..]);
    }
  }

  /** Whenever the caller is outside run(), every row step of every index of every run so far was made exactly
      once, with its own run's function, and nothing else was. */
  lemma ExactlyOnce(threads: nat, evs: seq<Event>, e: Entry)
    requires Possible(Init(threads), evs) && After(Init(threads), evs).caller == Idle
    ensures var s := After(Init(threads), evs);
            Made(s.log, e) == if e.tag < |s.jobs| && e.idx < |s.jobs[e.tag]| && e.k < s.jobs[e.tag][e.idx] then 1 else 0
  {
    var s := After(Init(threads), evs);
    InitInv(threads);
    AfterInv(Init(threads), evs);
    IdleMeansDone(s);
    assert Made(s.log, e) == Due(s, e);
  }

  /** No job of an earlier run is live when the next run starts. */
  lemma NothingLive(threads: nat, evs: seq<Event>, lens: seq<nat>)
    requires Possible(Init(threads), evs) && Enabled(After(Init(threads), evs), Start(lens))
    ensures forall w | 0 <= w < |After(Init(threads), evs).workers| :: !After(Init(threads), evs).workers[w].Running?
  {
    InitInv(threads);
    AfterInv(Init(threads), evs);
    IdleMeansDone(After(Init(threads), evs));
  }

  // ---------------------------------------------------------------- progress

  /** A wake-up nobody asked for. */
  predicate Spurious(ev: Event) {
    ev.Wakes? || ev.CallerWakes?
  }

  /** While a run is under way some thread can move without a spurious wake-up. */
  lemma NoDeadlock(s: State) returns (ev: Event)
    requires Inv(s) && s.caller != Idle && |s.workers| > 0
    ensures Enabled(s, ev) && !ev.Start? && !Spurious(ev)
  {
    if s.caller == Published {
      ev := NotifyAll;
    } else if s.caller == Testing {
      ev := Test;
    } else if s.workers[0] == Checking {
      ev := Check(0);
    } else {
      EndedBound(s.owner);
      if s.next < s.njobs {
        assert s.workers[0] != Asleep;
        ev := if s.workers[0].k < Lens(s)[s.workers[0].idx] then RowStep(0) else Finish(0);
      } else {
        var i :| 0 <= i < |s.owner| && s.owner[i] != -1;
        var w := s.owner[i];
        assert s.workers[w] == Running(i, s.progress[i]);
        ev := if s.progress[i] < Lens(s)[i] then RowStep(w) else Finish(w);
      }
    }
  }

  /** Events an index still to be claimed has ahead, at most. */
  ghost function Ahead(lens: seq<nat>, from: nat): nat
    decreases |lens| - from
  {
    if from < |lens| then 3 + lens[from] + Ahead(lens, from + 1) else 0
  }

  ghost function WorkerWeight(lens: seq<nat>, w: Worker): nat {
    match w
    case Asleep => 0
    case Checking => 1
    case Running(idx, k) => 3 + if idx < |lens| && k < lens[idx] then lens[idx] - k else 0
  }

  ghost function Weights(lens: seq<nat>, ws: seq<Worker>): nat {
    if |ws| == 0 then 0 else Weights(lens, ws[..|ws| - 1]) + WorkerWeight(lens, ws[|ws| - 1])
  }

  ghost function CallerWeight(s: State): nat {
    match s.caller
    case Idle => 0
    case Waiting => 0
    case Testing => 1
    case Published => |s.workers| + 2
  }

  ghost function Measure(s: State): nat {
    Ahead(Lens(s), s.next) + Weights(Lens(s), s.workers) + CallerWeight(s)
  }

  lemma {:induction false} WeightsUpdate(lens: seq<nat>, ws: seq<Worker>, w: nat, v: Worker)
    requires w < |ws|
    ensures Weights(lens, ws[w := v]) + WorkerWeight(lens, ws[w]) == Weights(lens, ws) + WorkerWeight(lens, v)
  {
    var init := ws[..|ws| - 1];
    if w == |ws| - 1 {
      assert ws[w := v][..|ws| - 1] == init;
    } else {
      WeightsUpdate(lens, init, w, v);
      assert ws[w := v][..|ws| - 1] == init[w := v];
    }
  }

  lemma {:induction false} WeightsWake(lens: seq<nat>, ws: seq<Worker>)
    ensures Weights(lens, WakeAll(ws)) <= Weights(lens, ws) + |ws|
  {
    if |ws| > 0 {
      WeightsWake(lens, ws[..|ws| - 1]);
      assert WakeAll(ws)[..|ws| - 1] == WakeAll(ws[..|ws| - 1]);
    }
  }

  lemma ClaimMeasure(s: State, w: nat)
    requires Inv(s) && Enabled(s, Check(w))
    ensures Measure(Apply(s, Check(w))) < Measure(s)
  {
    var s' := Apply(s, Check(w));
    WeightsUpdate(Lens(s), s.workers, w, s'.workers[w]);
    assert Lens(s') == Lens(s);
  }

  lemma JobMeasure(s: State, ev: Event, w: nat)
    requires Inv(s) && Enabled(s, ev) && (ev == RowStep(w) || ev == Finish(w))
    ensures Measure(Apply(s, ev)) < Measure(s)
  {
    var s' := Apply(s, ev);
    WeightsUpdate(Lens(s), s.workers, w, s'.workers[w]);
    assert Lens(s') == Lens(s);
  }

  /** Every asked-for event brings the run closer to its end; a spurious wake-up costs at most one event. */
  lemma MeasureStep(s: State, ev: Event)
    requires Inv(s) && Enabled(s, ev) && !ev.Start?
    ensures Spurious(ev) ==> Measure(Apply(s, ev)) <= Measure(s) + 1
    ensures !Spurious(ev) ==> Measure(Apply(s, ev)) < Measure(s)
  {
    match ev
    case NotifyAll => WeightsWake(Lens(s), s.workers);
    case Test =>
    case CallerWakes =>
    case Check(w) => ClaimMeasure(s, w);
    case Wakes(w) => WeightsUpdate(Lens(s), s.workers, w, Checking);
    case RowStep(w) => JobMeasure(s, ev, w);
    case Finish(w) => JobMeasure(s, ev, w);
  }

  ghost function CountSpurious(evs: seq<Event>): nat {
    if |evs| == 0 then 0 else (if Spurious(evs[0]) then 1 else 0) + CountSpurious(evs[1..])
  }

  ghost predicate NoStart(evs: seq<Event>) {
    forall i | 0 <= i < |evs| :: !evs[i].Start?
  }

  /** Events spend the measure. */
  lemma {:induction false} MeasureSpent(s: State, evs: seq<Event>)
    requires Inv(s) && Possible(s, evs) && NoStart(evs)
    ensures |evs| + Measure(After(s, evs)) <= Measure(s) + 2 * CountSpurious(evs)
    decreases |evs|
  {
    if |evs| > 0 {
      StepInv(s, evs[0]);
      MeasureStep(s, evs[0]);
      assert NoStart(evs[1..]);
      MeasureSpent(Apply(s, evs[0]), evs[1..]);
    }
  }

  ghost function Total(lens: seq<nat>): nat {
    if |lens| == 0 then 0 else lens[|lens| - 1] + Total(lens[..|lens| - 1])
  }

  lemma {:induction false} AheadIsTotal(lens: seq<nat>, from: nat)
    requires from <= |lens|
    ensures Ahead(lens, from) == 3 * (|lens| - from) + Total(lens) - Total(lens[..from])
    decreases |lens| - from
  {
    if from < |lens| {
      AheadIsTotal(lens, from + 1);
      assert lens[..from + 1][..from] == lens[..from];
    } else {
      assert lens[..from] == lens;
    }
  }

  lemma {:induction false} RestingWeights(lens: seq<nat>, ws: seq<Worker>)
    requires forall w | 0 <= w < |ws| :: !ws[w].Running?
    ensures Weights(lens, ws) <= |ws|
  {
    if |ws| > 0 {
      RestingWeights(lens, ws[..|ws| - 1]);
    }
  }

  /** Every run finishes: from its start, an interleaving is at most this long (two events more per spurious
      wake-up), and where it can only go on by spurious wake-ups or a next run the caller has returned. */
  lemma RunFinishes(s: State, lens: seq<nat>, evs: seq<Event>)
    requires Inv(s) && Enabled(s, Start(lens)) && |s.workers| > 0
    requires Possible(Apply(s, Start(lens)), evs) && NoStart(evs)
    ensures |evs| <= 3 * |lens| + Total(lens) + 2 * |s.workers| + 2 + 2 * CountSpurious(evs)
    ensures var t := After(Apply(s, Start(lens)), evs);
            (forall ev: Event | Enabled(t, ev) :: ev.Start? || Spurious(ev)) ==> t.caller == Idle
  {
    var s1 := Apply(s, Start(lens));
    StepInv(s, Start(lens));
    IdleMeansDone(s);
    RestingWeights(lens, s.workers);
    AheadIsTotal(lens, 0);
    MeasureSpent(s1, evs);
    AfterInv(s1, evs);
    var t := After(s1, evs);
    WorkersStay(s1, evs);
    if t.caller != Idle {
      var ev := NoDeadlock(t);
    }
  }

  lemma {:induction false} WorkersStay(s: State, evs: seq<Event>)
    requires Possible(s, evs)
    ensures |After(s, evs).workers| == |s.workers|
    decreases |evs|
  {
    if |evs| > 0 {
      WorkersStay(Apply(s, evs[0]), evs[1..]);
    }
  }

  // ---------------------------------------------------------------- the critical sections themselves

  /** The shared fields, and the program counters of the threads as ghosts. */
  class SharedPool {
    var job: int
    var njobs: nat
    var next: nat
    var finished: nat
    ghost var s: State

    ghost predicate Valid()
      reads this
    {
      Inv(s) && job == s.job && njobs == s.njobs && next == s.next && finished == s.finished
    }

    constructor (ghost threads: nat)
      ensures Valid() && s == Init(threads)
    {
      job, njobs, next, finished := -1, 0, 0, 0;
      s := Init(threads);
      new;
      InitInv(threads);
    }

    /** The first section of run(): tag names the function handed over. */
    method Publish(n: nat, tag: nat, ghost lens: seq<nat>)
      requires Valid() && Enabled(s, Start(lens)) && n == |lens| && tag == |s.jobs|
      modifies this
      ensures Valid() && s == Apply(old(s), Start(lens))
    {
      StepInv(s, Start(lens));
      job, njobs, next, finished := tag, n, 0, 0;
      s := Apply(s, Start(lens));
    }

    /** The wait condition of run(); it sleeps when the answer is no. */
    method AllFinished() returns (yes: bool)
      requires Valid() && Enabled(s, Test)
      modifies this
      ensures Valid() && s == Apply(old(s), Test)
      ensures yes <==> s.caller == Idle
    {
      StepInv(s, Test);
      yes := finished == njobs;
      s := Apply(s, Test);
    }

    /** The first section of loop(): claim an index, or sleep. */
    method Claim(ghost w: nat) returns (claimed: bool, idx: nat)
      requires Valid() && Enabled(s, Check(w))
      modifies this
      ensures Valid() && s == Apply(old(s), Check(w))
      ensures claimed ==> s.workers[w] == Running(idx, 0) && s.owner[idx] == w
      ensures !claimed ==> s.workers[w] == Asleep
    {
      StepInv(s, Check(w));
      claimed, idx := next < njobs, next;
      if claimed {
        next := next + 1;
      }
      s := Apply(s, Check(w));
    }

    /** The second section of loop(); `last` tells the worker to notify the caller. */
    method End(ghost w: nat) returns (last: bool)
      requires Valid() && Enabled(s, Finish(w))
      modifies this
      ensures Valid() && s == Apply(old(s), Finish(w))
      ensures last <==> s.next == s.njobs && forall i | 0 <= i < s.next :: s.owner[i] == -1
    {
      StepInv(s, Finish(w));
      finished := finished + 1;
      last := finished == njobs;
      s := Apply(s, Finish(w));
      EndedBound(s.owner);
    }
  }
}
