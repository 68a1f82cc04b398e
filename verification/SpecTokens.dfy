/** Token bookkeeping between the scheduler and the non-last pipeline workers
    under speculative decoding (overlay/patch_pp_spec_tokens.py).

    The scheduler keeps a watermark of what it has sent for each request and
    sends everything from there to the last non-draft token of the step.  Batches
    travel in order; a worker appends what it receives to its own copy of the
    tokens and to the CPU row the model reads its inputs from.  Outputs come
    back later and append the accepted drafts and one sampled token.

    All per-request state is independent of other requests, so the protocol is
    modelled for one request. */
module SpecTokens {
  type Token = int

  function Max(a: int, b: int): int {
    if a >= b then a else b
  }

  /** Python's s[a:b] for non-negative bounds. */
  function Slice(s: seq<Token>, a: nat, b: nat): seq<Token> {
    var hi := if b <= |s| then b else |s|;
    if a <= hi then s[a..hi] else []
  }

  // ---------------------------------------------------------------- scheduler

  datatype Status = Waiting | Running | Preempted

  /** A request as the scheduler sees it. `all` is all_token_ids, `sent` its
      watermark entry (0 when absent), `chunk` is is_prefill_chunk. */
  datatype Req = Req(prompt: nat, all: seq<Token>, computed: nat, spec: seq<Token>, chunk: bool, status: Status,
                     sent: nat)

  /** One scheduled step of the request: positions [start, start + k), the last
      |drafts| of them drafts; `tokens` is the payload, the whole prompt when
      the worker sees the request for the first time. */
  datatype Batch = Batch(first: bool, start: nat, k: nat, drafts: seq<Token>, tokens: seq<Token>, samples: bool)

  function End(b: Batch): int {
    b.start + b.k - |b.drafts|
  }

  /** max(sent, num_prompt_tokens) */
  function Watermark(r: Req): nat {
    Max(r.sent, r.prompt)
  }

  /** The payload for a step whose non-draft tokens end at `end`, and the advanced watermark. */
  function Payload(r: Req, end: nat): seq<Token> {
    Slice(r.all, Watermark(r), end)
  }

  function AfterSend(r: Req, end: nat): Req {
    r.(sent := Max(Watermark(r), end))
  }

  /** The schedule-ahead guard: some real token is still uncomputed. */
  predicate Ready(r: Req) {
    r.status == Running && r.computed < |r.all|
  }

  /** k new positions for a ready running request; budgets only ever lower k. */
  predicate CanSchedule(r: Req, k: nat) {
    Ready(r) && 1 <= k <= |r.all| + |r.spec| - r.computed
  }

  /** scheduled_spec_decode_tokens: the drafts among k new positions. */
  function ScheduledDrafts(r: Req, k: nat): seq<Token> {
    var numSpec := k + r.computed - |r.all|;
    if numSpec > 0 then (if |r.spec| > numSpec then r.spec[..numSpec] else r.spec) else []
  }

  function ScheduleBatch(r: Req, k: nat): Batch
    requires CanSchedule(r, k)
  {
    var drafts := ScheduledDrafts(r, k);
    var end := r.computed + k - |drafts|;
    Batch(false, r.computed, k, drafts, Payload(r, end), end == |r.all|)
  }

  function AfterSchedule(r: Req, k: nat): Req
    requires CanSchedule(r, k)
  {
    var end := r.computed + k - |ScheduledDrafts(r, k)|;
    AfterSend(r, end).(computed := r.computed + k, spec := [], chunk := r.computed + k < |r.all|)
  }

  /** Admission of a new request or resumption of a preempted one: `c` tokens
      found in the prefix cache, k real tokens scheduled, and, for a single
      remaining token, the padding drafts that keep the step uniform. */
  predicate CanAdmit(r: Req, c: nat, k: nat, pad: seq<Token>) {
    && r.status != Running
    && 1 <= k && c + k <= |r.all|
    && (pad != [] ==> k == 1 && c + k == |r.all|)
  }

  function AdmitBatch(r: Req, c: nat, k: nat, pad: seq<Token>): Batch
    requires CanAdmit(r, c, k, pad)
  {
    if r.status == Waiting
      then Batch(true, c, k + |pad|, pad, Slice(r.all, 0, r.prompt), c + k == |r.all|)
      else Batch(false, c, k + |pad|, pad, Payload(r, c + k), c + k == |r.all|)
  }

  function AfterAdmit(r: Req, c: nat, k: nat, pad: seq<Token>): Req
    requires CanAdmit(r, c, k, pad)
  {
    (if r.status == Waiting then r else AfterSend(r, c + k))
      .(computed := c + k + |pad|, status := Running, chunk := c + k + |pad| < |r.all|)
  }

  /** Sampler output: an accepted prefix of the drafts and one more token; nothing for an inner prefill chunk. */
  predicate IsOutput(b: Batch, gen: seq<Token>) {
    if b.samples
      then 1 <= |gen| <= |b.drafts| + 1 && gen[..|gen| - 1] == b.drafts[..|gen| - 1]
      else gen == []
  }

  /** update_from_output: rejected drafts roll the computed count back unless the output predates a preemption. */
  function AfterOutput(r: Req, b: Batch, gen: seq<Token>, stale: bool): Req
    requires IsOutput(b, gen)
  {
    var rejected := if b.drafts != [] && gen != [] then |b.drafts| - (|gen| - 1) else 0;
    r.(all := r.all + gen,
       computed := if !stale && r.computed > 0 then Max(r.computed - rejected, 0) else r.computed)
  }

  /** update_draft_token_ids */
  function AfterDrafts(r: Req, drafts: seq<Token>): Req {
    r.(spec := if r.chunk then [] else drafts)
  }

  function AfterPreempt(r: Req): Req {
    r.(computed := 0, spec := [], status := Preempted)
  }

  // ---------------------------------------------------------------- worker

  /** CachedRequestState tokens, and the request's row of token_ids_cpu while
      the request is in the persistent batch. */
  datatype Worker = Worker(known: bool, tokens: seq<Token>, inBatch: bool, row: seq<Token>, noSpec: nat)

  /** row[at : at + |xs|] = xs */
  function Overwrite(row: seq<Token>, at: nat, xs: seq<Token>): (r: seq<Token>)
    requires at <= |row|
    ensures |r| >= at + |xs| && r[..at] == row[..at] && r[at..at + |xs|] == xs
  {
    row[..at] + xs + if at + |xs| <= |row| then row[at + |xs|..] else []
  }

  /** The drop rule: what is appended of a payload that ends at position `end`. */
  function Fresh(have: nat, tokens: seq<Token>, end: int): seq<Token> {
    var drop := Max(0, have - (end - |tokens|));
    if drop <= |tokens| then tokens[drop..] else []
  }

  /** The row after appending `appended`, or after an empty payload, whose end index may still advance. */
  function NoSpecAfter(noSpec: nat, start: nat, appended: seq<Token>): nat {
    if appended != [] then noSpec + |appended| else Max(noSpec, start)
  }

  function Receive(w: Worker, b: Batch): Worker
    requires w.inBatch ==> w.noSpec <= |w.row|
  {
    if b.first then
      Worker(true, b.tokens, true, Overwrite(b.tokens, |b.tokens|, b.drafts), |b.tokens|)
    else
      var appended := Fresh(|w.tokens|, b.tokens, End(b));
      var tokens := w.tokens + appended;
      if !w.inBatch then
        Worker(true, tokens, true, Overwrite(tokens, |tokens|, b.drafts), |tokens|)
      else
        var noSpec := NoSpecAfter(w.noSpec, b.start, appended);
        var row := Overwrite(w.row, w.noSpec, appended);
        Worker(true, tokens, true, if noSpec <= |row| then Overwrite(row, noSpec, b.drafts) else row, noSpec)
  }

  // ---------------------------------------------------------------- the system

  /** pipe: sent, not yet received by the worker; flight: received, output pending. The oldest `stale` of them
      predate a preemption; `drop` says whether their output is discarded. */
  datatype Sys = Sys(req: Req, pipe: seq<Batch>, flight: seq<Batch>, w: Worker, stale: nat, drop: bool)

  datatype Event =
    | Admit(c: nat, k: nat, pad: seq<Token>)
    | Schedule(n: nat)
    | Deliver
    | Output(gen: seq<Token>)
    | Drafts(drafts: seq<Token>)
    | Preempt(discard: bool)
    | Unbatch                      // the worker drops an idle request from its persistent batch

  predicate Enabled(s: Sys, e: Event) {
    match e
    case Admit(c, k, pad) => CanAdmit(s.req, c, k, pad) && (s.stale == 0 || s.drop)
    case Schedule(k) => CanSchedule(s.req, k)
    case Deliver => s.pipe != [] && (s.w.inBatch ==> s.w.noSpec <= |s.w.row|)
    case Output(gen) => s.flight != [] && IsOutput(s.flight[0], gen)
    case Drafts(_) => true
    case Preempt(_) => s.req.status == Running
    case Unbatch => true
  }

  function Next(s: Sys, e: Event): Sys
    requires Enabled(s, e)
  {
    match e
    case Admit(c, k, pad) => s.(req := AfterAdmit(s.req, c, k, pad), pipe := s.pipe + [AdmitBatch(s.req, c, k, pad)])
    case Schedule(k) => s.(req := AfterSchedule(s.req, k), pipe := s.pipe + [ScheduleBatch(s.req, k)])
    case Deliver => s.(pipe := s.pipe[1..], flight := s.flight + [s.pipe[0]], w := Receive(s.w, s.pipe[0]))
    case Output(gen) =>
      s.(req := if s.stale > 0 && s.drop then s.req else AfterOutput(s.req, s.flight[0], gen, s.stale > 0),
         flight := s.flight[1..], stale := if s.stale > 0 then s.stale - 1 else 0)
    case Drafts(d) => s.(req := AfterDrafts(s.req, d))
    case Preempt(discard) =>
      s.(req := AfterPreempt(s.req), stale := |InFlight(s)|, drop := discard || (s.drop && s.stale > 0))
    case Unbatch => s.(w := s.w.(inBatch := false))
  }

  /** A request just arrived: its prompt, nothing sent, unknown to the worker. */
  predicate Init(s: Sys) {
    && s.req == Req(|s.req.all|, s.req.all, 0, [], false, Waiting, 0) && s.req.all != []
    && s.pipe == [] && s.flight == [] && s.stale == 0 && !s.drop
    && s.w == Worker(false, [], false, [], 0)
  }

  ghost predicate IsRun(trace: seq<Sys>, events: seq<Event>) {
    && |trace| == |events| + 1
    && Init(trace[0])
    && forall i | 0 <= i < |events| :: Enabled(trace[i], events[i]) && trace[i + 1] == Next(trace[i], events[i])
  }

  // ---------------------------------------------------------------- invariants

  /** How many tokens have been sent. */
  function SentTo(r: Req): nat {
    if r.status == Waiting then 0 else Watermark(r)
  }

  /** A batch in the pipe, when the batches before it bring the worker to `pos` tokens. */
  ghost predicate Fits(all: seq<Token>, pos: nat, b: Batch) {
    && pos + |b.tokens| <= |all| && b.tokens == all[pos..pos + |b.tokens|]
    && |b.drafts| < b.k && End(b) <= pos + |b.tokens|
    && (b.drafts != [] ==> End(b) == pos + |b.tokens|)
    && (b.first <==> pos == 0)
    && (!b.first && b.tokens != [] ==> End(b) == pos + |b.tokens|)
    && (b.first ==> b.tokens != [])
  }

  function Carried(pipe: seq<Batch>): nat {
    if pipe == [] then 0 else |pipe[0].tokens| + Carried(pipe[1..])
  }

  ghost predicate PipeFits(all: seq<Token>, pos: nat, pipe: seq<Batch>)
    decreases |pipe|
  {
    pipe != [] ==> Fits(all, pos, pipe[0]) && PipeFits(all, pos + |pipe[0].tokens|, pipe[1..])
  }

  /** Everything scheduled whose output has not come back, oldest first. */
  function InFlight(s: Sys): seq<Batch> {
    s.flight + s.pipe
  }

  /** Those whose output will count. */
  function LiveOf(infl: seq<Batch>, stale: nat, drop: bool): seq<Batch> {
    if drop && stale <= |infl| then infl[stale..] else infl
  }

  function Live(s: Sys): seq<Batch> {
    LiveOf(InFlight(s), s.stale, s.drop)
  }

  /** Only the newest batch in flight can sample, and then it covers every real
      token; older ones are inner prefill chunks without drafts. */
  ghost predicate BatchOk(r: Req, b: Batch, newest: bool) {
    && |b.drafts| < b.k
    && (b.samples ==> newest && End(b) == |r.all|)
    && (!b.samples ==> b.drafts == [] && End(b) < |r.all|)
  }

  ghost predicate FlightOk(r: Req, infl: seq<Batch>) {
    && (forall i | 0 <= i < |infl| :: BatchOk(r, infl[i], i == |infl| - 1))
    && (forall i | 0 < i < |infl| :: infl[i].start == infl[i - 1].start + infl[i - 1].k)
  }

  ghost predicate SchedInv(s: Sys) {
    SchedOk(s.req, Live(s)) && StaleOk(s.req.status, |InFlight(s)|, s.stale, s.drop)
  }

  ghost predicate SchedOk(r: Req, live: seq<Batch>) {
    && 1 <= r.prompt <= |r.all| && SentTo(r) <= |r.all|
    && FlightOk(r, live)
    && (r.status == Waiting ==> r.sent == 0 && r.prompt == |r.all|)
    && (r.status == Running ==>
          && r.computed > 0
          && if live == [] then r.computed < |r.all| else r.computed == live[|live| - 1].start + live[|live| - 1].k)
  }

  /** A preempted request's batches are all stale; a request runs on beside stale ones only when they are dropped. */
  predicate StaleOk(status: Status, inFlight: nat, stale: nat, drop: bool) {
    && stale <= inFlight
    && (status == Waiting ==> inFlight == 0)
    && (status == Preempted ==> stale == inFlight)
    && (stale > 0 && !drop ==> status == Preempted)
  }

  ghost predicate WorkerInv(s: Sys) {
    WorkerOk(s.req.all, SentTo(s.req), s.w, s.pipe)
  }

  /** Worker tokens and pipe carry the first `sent` tokens. */
  ghost predicate WorkerOk(all: seq<Token>, sent: nat, w: Worker, pipe: seq<Batch>) {
    && |w.tokens| <= |all| && w.tokens == all[..|w.tokens|]
    && |w.tokens| + Carried(pipe) == sent
    && PipeFits(all, |w.tokens|, pipe)
    && (w.known <==> w.tokens != [])
    && RowOk(w)
  }

  /** The row starts with the worker's tokens. */
  ghost predicate RowOk(w: Worker) {
    w.inBatch ==> w.noSpec == |w.tokens| <= |w.row| && w.row[..w.noSpec] == w.tokens
  }

  ghost predicate Inv(s: Sys) {
    SchedInv(s) && WorkerInv(s)
  }

  /** Appending a batch that fits where the pipe ends. */
  lemma PipeAppend(all: seq<Token>, pos: nat, pipe: seq<Batch>, b: Batch)
    requires PipeFits(all, pos, pipe) && Fits(all, pos + Carried(pipe), b)
    ensures PipeFits(all, pos, pipe + [b]) && Carried(pipe + [b]) == Carried(pipe) + |b.tokens|
  {
    CarriedAppend(pipe, b);
    FitsAppend(all, pos, pipe, b);
  }

  lemma {:induction false} CarriedAppend(pipe: seq<Batch>, b: Batch)
    ensures Carried(pipe + [b]) == Carried(pipe) + |b.tokens|
  {
    if pipe != [] {
      CarriedAppend(pipe[1..], b);
      assert (pipe + [b])[1..] == pipe[1..] + [b];
    }
  }

  lemma {:induction false} FitsAppend(all: seq<Token>, pos: nat, pipe: seq<Batch>, b: Batch)
    requires PipeFits(all, pos, pipe) && Fits(all, pos + Carried(pipe), b)
    ensures PipeFits(all, pos, pipe + [b])
    decreases |pipe|
  {
    if pipe != [] {
      var first, rest := pipe[0], pipe[1..];
      FitsAppend(all, pos + |first.tokens|, rest, b);
      assert pipe + [b] == [first] + (rest + [b]);
      FitsCons(all, pos, first, rest + [b]);
    } else {
      assert pipe + [b] == [b] + [];
      FitsCons(all, pos, b, []);
    }
  }

  lemma {:induction false} FitsCons(all: seq<Token>, pos: nat, first: Batch, rest: seq<Batch>)
    requires Fits(all, pos, first) && PipeFits(all, pos + |first.tokens|, rest)
    ensures PipeFits(all, pos, [first] + rest)
  {
    assert ([first] + rest)[1..] == rest;
  }

  /** New tokens leave every batch in the pipe as it was. */
  lemma {:induction false} PipeGrows(all: seq<Token>, gen: seq<Token>, pos: nat, pipe: seq<Batch>)
    requires PipeFits(all, pos, pipe)
    ensures PipeFits(all + gen, pos, pipe)
    decreases |pipe|
  {
    if pipe != [] {
      PipeGrows(all, gen, pos + |pipe[0].tokens|, pipe[1..]);
    }
  }

  // ---------------------------------------------------------------- every step keeps them

  /** A scheduled step holds at least one real token, and its drafts start right after the last one. */
  lemma ScheduleShape(r: Req, k: nat)
    requires CanSchedule(r, k)
    ensures var b := ScheduleBatch(r, k);
            && 1 <= b.k - |b.drafts|
            && BatchOk(r, b, true)
            && End(b) <= |r.all| && (b.drafts != [] ==> End(b) == |r.all|)
            && (b.samples <==> r.computed + k >= |r.all|)
  {
  }

  lemma LiveAppend(infl: seq<Batch>, stale: nat, drop: bool, b: Batch)
    requires stale <= |infl|
    ensures LiveOf(infl + [b], stale, drop) == LiveOf(infl, stale, drop) + [b]
  {
  }

  /** Another batch joins the pipe. */
  lemma SendLive(s: Sys, t: Sys, b: Batch)
    requires t.pipe == s.pipe + [b] && t.flight == s.flight && t.stale == s.stale <= |InFlight(s)| && t.drop == s.drop
    ensures Live(t) == Live(s) + [b] && |InFlight(t)| == |InFlight(s)| + 1
  {
    assert InFlight(t) == InFlight(s) + [b];
    LiveAppend(InFlight(s), s.stale, s.drop, b);
  }

  lemma ScheduleSched(s: Sys, k: nat)
    requires Inv(s) && CanSchedule(s.req, k)
    ensures SchedInv(Next(s, Schedule(k)))
  {
    ScheduleShape(s.req, k);
    var t := Next(s, Schedule(k));
    SendLive(s, t, ScheduleBatch(s.req, k));
    ScheduleOk(s.req, k, Live(s));
  }

  lemma ScheduleOk(r: Req, k: nat, live: seq<Batch>)
    requires SchedOk(r, live) && CanSchedule(r, k)
    ensures SchedOk(AfterSchedule(r, k), live + [ScheduleBatch(r, k)])
  {
    ScheduleShape(r, k);
    FlightAppend(r, AfterSchedule(r, k), live, ScheduleBatch(r, k));
  }

  /** A request that can be scheduled has no sampling step in flight, so another batch may follow. */
  lemma FlightAppend(r: Req, r': Req, infl: seq<Batch>, b: Batch)
    requires FlightOk(r, infl) && r'.all == r.all && r.computed < |r.all| && b.start == r.computed &&
      BatchOk(r, b, true)
    requires infl != [] ==> r.computed == infl[|infl| - 1].start + infl[|infl| - 1].k
    ensures FlightOk(r', infl + [b])
  {
    if infl != [] {
      assert BatchOk(r, infl[|infl| - 1], true);
    }
    forall i | 0 <= i < |infl|
      ensures BatchOk(r', infl[i], false)
    {
      assert BatchOk(r, infl[i], i == |infl| - 1);
    }
  }

  lemma ScheduleWorker(s: Sys, k: nat)
    requires Inv(s) && CanSchedule(s.req, k)
    ensures WorkerInv(Next(s, Schedule(k)))
  {
    ScheduleFits(s.req, k);
    PipeAppend(s.req.all, |s.w.tokens|, s.pipe, ScheduleBatch(s.req, k));
  }

  /** The payload of a scheduled step goes on where the last one ended. */
  lemma ScheduleFits(r: Req, k: nat)
    requires CanSchedule(r, k) && 1 <= r.prompt && Watermark(r) <= |r.all|
    ensures Fits(r.all, Watermark(r), ScheduleBatch(r, k))
    ensures AfterSchedule(r, k).sent == Watermark(r) + |ScheduleBatch(r, k).tokens|
  {
    ScheduleShape(r, k);
  }

  lemma AdmitSched(s: Sys, c: nat, k: nat, pad: seq<Token>)
    requires SchedInv(s) && Enabled(s, Admit(c, k, pad))
    ensures SchedInv(Next(s, Admit(c, k, pad)))
  {
    NoneLive(s);
    AdmitOk(s.req, c, k, pad);
    AdmitLive(s, Next(s, Admit(c, k, pad)), AdmitBatch(s.req, c, k, pad));
  }

  /** A request that is not running has no batch in flight that counts, unless it must wait for it. */
  lemma NoneLive(s: Sys)
    requires StaleOk(s.req.status, |InFlight(s)|, s.stale, s.drop) && s.req.status != Running &&
      (s.stale == 0 || s.drop)
    ensures Live(s) == []
  {
  }

  lemma AdmitLive(s: Sys, t: Sys, b: Batch)
    requires t.pipe == s.pipe + [b] && t.flight == s.flight && t.stale == s.stale <= |InFlight(s)| && t.drop == s.drop
    requires Live(s) == []
    ensures Live(t) == [b] && |InFlight(t)| == |InFlight(s)| + 1
  {
    SendLive(s, t, b);
  }

  lemma AdmitOk(r: Req, c: nat, k: nat, pad: seq<Token>)
    requires SchedOk(r, []) && CanAdmit(r, c, k, pad)
    ensures SchedOk(AfterAdmit(r, c, k, pad), [AdmitBatch(r, c, k, pad)])
  {
  }

  lemma AdmitWorker(s: Sys, c: nat, k: nat, pad: seq<Token>)
    requires Inv(s) && Enabled(s, Admit(c, k, pad))
    ensures WorkerInv(Next(s, Admit(c, k, pad)))
  {
    AdmitFits(s.req, c, k, pad);
    PipeAppend(s.req.all, |s.w.tokens|, s.pipe, AdmitBatch(s.req, c, k, pad));
  }

  /** The first batch brings the prompt, a resumed one goes on where the last ended. */
  lemma AdmitFits(r: Req, c: nat, k: nat, pad: seq<Token>)
    requires CanAdmit(r, c, k, pad) && 1 <= r.prompt <= |r.all| && Watermark(r) <= |r.all|
    requires r.status == Waiting ==> r.sent == 0 && r.prompt == |r.all|
    ensures Fits(r.all, SentTo(r), AdmitBatch(r, c, k, pad))
    ensures SentTo(AfterAdmit(r, c, k, pad)) == SentTo(r) + |AdmitBatch(r, c, k, pad).tokens|
  {
  }

  /** The payload starts exactly where the worker's tokens end: the drop rule removes nothing. */
  lemma NothingDropped(all: seq<Token>, w: Worker, b: Batch)
    requires Fits(all, |w.tokens|, b) && !b.first
    ensures Fresh(|w.tokens|, b.tokens, End(b)) == b.tokens
  {
  }

  /** The worker's tokens grow by exactly the payload, and the row stays in step. */
  lemma ReceiveAppends(all: seq<Token>, w: Worker, b: Batch)
    requires Fits(all, |w.tokens|, b) && RowOk(w)
    ensures Receive(w, b).tokens == w.tokens + b.tokens
    ensures RowOk(Receive(w, b)) && Receive(w, b).known && Receive(w, b).inBatch
  {
    if !b.first {
      NothingDropped(all, w, b);
    }
  }

  lemma DeliverSched(s: Sys)
    requires Inv(s) && Enabled(s, Deliver)
    ensures SchedInv(Next(s, Deliver))
  {
    var t := Next(s, Deliver);
    assert InFlight(t) == InFlight(s);
  }

  lemma DeliverWorker(s: Sys)
    requires Inv(s) && Enabled(s, Deliver)
    ensures WorkerInv(Next(s, Deliver))
  {
    DeliverOk(s.req.all, SentTo(s.req), s.w, s.pipe);
  }

  lemma DeliverOk(all: seq<Token>, sent: nat, w: Worker, pipe: seq<Batch>)
    requires pipe != [] && WorkerOk(all, sent, w, pipe)
    ensures WorkerOk(all, sent, Receive(w, pipe[0]), pipe[1..])
  {
    DeliverPrefix(all, w, pipe[0]);
    PipeMoves(all, sent, w, Receive(w, pipe[0]), pipe);
  }

  /** The worker's tokens have grown by the first batch's payload. */
  lemma PipeMoves(all: seq<Token>, sent: nat, w: Worker, w': Worker, pipe: seq<Batch>)
    requires pipe != [] && WorkerOk(all, sent, w, pipe)
    requires |w'.tokens| == |w.tokens| + |pipe[0].tokens| <= |all| && w'.tokens == all[..|w'.tokens|]
    requires RowOk(w') && w'.known && w'.tokens != []
    ensures WorkerOk(all, sent, w', pipe[1..])
  {
  }

  lemma DeliverPrefix(all: seq<Token>, w: Worker, b: Batch)
    requires |w.tokens| <= |all| && w.tokens == all[..|w.tokens|] && Fits(all, |w.tokens|, b) && RowOk(w)
    ensures var w' := Receive(w, b);
            && |w'.tokens| == |w.tokens| + |b.tokens| <= |all| && w'.tokens == all[..|w'.tokens|]
            && RowOk(w') && w'.known && w'.tokens != []
  {
    ReceiveAppends(all, w, b);
    SliceJoin(all, 0, |w.tokens|, |w.tokens| + |b.tokens|);
  }

  lemma SliceJoin(all: seq<Token>, a: nat, b: nat, c: nat)
    requires a <= b <= c <= |all|
    ensures all[a..b] + all[b..c] == all[a..c]
  {
  }

  /** Events that touch neither the batches nor the tokens. */
  lemma QuietStep(s: Sys, e: Event)
    requires Inv(s) && Enabled(s, e) && (e.Drafts? || e.Preempt? || e.Unbatch?)
    ensures Inv(Next(s, e))
  {
    var t := Next(s, e);
    assert InFlight(t) == InFlight(s);
    if e.Preempt? {
      PreemptLive(s, t, e.discard);
      PreemptOk(s.req, Live(s), Live(t));
    } else {
      QuietOk(s.req, t.req, Live(s));
    }
  }

  lemma PreemptOk(r: Req, live: seq<Batch>, live': seq<Batch>)
    requires SchedOk(r, live) && r.status == Running && (live' == [] || live' == live)
    ensures SchedOk(AfterPreempt(r), live')
  {
    SameFlight(r, AfterPreempt(r), live);
  }

  lemma QuietOk(r: Req, r': Req, live: seq<Batch>)
    requires SchedOk(r, live) && r' == r.(spec := r'.spec)
    ensures SchedOk(r', live)
  {
    SameFlight(r, r', live);
  }

  /** A preemption drops all of the batches in flight, or none that counted before. */
  lemma PreemptLive(s: Sys, t: Sys, discard: bool)
    requires Inv(s) && Enabled(s, Preempt(discard)) && t == Next(s, Preempt(discard))
    ensures Live(t) == [] || Live(t) == Live(s)
  {
    assert InFlight(t) == InFlight(s);
  }

  /** Batches in flight depend on the request's tokens alone. */
  lemma SameFlight(r: Req, r': Req, infl: seq<Batch>)
    requires FlightOk(r, infl) && r.all == r'.all
    ensures FlightOk(r', infl)
  {
    forall i | 0 <= i < |infl|
      ensures BatchOk(r', infl[i], i == |infl| - 1)
    {
      assert BatchOk(r, infl[i], i == |infl| - 1);
    }
  }

  lemma OutputSched(s: Sys, gen: seq<Token>)
    requires Inv(s) && Enabled(s, Output(gen))
    ensures SchedInv(Next(s, Output(gen)))
  {
    var t := Next(s, Output(gen));
    var infl := InFlight(s);
    assert infl[0] == s.flight[0] && InFlight(t) == infl[1..];
    if s.stale > 0 && s.drop {
      assert Live(t) == Live(s);
    } else {
      assert Live(s) == infl && Live(t) == infl[1..];
      OutputOk(s.req, infl, gen, s.stale > 0);
    }
  }

  lemma OutputOk(r: Req, infl: seq<Batch>, gen: seq<Token>, stale: bool)
    requires infl != [] && SchedOk(r, infl) && IsOutput(infl[0], gen) && (stale ==> r.status == Preempted)
    requires r.status != Waiting
    ensures SchedOk(AfterOutput(r, infl[0], gen, stale), infl[1..])
  {
    FlightPop(r, AfterOutput(r, infl[0], gen, stale), infl, gen);
  }

  /** The oldest batch's output: a sampling batch was alone, others add no token. */
  lemma FlightPop(r: Req, r': Req, infl: seq<Batch>, gen: seq<Token>)
    requires infl != [] && FlightOk(r, infl) && IsOutput(infl[0], gen) && r'.all == r.all + gen
    ensures FlightOk(r', infl[1..]) && (infl[0].samples ==> infl[1..] == [])
    ensures infl[0].samples ==> End(infl[0]) == |r.all|
    ensures !infl[0].samples ==> gen == [] && infl[0].drafts == [] && infl[0].start + infl[0].k < |r.all|
  {
    assert BatchOk(r, infl[0], |infl| == 1);
    forall i | 0 <= i < |infl| - 1
      ensures BatchOk(r', infl[1..][i], i == |infl[1..]| - 1)
    {
      assert BatchOk(r, infl[i + 1], i + 1 == |infl| - 1);
    }
  }

  lemma OutputWorker(s: Sys, gen: seq<Token>)
    requires Inv(s) && Enabled(s, Output(gen))
    ensures WorkerInv(Next(s, Output(gen)))
  {
    PipeGrows(s.req.all, gen, |s.w.tokens|, s.pipe);
  }

  lemma Step(s: Sys, e: Event)
    requires Inv(s) && Enabled(s, e)
    ensures Inv(Next(s, e))
  {
    match e
    case Admit(c, k, pad) => AdmitSched(s, c, k, pad); AdmitWorker(s, c, k, pad);
    case Schedule(k) => ScheduleSched(s, k); ScheduleWorker(s, k);
    case Deliver => DeliverSched(s); DeliverWorker(s);
    case Output(gen) => OutputSched(s, gen); OutputWorker(s, gen);
    case Drafts(_) => QuietStep(s, e);
    case Preempt(_) => QuietStep(s, e);
    case Unbatch => QuietStep(s, e);
  }

  /** Every reachable state satisfies the invariants. */
  lemma {:induction false} RunInv(trace: seq<Sys>, events: seq<Event>, i: nat)
    requires IsRun(trace, events) && i < |trace|
    ensures Inv(trace[i])
  {
    if i == 0 {
      assert InFlight(trace[0]) == [];
    } else {
      RunInv(trace, events, i - 1);
      Step(trace[i - 1], events[i - 1]);
    }
  }

  // ---------------------------------------------------------------- what they mean

  function Payloads(pipe: seq<Batch>): seq<Token> {
    if pipe == [] then [] else pipe[0].tokens + Payloads(pipe[1..])
  }

  lemma {:induction false} PayloadsArePrefix(all: seq<Token>, pos: nat, pipe: seq<Batch>)
    requires pos <= |all| && PipeFits(all, pos, pipe)
    ensures pos + Carried(pipe) <= |all| && Payloads(pipe) == all[pos..pos + Carried(pipe)]
    decreases |pipe|
  {
    if pipe != [] {
      var first, rest := pipe[0].tokens, pipe[1..];
      PayloadsArePrefix(all, pos + |first|, rest);
      PrefixStep(all, pos, first, Payloads(rest), Carried(rest));
    }
  }

  lemma PrefixStep(all: seq<Token>, pos: nat, first: seq<Token>, rest: seq<Token>, n: nat)
    requires pos + |first| + n <= |all| && first == all[pos..pos + |first|] &&
      rest == all[pos + |first|..pos + |first| + n]
    ensures first + rest == all[pos..pos + (|first| + n)]
  {
    SliceJoin(all, pos, pos + |first|, pos + |first| + n);
  }

  /** In every run: the worker's tokens followed by the payloads in flight are
      all_token_ids up to the watermark, so no accepted draft is lost, repeated
      or overwritten; the CPU row starts with the worker's tokens. */
  lemma TokensNeverLost(trace: seq<Sys>, events: seq<Event>, i: nat)
    requires IsRun(trace, events) && i < |trace|
    ensures var s := trace[i];
            && SentTo(s.req) <= |s.req.all|
            && s.w.tokens + Payloads(s.pipe) == s.req.all[..SentTo(s.req)]
            && (s.w.inBatch ==> s.w.noSpec <= |s.w.row| && s.w.row[..s.w.noSpec] == s.w.tokens)
  {
    RunInv(trace, events, i);
    PayloadsArePrefix(trace[i].req.all, |trace[i].w.tokens|, trace[i].pipe);
  }

  /** In every run, when a step reaches the worker: delivery is possible, the
      drop rule removes nothing, the row index advances by the payload alone,
      and the row positions the step computes hold the true tokens followed by
      the step's drafts. */
  lemma InputsAreRight(trace: seq<Sys>, events: seq<Event>, i: nat)
    requires IsRun(trace, events) && i < |trace| && trace[i].pipe != []
    ensures Enabled(trace[i], Deliver)
    ensures var s, b := trace[i], trace[i].pipe[0];
            var w := Receive(s.w, b);
            && (!b.first ==> Fresh(|s.w.tokens|, b.tokens, End(b)) == b.tokens)
            && w.noSpec == |s.w.tokens| + |b.tokens|
            && b.start <= End(b) <= |s.req.all| && b.start + b.k <= |w.row|
            && w.row[b.start..b.start + b.k] == s.req.all[b.start..End(b)] + b.drafts
  {
    RunInv(trace, events, i);
    RowHoldsStep(trace[i].req.all, trace[i].w, trace[i].pipe[0]);
  }

  lemma RowHoldsStep(all: seq<Token>, w: Worker, b: Batch)
    requires |w.tokens| <= |all| && w.tokens == all[..|w.tokens|]
    requires Fits(all, |w.tokens|, b) && RowOk(w)
    ensures var w' := Receive(w, b);
            && (!b.first ==> Fresh(|w.tokens|, b.tokens, End(b)) == b.tokens)
            && w'.noSpec == |w.tokens| + |b.tokens|
            && b.start <= End(b) <= |all| && b.start + b.k <= |w'.row|
            && w'.row[b.start..b.start + b.k] == all[b.start..End(b)] + b.drafts
  {
    ReceiveAppends(all, w, b);
    if !b.first {
      NothingDropped(all, w, b);
    }
    var w' := Receive(w, b);
    SliceJoin(all, 0, |w.tokens|, |w.tokens| + |b.tokens|);
    DraftsInRow(all, w, b);
    RowSlice(all, w'.row, w'.noSpec, b.start, End(b), b.drafts);
  }

  /** The drafts stand right behind the tokens. */
  lemma DraftsInRow(all: seq<Token>, w: Worker, b: Batch)
    requires Fits(all, |w.tokens|, b) && RowOk(w)
    ensures var w' := Receive(w, b); var n := |w.tokens| + |b.tokens|;
            w'.noSpec == n && n + |b.drafts| <= |w'.row| && w'.row[n..n + |b.drafts|] == b.drafts
  {
    if !b.first {
      NothingDropped(all, w, b);
    }
  }

  /** A row of n true tokens and the drafts behind them, read from `start` on. */
  lemma RowSlice(all: seq<Token>, row: seq<Token>, n: nat, start: nat, end: nat, drafts: seq<Token>)
    requires start <= end <= n <= |all| && n + |drafts| <= |row| && row[..n] == all[..n] &&
      row[n..n + |drafts|] == drafts
    requires drafts != [] ==> end == n
    ensures row[start..end + |drafts|] == all[start..end] + drafts
  {
    forall i | start <= i < end
      ensures row[i] == all[i]
    {
      assert row[..n][i] == all[..n][i];
    }
    forall i | end <= i < end + |drafts|
      ensures row[i] == drafts[i - end]
    {
      assert row[n..n + |drafts|][i - end] == drafts[i - end];
    }
  }

  /** In every run: of the batches whose output will count only the newest may
      sample, and while it does the guard keeps the request from being scheduled
      again. */
  lemma OneSamplingStep(trace: seq<Sys>, events: seq<Event>, i: nat)
    requires IsRun(trace, events) && i < |trace|
    ensures var s, infl := trace[i], Live(trace[i]);
            && (forall j | 0 <= j < |infl| :: infl[j].samples ==> j == |infl| - 1)
            && (forall j | 0 <= j < |infl| :: |infl[j].drafts| < infl[j].k)
            && (infl != [] && infl[|infl| - 1].samples ==> !Ready(s.req))
            && (s.req.status == Running && infl == [] ==> Ready(s.req))
  {
    RunInv(trace, events, i);
    var infl := Live(trace[i]);
    forall j | 0 <= j < |infl|
      ensures infl[j].samples ==> j == |infl| - 1
      ensures |infl[j].drafts| < infl[j].k
    {
      assert BatchOk(trace[i].req, infl[j], j == |infl| - 1);
    }
  }

  /** In every run: applying the output of a sampling step of the current run of the
      request, whatever was rejected, leaves nothing in flight and exactly one token uncomputed. */
  lemma OneUncomputedToken(trace: seq<Sys>, events: seq<Event>, i: nat, gen: seq<Token>)
    requires IsRun(trace, events) && i < |trace|
    requires Enabled(trace[i], Output(gen)) && trace[i].flight[0].samples && trace[i].stale == 0
    ensures var t := Next(trace[i], Output(gen));
            && InFlight(t) == []
            && t.req.computed == |t.req.all| - 1
            && t.req.all == trace[i].req.all + trace[i].flight[0].drafts[..|gen| - 1] + [gen[|gen| - 1]]
  {
    RunInv(trace, events, i);
    var infl := InFlight(trace[i]);
    assert infl[0] == trace[i].flight[0];
    assert BatchOk(trace[i].req, infl[0], |infl| == 1);
    assert gen == gen[..|gen| - 1] + [gen[|gen| - 1]];
  }

  // ---------------------------------------------------------------- what the events alone tell

  /** What becomes of a batch's output: it counts, it comes late but is delivered, or it is dropped. */
  datatype Fate = Counts | Late | Dropped

  /** The fates of the batches in flight after the first i events, oldest first. A preemption drops everything in
      flight when asked to, or when something dropped is still in flight; otherwise it makes everything late. */
  function Fates(events: seq<Event>, i: nat): seq<Fate>
    requires i <= |events|
  {
    if i == 0 then []
    else
      var f := Fates(events, i - 1);
      match events[i - 1]
      case Admit(_, _, _) => f + [Counts]
      case Schedule(_) => f + [Counts]
      case Output(_) => if f == [] then [] else f[1..]
      case Preempt(discard) => seq(|f|, _ => if discard || Dropped in f then Dropped else Late)
      case _ => f
  }

  /** The outputs that were not dropped, in order. */
  function Accepted(events: seq<Event>, i: nat): seq<Token>
    requires i <= |events|
  {
    if i == 0 then []
    else if events[i - 1].Output? && !(Fates(events, i - 1) != [] && Fates(events, i - 1)[0] == Dropped)
      then Accepted(events, i - 1) + events[i - 1].gen
    else Accepted(events, i - 1)
  }

  /** The fates as the request's two fields record them. */
  ghost predicate FatesOf(s: Sys, f: seq<Fate>) {
    && |f| == |InFlight(s)| && s.stale <= |f|
    && forall j | 0 <= j < |f| :: f[j] == if j >= s.stale then Counts else if s.drop then Dropped else Late
  }

  lemma FatesStep(s: Sys, e: Event, events: seq<Event>, i: nat)
    requires i < |events| && e == events[i] && Enabled(s, e) && FatesOf(s, Fates(events, i))
    ensures FatesOf(Next(s, e), Fates(events, i + 1))
  {
    var f, t := Fates(events, i), Next(s, e);
    if e.Admit? || e.Schedule? {
      SendLive(s, t, t.pipe[|t.pipe| - 1]);
    } else if e.Deliver? {
      assert InFlight(t) == InFlight(s);
    } else if e.Output? {
      assert InFlight(t) == InFlight(s)[1..];
    } else if e.Preempt? {
      assert Dropped in f <==> s.drop && s.stale > 0 by {
        if s.drop && s.stale > 0 {
          assert f[0] == Dropped;
        }
      }
    }
  }

  lemma RunStep(trace: seq<Sys>, events: seq<Event>, i: nat)
    requires IsRun(trace, events) && i < |events|
    ensures i + 1 < |trace| && Enabled(trace[i], events[i]) && trace[i + 1] == Next(trace[i], events[i])
  {
  }

  lemma {:induction false} FatesInRun(trace: seq<Sys>, events: seq<Event>, i: nat)
    requires IsRun(trace, events) && i < |trace|
    ensures FatesOf(trace[i], Fates(events, i))
  {
    if i > 0 {
      FatesInRun(trace, events, i - 1);
      RunStep(trace, events, i - 1);
      FatesStep(trace[i - 1], events[i - 1], events, i - 1);
    }
  }

  /** What one event adds to the request's tokens. */
  lemma AcceptStep(s: Sys, e: Event, f: seq<Fate>)
    requires Enabled(s, e) && FatesOf(s, f)
    ensures e.Output? ==> f != []
    ensures Next(s, e).req.all == s.req.all + if e.Output? && f[0] != Dropped then e.gen else []
  {
    if e.Output? {
      assert InFlight(s)[0] == s.flight[0];
    }
  }

  lemma {:induction false} AcceptedStep(events: seq<Event>, i: nat)
    requires i < |events|
    ensures var f := Fates(events, i);
            Accepted(events, i + 1) ==
            Accepted(events, i) + if events[i].Output? && (f == [] || f[0] != Dropped) then events[i].gen else []
  {
  }

  lemma Append3(a: seq<Token>, b: seq<Token>, c: seq<Token>)
    ensures (a + b) + c == a + (b + c)
  {
  }

  /** In every run the request's tokens are its prompt followed by exactly the outputs not dropped, told from the
      events alone. */
  lemma {:induction false} OutputsAccepted(trace: seq<Sys>, events: seq<Event>, i: nat)
    requires IsRun(trace, events) && i < |trace|
    ensures trace[i].req.all == trace[0].req.all + Accepted(events, i)
  {
    if i > 0 {
      OutputsAccepted(trace, events, i - 1);
      FatesInRun(trace, events, i - 1);
      AcceptedInStep(trace, events, i - 1, trace[0].req.all);
    }
  }

  lemma AcceptedInStep(trace: seq<Sys>, events: seq<Event>, i: nat, prompt: seq<Token>)
    requires IsRun(trace, events) && i < |events|
    requires FatesOf(trace[i], Fates(events, i)) && trace[i].req.all == prompt + Accepted(events, i)
    ensures trace[i + 1].req.all == prompt + Accepted(events, i + 1)
  {
    var f, e := Fates(events, i), events[i];
    RunStep(trace, events, i);
    AcceptStep(trace[i], e, f);
    AcceptedStep(events, i);
    Append3(prompt, Accepted(events, i), if e.Output? && f[0] != Dropped then e.gen else []);
  }

  /** The last batch made for the request in the first i events stops short of its last real token. */
  ghost predicate InPrefill(trace: seq<Sys>, events: seq<Event>, i: nat)
    requires IsRun(trace, events) && i < |trace|
  {
    i > 0 &&
    match events[i - 1]
    case Admit(_, _, _) => !trace[i].pipe[|trace[i].pipe| - 1].samples
    case Schedule(_) => !trace[i].pipe[|trace[i].pipe| - 1].samples
    case _ => InPrefill(trace, events, i - 1)
  }

  /** The drafts last given to the request and not yet used: those given during a prefill are ignored, a schedule
      uses them up, a preemption forgets them. */
  ghost function Given(trace: seq<Sys>, events: seq<Event>, i: nat): seq<Token>
    requires IsRun(trace, events) && i < |trace|
  {
    if i == 0 then []
    else
      match events[i - 1]
      case Drafts(d) => if InPrefill(trace, events, i - 1) then [] else d
      case Schedule(_) => []
      case Preempt(_) => []
      case _ => Given(trace, events, i - 1)
  }

  /** A request is in a prefill exactly when its last batch does not sample. */
  lemma ChunkStep(s: Sys, e: Event)
    requires Enabled(s, e)
    ensures var t := Next(s, e);
            if e.Admit? || e.Schedule? then t.pipe != [] && (t.req.chunk <==> !t.pipe[|t.pipe| - 1].samples)
            else t.req.chunk == s.req.chunk
  {
    if e.Schedule? {
      ScheduleShape(s.req, e.n);
    }
  }

  lemma SpecStep(s: Sys, e: Event)
    requires Enabled(s, e)
    ensures Next(s, e).req.spec ==
      match e
      case Drafts(d) => (if s.req.chunk then [] else d)
      case Schedule(_) => []
      case Preempt(_) => []
      case _ => s.req.spec
  {
  }

  lemma {:induction false} ChunkInRun(trace: seq<Sys>, events: seq<Event>, i: nat)
    requires IsRun(trace, events) && i < |trace|
    ensures trace[i].req.chunk <==> InPrefill(trace, events, i)
  {
    if i > 0 {
      ChunkInRun(trace, events, i - 1);
      RunStep(trace, events, i - 1);
      ChunkStep(trace[i - 1], events[i - 1]);
    }
  }

  /** In every run the drafts a request holds are the ones last given to it. */
  lemma {:induction false} GivenInRun(trace: seq<Sys>, events: seq<Event>, i: nat)
    requires IsRun(trace, events) && i < |trace|
    ensures trace[i].req.spec == Given(trace, events, i)
  {
    if i > 0 {
      GivenInRun(trace, events, i - 1);
      ChunkInRun(trace, events, i - 1);
      RunStep(trace, events, i - 1);
      SpecStep(trace[i - 1], events[i - 1]);
    }
  }

  /** Batch b was made by event j: an admission with its padding, or a schedule with the first of the given drafts,
      as many as the positions past the real tokens. */
  ghost predicate MadeAt(trace: seq<Sys>, events: seq<Event>, j: nat, b: Batch)
    requires IsRun(trace, events) && j < |events|
  {
    var r, given := trace[j].req, Given(trace, events, j);
    match events[j]
    case Admit(c, k, pad) => b.start == c && b.k == k + |pad| && b.drafts == pad
    case Schedule(k) =>
      && b.start == r.computed && b.k == k
      && b.drafts <= given
      && (b.drafts != given ==> |b.drafts| == Max(0, r.computed + k - |r.all|))
      && |b.drafts| <= Max(0, r.computed + k - |r.all|)
    case _ => false
  }

  lemma MadeNow(trace: seq<Sys>, events: seq<Event>, j: nat)
    requires IsRun(trace, events) && j < |events| && (events[j].Admit? || events[j].Schedule?)
    ensures var p := trace[j + 1].pipe; p != [] && MadeAt(trace, events, j, p[|p| - 1])
    ensures trace[j + 1].pipe[..|trace[j + 1].pipe| - 1] == trace[j].pipe
  {
    GivenInRun(trace, events, j);
  }

  /** In every run each batch on its way was made by an earlier event, with the drafts that event had. */
  lemma {:induction false} BatchesMade(trace: seq<Sys>, events: seq<Event>, i: nat, x: nat) returns (j: nat)
    requires IsRun(trace, events) && i < |trace| && x < |trace[i].pipe|
    ensures j < i && MadeAt(trace, events, j, trace[i].pipe[x])
  {
    var s, t := trace[i - 1], trace[i];
    if (events[i - 1].Admit? || events[i - 1].Schedule?) && x == |t.pipe| - 1 {
      MadeNow(trace, events, i - 1);
      j := i - 1;
    } else {
      j := BatchesMade(trace, events, i - 1, if events[i - 1].Deliver? then x + 1 else x);
    }
  }

  /** In every run, when a step reaches the worker, the row positions it computes hold the true tokens followed by
      the drafts of the event that made it: the first of those last given to the request. */
  lemma DraftsAreGiven(trace: seq<Sys>, events: seq<Event>, i: nat)
    requires IsRun(trace, events) && i < |trace| && trace[i].pipe != []
    ensures exists j | 0 <= j < i :: MadeAt(trace, events, j, trace[i].pipe[0])
    ensures Enabled(trace[i], Deliver)
    ensures var b, w := trace[i].pipe[0], Receive(trace[i].w, trace[i].pipe[0]);
            && b.start <= End(b) <= |trace[i].req.all| && b.start + b.k <= |w.row|
            && w.row[b.start..b.start + b.k] == trace[i].req.all[b.start..End(b)] + b.drafts
  {
    var j := BatchesMade(trace, events, i, 0);
    InputsAreRight(trace, events, i);
  }

  /** The guard is exact: k new positions of a running request hold a real token if and only if it passes. */
  lemma GuardIsExact(r: Req, k: nat)
    requires r.status == Running && 1 <= k <= |r.all| + |r.spec| - r.computed
    ensures Ready(r) <==> |ScheduledDrafts(r, k)| < k
  {
  }

  /** Redelivery is harmless: a payload [a, b) given to a worker that holds a
      prefix of length m >= a leaves the prefix of length max(m, b). */
  lemma Redelivery(all: seq<Token>, a: nat, b: nat, m: nat)
    requires a <= b <= |all| && a <= m <= |all|
    ensures all[..m] + Fresh(m, all[a..b], b) == all[..Max(m, b)]
    ensures Fresh(Max(m, b), all[a..b], b) == []
  {
  }

  // ---------------------------------------------------------------- the code that keeps the state

  /** What _make_cached_request_data reads of one scheduled request. */
  datatype Scheduled = Scheduled(id: string, all: seq<Token>, prompt: nat, computed: nat, k: nat, drafts: seq<Token>)

  function SentOf(sent: map<string, nat>, id: string): nat {
    if id in sent then sent[id] else 0
  }

  predicate Distinct(reqs: seq<Scheduled>) {
    forall i, j | 0 <= i < j < |reqs| :: reqs[i].id != reqs[j].id
  }

  /** The protocol's view of a scheduled request. */
  function AsReq(q: Scheduled, sent: map<string, nat>): Req {
    Req(q.prompt, q.all, q.computed, [], false, Running, SentOf(sent, q.id))
  }

  /** The payload and the advanced watermark the protocol asks for. */
  ghost predicate SentRight(q: Scheduled, before: map<string, nat>, after: map<string, nat>, payload: seq<Token>) {
    |q.drafts| <= q.k &&
    var r, end := AsReq(q, before), q.computed + q.k - |q.drafts|;
    payload == Payload(r, end) && q.id in after && after[q.id] == AfterSend(r, end).sent
  }

  /** The first n requests have been sent for, and no other watermark moved. */
  ghost predicate PassOk(reqs: seq<Scheduled>, n: nat, before: map<string, nat>, after: map<string, nat>,
                         payloads: seq<seq<Token>>) {
    && n == |payloads| <= |reqs|
    && (forall i | 0 <= i < n :: SentRight(reqs[i], before, after, payloads[i]))
    && (forall id: string | Unserved(reqs, n, id) :: SentOf(after, id) == SentOf(before, id))
  }

  predicate Unserved(reqs: seq<Scheduled>, n: nat, id: string)
    requires n <= |reqs|
  {
    forall i | 0 <= i < n :: reqs[i].id != id
  }

  /** Sending for another request leaves what was sent right. */
  lemma SentStays(q: Scheduled, id: string, before: map<string, nat>, m1: map<string, nat>, m2: map<string, nat>,
                  payload: seq<Token>)
    requires SentRight(q, before, m1, payload) && id in m2 && m2 == m1[id := m2[id]] && q.id != id
    ensures SentRight(q, before, m2, payload)
  {
  }

  lemma PassStep(reqs: seq<Scheduled>, n: nat, m0: map<string, nat>, m1: map<string, nat>, m2: map<string, nat>,
                 payloads: seq<seq<Token>>, tokens: seq<Token>)
    requires Distinct(reqs) && n < |reqs| && PassOk(reqs, n, m0, m1, payloads)
    requires SentRight(reqs[n], m1, m2, tokens) && m2 == m1[reqs[n].id := m2[reqs[n].id]]
    ensures PassOk(reqs, n + 1, m0, m2, payloads + [tokens])
  {
    assert Unserved(reqs, n, reqs[n].id);
    assert SentOf(m1, reqs[n].id) == SentOf(m0, reqs[n].id);
    forall i | 0 <= i < n
      ensures SentRight(reqs[i], m0, m2, payloads[i])
    {
      SentStays(reqs[i], reqs[n].id, m0, m1, m2, payloads[i]);
    }
    assert SentRight(reqs[n], m0, m2, tokens);
    forall id: string | Unserved(reqs, n + 1, id)
      ensures SentOf(m2, id) == SentOf(m0, id)
    {
      assert reqs[n].id != id && Unserved(reqs, n, id);
    }
  }

  class Sender {
    var sent: map<string, nat>   // _dsv41_pp_sent

    constructor ()
      ensures sent == map[]
    {
      sent := map[];
    }

    /** One iteration: payload and advanced watermark of one request. */
    method SendOne(q: Scheduled) returns (tokens: seq<Token>)
      requires |q.drafts| <= q.k
      modifies this
      ensures SentRight(q, old(sent), sent, tokens)
      ensures sent == old(sent)[q.id := sent[q.id]]
    {
      var end := q.computed + (q.k - |q.drafts|);
      var sentTo := Max(if q.id in sent then sent[q.id] else 0, q.prompt);
      tokens := Slice(q.all, sentTo, end);
      sent := sent[q.id := Max(sentTo, end)];
    }

    /** The payloads of one scheduling pass; other requests keep their watermarks. */
    method NewTokenIds(reqs: seq<Scheduled>) returns (payloads: seq<seq<Token>>)
      requires Distinct(reqs)
      requires forall i | 0 <= i < |reqs| :: |reqs[i].drafts| <= reqs[i].k
      modifies this
      ensures PassOk(reqs, |reqs|, old(sent), sent, payloads)
    {
      payloads := [];
      for i := 0 to |reqs|
        invariant PassOk(reqs, i, old(sent), sent, payloads)
      {
        ghost var before := sent;
        var tokens := SendOne(reqs[i]);
        PassStep(reqs, i, old(sent), before, sent, payloads, tokens);
        payloads := payloads + [tokens];
      }
    }

    /** _free_request: a later request under the same id starts from its prompt, and no other request notices. */
    method Free(id: string)
      modifies this
      ensures forall q: Scheduled | q.id == id :: Watermark(AsReq(q, sent)) == q.prompt
      ensures forall q: Scheduled | q.id != id :: AsReq(q, sent) == AsReq(q, old(sent))
      ensures id !in sent && sent.Keys <= old(sent.Keys)
    {
      sent := sent - {id};
    }
  }

  /** The worker's request state with its row of the token_ids_cpu array. */
  class RowState {
    var tokens: seq<Token>
    var noSpec: nat
    const row: array<Token>

    constructor (tokens: seq<Token>, width: nat)
      requires |tokens| <= width
      ensures this.tokens == tokens && noSpec == |tokens| && fresh(row) && row.Length == width
      ensures row[..noSpec] == tokens
    {
      this.tokens := tokens;
      noSpec := |tokens|;
      row := new Token[width](i => if 0 <= i < |tokens| then tokens[i] else 0);
    }

    ghost function State(): Worker
      reads this, row
    {
      Worker(true, tokens, true, row[..], noSpec)
    }

    /** token_ids_cpu[at : at + |xs|] = xs */
    method Assign(at: nat, xs: seq<Token>)
      requires at + |xs| <= row.Length
      modifies row
      ensures row[..] == Overwrite(old(row[..]), at, xs)
    {
      var i := 0;
      while i < |xs|
        invariant 0 <= i <= |xs|
        invariant forall j | 0 <= j < row.Length :: row[j] == if at <= j < at + i then xs[j - at] else old(row[j])
      {
        row[at + i] := xs[i];
        i := i + 1;
      }
    }

    /** _update_states for a cached request of the persistent batch. */
    method ReceiveBatch(b: Batch)
      requires !b.first && |b.drafts| <= b.k
      requires noSpec + |b.tokens| + |b.drafts| <= row.Length && b.start + |b.drafts| <= row.Length
      modifies this, row
      ensures State() == Receive(old(State()), b)
    {
      var newTokens := b.tokens;
      if newTokens != [] {
        var end := b.start + b.k - |b.drafts|;
        var drop := Max(0, |tokens| - (end - |newTokens|));
        newTokens := if drop <= |newTokens| then newTokens[drop..] else [];
        tokens := tokens + newTokens;
      }
      assert newTokens == Fresh(|old(tokens)|, b.tokens, End(b)) && tokens == old(tokens) + newTokens;
      WriteRow(newTokens, b.start, b.drafts);
    }

    /** The row update: the new tokens behind the old ones, the drafts behind both. */
    method WriteRow(newTokens: seq<Token>, start: nat, drafts: seq<Token>)
      requires noSpec + |newTokens| + |drafts| <= row.Length && start + |drafts| <= row.Length
      modifies this`noSpec, row
      ensures noSpec == NoSpecAfter(old(noSpec), start, newTokens)
      ensures newTokens == [] ==> noSpec >= start && noSpec >= old(noSpec) && (noSpec == start || noSpec == old(noSpec))
      ensures row[..] == Overwrite(Overwrite(old(row[..]), old(noSpec), newTokens), noSpec, drafts)
    {
      var startIndex := noSpec;
      var endIndex := if newTokens != [] then startIndex + |newTokens| else Max(startIndex, start);
      Assign(startIndex, newTokens);
      noSpec := endIndex;
      Assign(noSpec, drafts);
    }
  }
}
