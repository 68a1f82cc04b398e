/** Row retrieval from the checkpoint shard (overlay/engram_ssd/row_store.cpp):
    256 weight bytes and 8 scale bytes per row, read by the pool in chunks of 64 rows. */
module RowStore {
  import opened Common
  import opened Pool

  type positive = n: int | n > 0 witness 1

  datatype Row = Row(weights: seq<byte>, scales: seq<byte>)

  /** An open shard and the row range this process owns. */
  datatype Store = Store(file: seq<byte>, rows: nat, woff: nat, soff: nat, lo: nat, hi: nat)

  /** Both tables lie inside the file. */
  predicate Fits(file: seq<byte>, rows: nat, woff: nat, soff: nat) {
    woff + rows * 256 <= |file| && soff + rows * 8 <= |file|
  }

  predicate StoreOk(s: Store) {
    Fits(s.file, s.rows, s.woff, s.soff) && s.lo <= s.hi <= s.rows
  }

  /** row_store_open: owns every row. */
  function Open(file: seq<byte>, rows: nat, woff: nat, soff: nat): (r: Option<Store>)
    ensures r.Some? <==> Fits(file, rows, woff, soff)
    ensures r.Some? ==> StoreOk(r.value) && forall id: nat | id < rows :: Owns(r.value, id)
  {
    if woff + rows * 256 > |file| || soff + rows * 8 > |file| then None
      else Some(Store(file, rows, woff, soff, 0, rows))
  }

  /** row_store_range: None is an abort. */
  function Restrict(s: Store, lo: nat, hi: nat): (r: Option<Store>)
    requires StoreOk(s)
    ensures r.Some? <==> lo <= hi <= s.rows
    ensures r.Some? ==> StoreOk(r.value) && forall id: int :: Owns(r.value, id) <==> lo <= id < hi
  {
    if lo > hi || hi > s.rows then None else Some(s.(lo := lo, hi := hi))
  }

  predicate Owns(s: Store, id: int) {
    s.lo <= id < s.hi
  }

  /** What a row id stands for: the shard's bytes, or zeros for an id outside the owned range. */
  ghost function RowAt(s: Store, id: int): Row
    requires StoreOk(s)
  {
    if Owns(s, id) then
      Row(s.file[s.woff + id * 256..s.woff + id * 256 + 256], s.file[s.soff + id * 8..s.soff + id * 8 + 8])
    else
      Zeros()
  }

  function Zeros(): Row {
    Row(seq(256, _ => 0), seq(8, _ => 0))
  }

  /** Restricting the owned range changes no row inside it, and makes every other row 256 and 8 zero bytes. */
  lemma RestrictedRow(s: Store, lo: nat, hi: nat, id: int)
    requires StoreOk(s) && lo <= hi <= s.rows
    ensures lo <= id < hi && Owns(s, id) ==> RowAt(Restrict(s, lo, hi).value, id) == RowAt(s, id)
    ensures !(lo <= id < hi) ==>
      var row := RowAt(Restrict(s, lo, hi).value, id);
      && |row.weights| == 256 && (forall i | 0 <= i < 256 :: row.weights[i] == 0)
      && |row.scales| == 8 && (forall i | 0 <= i < 8 :: row.scales[i] == 0)
  {
  }

  /** The weights of rows 0 to n - 1, one after another. */
  ghost function AllWeights(s: Store, n: nat): seq<byte>
    requires StoreOk(s)
  {
    if n == 0 then [] else AllWeights(s, n - 1) + RowAt(s, n - 1).weights
  }

  ghost function AllScales(s: Store, n: nat): seq<byte>
    requires StoreOk(s)
  {
    if n == 0 then [] else AllScales(s, n - 1) + RowAt(s, n - 1).scales
  }

  lemma SliceAppend(file: seq<byte>, a: nat, b: nat, c: nat)
    requires a <= b <= c <= |file|
    ensures file[a..b] + file[b..c] == file[a..c]
  {
  }

  lemma {:induction false} WeightsInOrder(s: Store, n: nat)
    requires StoreOk(s) && n <= s.rows && forall id: nat | id < s.rows :: Owns(s, id)
    ensures AllWeights(s, n) == s.file[s.woff..s.woff + n * 256]
  {
    if n > 0 {
      var w := s.woff + (n - 1) * 256;
      WeightsInOrder(s, n - 1);
      assert Owns(s, n - 1);
      SliceAppend(s.file, s.woff, w, w + 256);
    }
  }

  lemma {:induction false} ScalesInOrder(s: Store, n: nat)
    requires StoreOk(s) && n <= s.rows && forall id: nat | id < s.rows :: Owns(s, id)
    ensures AllScales(s, n) == s.file[s.soff..s.soff + n * 8]
  {
    if n > 0 {
      var c := s.soff + (n - 1) * 8;
      ScalesInOrder(s, n - 1);
      assert Owns(s, n - 1);
      SliceAppend(s.file, s.soff, c, c + 8);
    }
  }

  /** An opened store's rows, in order, are its two tables. */
  lemma RowsAreTables(file: seq<byte>, rows: nat, woff: nat, soff: nat)
    requires Fits(file, rows, woff, soff)
    ensures var s := Open(file, rows, woff, soff).value;
            && AllWeights(s, rows) == file[woff..woff + rows * 256]
            && AllScales(s, rows) == file[soff..soff + rows * 8]
  {
    WeightsInOrder(Open(file, rows, woff, soff).value, rows);
    ScalesInOrder(Open(file, rows, woff, soff).value, rows);
  }

  /** Processes that own consecutive ranges cut from the whole table: exactly one has a row, the one whose range
      holds it, and all others have zeros there. */
  lemma {:induction false} OneOwner(s: Store, cuts: seq<nat>, id: nat) returns (p: nat)
    requires StoreOk(s) && (forall j: nat | j < s.rows :: Owns(s, j)) && id < s.rows
    requires |cuts| >= 2 && cuts[0] == 0 && cuts[|cuts| - 1] == s.rows
    requires forall i, j | 0 <= i <= j < |cuts| :: cuts[i] <= cuts[j]
    ensures p + 1 < |cuts|
    ensures forall q: nat | q + 1 < |cuts| ::
      RowAt(Restrict(s, cuts[q], cuts[q + 1]).value, id) == if q == p then RowAt(s, id) else Zeros()
  {
    p := 0;
    while cuts[p + 1] <= id
      invariant p + 1 < |cuts| && cuts[p] <= id
      decreases |cuts| - p
    {
      p := p + 1;
    }
  }

  // ---------------------------------------------------------------- reading

  /** What one pread does: it delivers some bytes, is interrupted, or fails. */
  datatype Read = Got(n: positive) | Interrupted | Failed

  datatype Result<T> = Done(value: T) | Abort | Pending

  ghost function Deliveries(io: seq<Read>): nat {
    if |io| == 0 then 0 else Deliveries(io[..|io| - 1]) + if io[|io| - 1].Got? then 1 else 0
  }

  lemma {:induction false} DeliveriesStep(io: seq<Read>, n: nat)
    requires n < |io|
    ensures Deliveries(io[..n + 1]) == Deliveries(io[..n]) + if io[n].Got? then 1 else 0
  {
    assert io[..n + 1][..n] == io[..n];
  }

  /** pread_all. Done is the whole range; Abort needs a failed read or a range beyond the file;
      Pending, with the reads used up, means too few of them delivered. */
  method PreadAll(file: seq<byte>, len: nat, off: nat, io: seq<Read>) returns (r: Result<seq<byte>>)
    ensures r.Done? && len > 0 ==> off + len <= |file| && r.value == file[off..off + len]
    ensures len == 0 ==> r == Done([])
    ensures r.Abort? ==> Failed in io || off + len > |file|
    ensures r.Pending? ==> Deliveries(io) < len
  {
    var p: seq<byte> := [];
    var left, at, used := len, off, 0;
    while left > 0
      invariant 0 <= left && left + |p| == len && at == off + |p| && used <= |io|
      invariant |p| > 0 ==> at <= |file| && p == file[off..at]
      invariant Deliveries(io[..used]) <= |p|
      decreases |io| - used
    {
      if used == |io| {
        assert io[..used] == io;
        return Pending;
      }
      DeliveriesStep(io, used);
      if io[used].Failed? {
        return Abort;
      }
      if io[used].Got? {
        var room := if at < |file| then |file| - at else 0;
        var got := if io[used].n <= left then io[used].n else left;
        got := if got <= room then got else room;
        if got == 0 {
          return Abort;
        }
        p := p + file[at..at + got];
        left, at := left - got, at + got;
      }
      used := used + 1;
    }
    r := Done(p);
  }

  /** The reads of one row. */
  datatype RowIo = RowIo(weights: seq<Read>, scales: seq<Read>)

  ghost predicate Healthy(io: RowIo) {
    Failed !in io.weights && Failed !in io.scales && Deliveries(io.weights) >= 256 && Deliveries(io.scales) >= 8
  }

  /** fetch_one, on a store whose range may be anything: it aborts on an owned id past the table. */
  method FetchOne(s: Store, id: int, io: RowIo) returns (r: Result<Row>)
    requires Fits(s.file, s.rows, s.woff, s.soff)
    ensures !Owns(s, id) ==> r == Done(Zeros())
    ensures Owns(s, id) && id >= s.rows ==> r == Abort
    ensures r.Done? && StoreOk(s) ==> r.value == RowAt(s, id)
    ensures Healthy(io) && StoreOk(s) ==> r.Done?
  {
    if id < 0 || id < s.lo || id >= s.hi {
      return Done(Zeros());
    }
    if id >= s.rows {
      return Abort;
    }
    var w := PreadAll(s.file, 256, s.woff + id * 256, io.weights);
    if !w.Done? {
      return if w.Abort? then Abort else Pending;
    }
    var sc := PreadAll(s.file, 8, s.soff + id * 8, io.scales);
    if !sc.Done? {
      return if sc.Abort? then Abort else Pending;
    }
    r := Done(Row(w.value, sc.value));
  }

  // ---------------------------------------------------------------- one job

  const CHUNK: nat := 64

  function Min(a: nat, b: nat): nat {
    if a <= b then a else b
  }

  function JobCount(n: nat): nat {
    (n + CHUNK - 1) / CHUNK
  }

  /** Rows of each job. */
  ghost function JobLens(n: nat): (lens: seq<nat>)
    ensures |lens| == JobCount(n) && forall j: nat | j < |lens| :: lens[j] == Min(n, j * CHUNK + CHUNK) - j * CHUNK
  {
    seq(JobCount(n), j requires 0 <= j < JobCount(n) => Min(n, j * CHUNK + CHUNK) - j * CHUNK)
  }

  /** The job function: rows of chunk j, and no other row of the buffer. */
  method FetchChunk(s: Store, ids: seq<int>, j: nat, io: seq<RowIo>, buf: array<Row>) returns (ok: bool)
    requires StoreOk(s) && |io| == |ids| <= buf.Length
    modifies buf
    ensures ok ==> forall i | j * CHUNK <= i < Min(|ids|, j * CHUNK + CHUNK) :: buf[i] == RowAt(s, ids[i])
    ensures forall i | 0 <= i < buf.Length && !(j * CHUNK <= i < Min(|ids|, j * CHUNK + CHUNK)) :: buf[i] == old(buf[i])
    ensures (forall i | 0 <= i < |io| :: Healthy(io[i])) ==> ok
  {
    var lo, hi := j * CHUNK, Min(|ids|, j * CHUNK + CHUNK);
    if hi < lo {
      return true;
    }
    for i := lo to hi
      invariant forall k | lo <= k < i :: buf[k] == RowAt(s, ids[k])
      invariant forall k | 0 <= k < buf.Length && !(lo <= k < i) :: buf[k] == old(buf[k])
    {
      var r := FetchOne(s, ids[i], io[i]);
      if !r.Done? {
        return false;
      }
      buf[i] := r.value;
    }
    ok := true;
  }

  /** A lookup the caller serves itself: none, or a single job. */
  method LookupAlone(s: Store, ids: seq<int>, io: seq<RowIo>, buf: array<Row>) returns (ok: bool)
    requires StoreOk(s) && |io| == |ids| <= buf.Length && JobCount(|ids|) <= 1
    modifies buf
    ensures ok ==> forall i | 0 <= i < |ids| :: buf[i] == RowAt(s, ids[i])
    ensures forall i | |ids| <= i < buf.Length :: buf[i] == old(buf[i])
    ensures (forall i | 0 <= i < |io| :: Healthy(io[i])) ==> ok
  {
    ok := true;
    if |ids| > 0 {
      ok := FetchChunk(s, ids, 0, io, buf);
    }
  }

  // ---------------------------------------------------------------- a lookup through the pool

  /** The buffer after the row steps that run `tag` made, in the order they were made: step k of index j
      fetches row j * CHUNK + k. */
  ghost function Replay(s: Store, ids: seq<int>, log: seq<Entry>, tag: nat, buf: seq<Row>): (r: seq<Row>)
    requires StoreOk(s) && |ids| <= |buf|
    ensures |r| == |buf|
  {
    if |log| == 0 then buf
    else
      var e := log[|log| - 1];
      var b := Replay(s, ids, log[..|log| - 1], tag, buf);
      if e.tag == tag && e.idx * CHUNK + e.k < |ids| then b[e.idx * CHUNK + e.k := RowAt(s, ids[e.idx * CHUNK + e.k])]
        else b
  }

  lemma {:induction false} ReplayRow(s: Store, ids: seq<int>, log: seq<Entry>, tag: nat, buf: seq<Row>, i: nat)
    requires StoreOk(s) && |ids| <= |buf| && i < |buf|
    ensures i < |ids| && Entry(tag, i / CHUNK, i % CHUNK) in log ==>
      Replay(s, ids, log, tag, buf)[i] == RowAt(s, ids[i])
    ensures i >= |ids| ==> Replay(s, ids, log, tag, buf)[i] == buf[i]
  {
    if |log| > 0 {
      var e := log[|log| - 1];
      var init := log[..|log| - 1];
      ReplayRow(s, ids, init, tag, buf, i);
      assert log == init + [e];
      assert (i / CHUNK) * CHUNK + i % CHUNK == i;
    }
  }

  lemma {:induction false} JobsKept(s: State, evs: seq<Event>)
    requires Possible(s, evs) && NoStart(evs)
    ensures After(s, evs).jobs == s.jobs
    decreases |evs|
  {
    if |evs| > 0 {
      assert NoStart(evs[1..]);
      JobsKept(Apply(s, evs[0]), evs[1..]);
    }
  }

  /** Row i belongs to exactly one row step of the run. */
  lemma RowHasStep(n: nat, i: nat)
    requires i < n
    ensures i / CHUNK < |JobLens(n)| && i % CHUNK < JobLens(n)[i / CHUNK]
  {
    assert (i / CHUNK) * CHUNK + i % CHUNK == i;
    assert (n - 1) / CHUNK + 1 == JobCount(n);
  }

  /** A lookup through the pool, for every interleaving of the threads: when run() returns, row i holds what its
      id stands for, and the buffer beyond the rows asked for is untouched. */
  lemma LookupThroughPool(s: Store, ids: seq<int>, buf: seq<Row>, pool: State, evs: seq<Event>, i: nat)
    requires StoreOk(s) && |ids| <= |buf| && i < |buf|
    requires Inv(pool) && Enabled(pool, Start(JobLens(|ids|)))
    requires Possible(Apply(pool, Start(JobLens(|ids|))), evs) && NoStart(evs)
    requires After(Apply(pool, Start(JobLens(|ids|))), evs).caller == Idle
    ensures var log := After(Apply(pool, Start(JobLens(|ids|))), evs).log;
            Replay(s, ids, log, |pool.jobs|, buf)[i] == if i < |ids| then RowAt(s, ids[i]) else buf[i]
  {
    var lens := JobLens(|ids|);
    var p1 := Apply(pool, Start(lens));
    var t := After(p1, evs);
    StepInv(pool, Start(lens));
    AfterInv(p1, evs);
    JobsKept(p1, evs);
    IdleMeansDone(t);
    ReplayRow(s, ids, t.log, |pool.jobs|, buf, i);
    if i < |ids| {
      RowHasStep(|ids|, i);
      var e := Entry(|pool.jobs|, i / CHUNK, i % CHUNK);
      assert t.progress[e.idx] == lens[e.idx];
      assert Made(t.log, e) == Due(t, e) == 1;
      MadeIn(t.log, e);
    }
  }
}
