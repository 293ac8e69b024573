/** The Downloader object: fields updated in place by the loops of the source, each loop proved to take steps of
    the engine. `machine` and `history` are the engine state the fields stand for and a history that reaches it. */
module DownloaderModel {
  import opened Basics
  import opened Wrappers
  import opened Chunking
  import opened Engine
  import opened EngineInvariant
  import opened EngineTheorems
  import opened Exchanges
  import ContentRange
  import opened Decimal

  /** The file is the same but for the offsets [lo, hi). */
  predicate SameBut(before: seq<Byte>, after: seq<Byte>, lo: int, hi: int) {
    |after| == |before| && forall k :: 0 <= k < |after| && !(lo <= k < hi) ==> after[k] == before[k]
  }

  /** What a chunk's credit is once `gain` more bytes have been stored. */
  function Gained(p: Progress, gain: nat): Progress {
    if gain == 0 then p else Progress(p.downloaded + gain, Downloading)
  }

  /** From `lo` on the file has this much of the body, and outside [lo, hi) it is as it was. */
  predicate Filled(was: seq<Byte>, file: seq<Byte>, lo: int, hi: int, body: seq<Byte>, got: int) {
    && SameBut(was, file, lo, hi)
    && 0 <= lo && 0 <= got <= |body| && lo + got <= |file| && file[lo..lo + got] == body[..got]
  }

  lemma WriteExtends(was: seq<Byte>, file: seq<Byte>, lo: int, hi: int, body: seq<Byte>, got: nat, n: nat)
    requires Filled(was, file, lo, hi, body, got) && got + n <= |body| && lo + got + n <= hi <= |file|
    ensures Filled(was, WriteAt(file, lo + got, body[got..got + n]), lo, hi, body, got + n)
  {
    var data := body[got..got + n];
    var after := WriteAt(file, lo + got, data);
    forall k | 0 <= k < got + n ensures after[lo + k] == body[k] {
      if k < got {
        assert file[lo..lo + got][k] == body[..got][k];
      } else {
        assert data[k - got] == body[k];
      }
    }
    assert after[lo..lo + got + n] == body[..got + n];
  }

  /** The bytes already there are not touched by what fails further on. */
  lemma StillFilled(was: seq<Byte>, now: seq<Byte>, after: seq<Byte>, lo: int, mid: int, hi: int, body: seq<Byte>)
    requires lo <= mid <= hi && Filled(was, now, lo, hi, body, mid - lo) && SameBut(now, after, mid, hi)
    ensures Filled(was, after, lo, hi, body, mid - lo)
  {
    assert after[lo..mid] == now[lo..mid];
  }

  lemma GainedTwice(table: seq<Progress>, i: nat, got: nat, n: nat)
    requires i < |table|
    ensures table[i := Gained(table[i], got)][i := Gained(Gained(table[i], got), n)]
         == table[i := Gained(table[i], got + n)]
  {
  }

  /** A worker in the read loop may write what the body has next. */
  lemma MayWrite(job: Job, s: State, i: nat, attempt: nat, r: Response, start: int, written: int, data: seq<Byte>)
    requires Works(job, s, i) && s.workers[i] == Streaming(attempt, r, start, written) && |data| <= READ_BUF_SIZE
    requires 0 <= start <= written && written + |data| <= job.chunks[i].end + 1
    requires written - start + |data| <= |r.body| && data == r.body[written - start..written - start + |data|]
    ensures 0 < |data| ==> Enabled(job, s, Put(i, |data|))
    ensures Enabled(job, s, PutFails(i, |data|)) && ReadBytes(s.workers[i], |data|) == data
  {
  }

  lemma NothingWritten(file: seq<Byte>, offset: nat)
    requires offset <= |file|
    ensures WriteAt(file, offset, []) == file
  {
  }

  /** What one attempt does: it succeeds exactly when the exchange fetches what is lacking, and whether or not it
      succeeds, what it has got of the body is in its place in the file and credited, and nothing outside the range has
      changed. */
  ghost predicate Attempted(job: Job, i: nat, x: Exchange, table: seq<Progress>, was: seq<Byte>,
                            after: seq<Progress>, file: seq<Byte>, ok: bool)
    requires i < |table| == |job.chunks|
  {
    var c, credit := job.chunks[i], table[i].downloaded;
    var gain := Gain(job, c, credit, x);
    && (ok <==> Fetches(job, c, credit, x))
    && after == table[i := Gained(table[i], gain)]
    && SameBut(was, file, c.start + credit, c.end + 1)
    && (gain > 0 ==> Filled(was, file, c.start + credit, c.end + 1, Answer(job, c, credit, x).value.body, gain))
  }

  lemma NothingLacks(job: Job, i: nat, x: Exchange, table: seq<Progress>, was: seq<Byte>)
    requires i < |table| == |job.chunks| && Rest(job.chunks[i], table[i].downloaded) <= 0
    ensures Attempted(job, i, x, table, was, table, was, true)
  {
  }

  lemma NothingRead(job: Job, i: nat, x: Exchange, table: seq<Progress>, was: seq<Byte>)
    requires i < |table| == |job.chunks| && Rest(job.chunks[i], table[i].downloaded) > 0
    requires var c, credit := job.chunks[i], table[i].downloaded;
             Acceptable(job, c, c.start + credit, Answer(job, c, credit, x)) == None
    ensures Attempted(job, i, x, table, was, table, was, false)
  {
    AttemptIs(job, i, table[i].downloaded, x);
  }

  lemma BodyRead(job: Job, i: nat, x: Exchange, table: seq<Progress>, was: seq<Byte>, after: seq<Progress>,
                 file: seq<Byte>, ok: bool, c: Chunk, first: int, r: Response, room: nat)
    requires i < |table| == |job.chunks| && c == job.chunks[i] && first == c.start + table[i].downloaded <= c.end
    requires Acceptable(job, c, first, Answer(job, c, table[i].downloaded, x)) == Some(r)
    requires room == Min(c.end + 1 - first, |r.body|) && after == table[i := Gained(table[i], Got(x.events, room))]
    requires Filled(was, file, first, c.end + 1, r.body, Got(x.events, room))
    requires ok <==> r.clean && |r.body| == c.end + 1 - first && Got(x.events, room) == |r.body|
    ensures Attempted(job, i, x, table, was, after, file, ok)
  {
    AttemptIs(job, i, table[i].downloaded, x);
  }

  /** The engine reaches s; for callers that need not look at how. */
  ghost predicate Attained(job: Job, s: State, trace: seq<Step>) {
    Shaped(job, s) && forall n: nat :: Shown(n) ==> Sound(job) && Reached(job, s, trace)
  }

  lemma AttainedOk(job: Job, s: State, trace: seq<Step>)
    requires Attained(job, s, trace)
    ensures Sound(job) && Reached(job, s, trace) && Inv(job, s)
  {
    assert Shown(0);
    ReachedOk(job, s, trace);
  }

  lemma Onward(job: Job, s: State, trace: seq<Step>, step: Step) returns (t: State, longer: seq<Step>)
    requires Attained(job, s, trace) && Enabled(job, s, step) && Spared(s, step)
    ensures t == Apply(job, s, step) && Attained(job, t, longer)
  {
    assert Shown(0);
    t, longer := Extend(job, s, trace, step);
  }

  /** What chunk i may be credited with, and where it lies in the file. */
  lemma Bounds(job: Job, s: State, trace: seq<Step>, i: nat)
    requires Attained(job, s, trace) && i < |job.chunks|
    ensures 0 <= s.progress[i].downloaded <= job.chunks[i].Length()
    ensures 0 <= job.chunks[i].start <= job.chunks[i].end < job.total
    ensures s.phase != Idle ==> |s.disk| == job.total
  {
    AttainedOk(job, s, trace);
    assert ChunkOk(job, s, i);
    PartitionBounds(job.chunks, job.total, i);
  }

  lemma SavedFits(job: Job, s: State, trace: seq<Step>)
    requires Attained(job, s, trace)
    ensures forall i :: 0 <= i < |s.saved| ==> 0 <= s.saved[i] <= job.chunks[i].Length()
  {
    AttainedOk(job, s, trace);
    forall i | 0 <= i < |s.saved| ensures 0 <= s.saved[i] <= job.chunks[i].Length() { assert ChunkOk(job, s, i); }
  }

  lemma HasSize(job: Job, s: State, trace: seq<Step>)
    requires Attained(job, s, trace)
    ensures job.total > 0 && job.chunks != []
  {
    assert Shown(0);
  }

  /** Chunk j and its worker are as they were. */
  predicate Unmoved(s: State, t: State, j: nat) {
    && j < |s.progress| == |s.saved| == |s.origin| == |s.workers| == |s.frontier|
    && j < |t.progress| == |t.saved| == |t.origin| == |t.workers| == |t.frontier|
    && t.progress[j] == s.progress[j] && t.saved[j] == s.saved[j] && t.origin[j] == s.origin[j]
    && t.workers[j] == s.workers[j] && t.frontier[j] == s.frontier[j]
  }

  /** Nothing but worker i has moved. */
  ghost predicate OnlyWorker(job: Job, s: State, t: State, i: nat) {
    && t.phase == s.phase && t.outcome == s.outcome && t.pending == s.pending && t.now == s.now
    && t.base == s.base && t.lowered == s.lowered && (s.cancelled ==> t.cancelled)
    && forall j :: 0 <= j < |job.chunks| && j != i ==> Unmoved(s, t, j)
  }

  lemma BeginFields(job: Job, s: State)
    requires job.total >= 0 && Enabled(job, s, Begin)
    ensures var t := Apply(job, s, Begin);
            && t.progress == Reconcile(job.chunks, Load(job.chunks, s.saved), |s.disk|)
            && t.disk == Resize(s.disk, job.total) && t.saved == s.saved && !t.cancelled
  {
  }

  lemma CreditFields(job: Job, s: State, i: nat, t: State)
    requires Enabled(job, s, Step.Credit(i)) && t == Apply(job, s, Step.Credit(i))
    ensures var w := s.workers[i];
      && t.disk == s.disk && t.saved == s.saved && t.cancelled == s.cancelled
      && t.progress == s.progress[i := Progress(w.written + w.n - job.chunks[i].start, Downloading)]
      && t.workers == s.workers[i := Streaming(w.attempt, w.response, w.first, w.written + w.n)]
      && OnlyWorker(job, s, t, i)
  {
  }

  /** What settling an attempt does to the state of the engine. */
  lemma SettleFields(job: Job, s: State, i: nat, t: State)
    requires Enabled(job, s, Step.Settle(i)) && t == Apply(job, s, Step.Settle(i))
    ensures OnlyWorker(job, s, t, i) && t.disk == s.disk && t.cancelled == s.cancelled
    ensures var w, p := s.workers[i], s.progress[i];
      var again := w.Failing? && !s.cancelled && w.attempt < job.retries;
      var status := if w.Fetched? then Completed else if again then Retrying else Failed;
      && t.workers[i] == (if again then Waiting(w.attempt) else Done)
      && t.progress == (if w.Failing? && s.cancelled then s.progress else s.progress[i := p.(status := status)])
      && t.saved == (if w.Failing? && s.cancelled then s.saved else s.saved[i := p.downloaded])
  {
  }

  /** The answer if it may be read. */
  function Acceptable(job: Job, c: Chunk, first: int, answer: Option<Response>): Option<Response> {
    if answer.Some? && Accepts(job, c, first, answer.value) then answer else None
  }

  lemma VerdictOf(job: Job, s: State, trace: seq<Step>, ioOk: bool, t: State)
    requires Attained(job, s, trace) && Enabled(job, s, Return(ioOk)) && t == Apply(job, s, Return(ioOk))
    ensures t.outcome == Success <==> !s.cancelled && AllCompleted(s.progress) && Verified(job, s) && ioOk
    ensures ioOk ==> (t.outcome == Success <==> !s.cancelled && AllCompleted(s.progress))
    ensures t.outcome == Success && Fixed(job) && |job.content(0)| == job.total ==> s.disk == job.content(0)
    ensures t.phase == Idle && t.disk == s.disk && t.progress == s.progress && t.saved == s.saved
    ensures t.cancelled == s.cancelled
  {
    assert Shown(0);
    if ioOk { VerifyAcceptsCompleted(job, s, trace); }
    if t.outcome == Success && Fixed(job) && |job.content(0)| == job.total {
      SuccessMeansRemoteBytes(job, s, trace, ioOk);
    }
  }

  /** The versions served only move on. */
  predicate Rising(versions: seq<nat>) {
    forall j, k :: 0 <= j < k < |versions| ==> versions[j] <= versions[k]
  }

  /** From the given exchange on, the server is not behind this version. */
  predicate NotAhead(versions: seq<nat>, from: nat, now: nat) {
    forall k :: from <= k < |versions| ==> now <= versions[k]
  }

  /** A script for one worker, each exchange answered honestly from the version beside it. */
  ghost predicate Served(job: Job, script: seq<Exchange>, versions: seq<nat>, now: nat) {
    && |versions| == |script| && NotAhead(versions, 0, now) && Rising(versions)
    && forall k :: 0 <= k < |script| ==> HonestExchange(job, script[k], versions[k])
  }

  /** A script for every worker; the versions only move on from one worker to the next. */
  ghost predicate AllServed(job: Job, scripts: seq<seq<Exchange>>, versions: seq<seq<nat>>, now: nat) {
    && |versions| == |scripts| == |job.chunks|
    && (forall i :: 0 <= i < |scripts| ==> Served(job, scripts[i], versions[i], now))
    && forall i, j, v :: 0 <= i < j < |versions| && v in versions[i] ==> NotAhead(versions[j], 0, v)
  }

  /** OnlyWorkerTrans when the server moves on as well. */
  lemma OnlyWorkerLater(job: Job, s: State, t: State, u: State, i: nat)
    requires OnlyWorker(job, s.(now := t.now), t, i) && OnlyWorker(job, t.(now := u.now), u, i)
    ensures OnlyWorker(job, s.(now := u.now), u, i)
  {
    forall j | 0 <= j < |job.chunks| && j != i ensures Unmoved(s.(now := u.now), u, j) {
      assert Unmoved(s.(now := t.now), t, j) && Unmoved(t.(now := u.now), u, j);
    }
  }

  lemma OnlyWorkerTrans(job: Job, s: State, t: State, u: State, i: nat)
    requires OnlyWorker(job, s, t, i) && OnlyWorker(job, t, u, i)
    ensures OnlyWorker(job, s, u, i)
  {
    forall j | 0 <= j < |job.chunks| && j != i ensures Unmoved(s, u, j) { assert Unmoved(s, t, j) && Unmoved(t, u, j); }
  }

  /** The first n workers have run, from this table on, and the others have not been spawned. */
  ghost predicate Spawned(job: Job, n: nat, scripts: seq<seq<Exchange>>, table: seq<Progress>, s: State) {
    && n <= |job.chunks| == |scripts| == |table| == |s.progress| == |s.workers|
    && (forall j :: 0 <= j < n ==> HasRun(job, scripts, table, s, j))
    && forall j :: n <= j < |job.chunks| ==> s.workers[j] == Unspawned && s.progress[j] == table[j]
  }

  ghost predicate HasRun(job: Job, scripts: seq<seq<Exchange>>, table: seq<Progress>, s: State, j: nat) {
    && j < |job.chunks| == |scripts| == |table| == |s.progress| == |s.workers| && s.workers[j] == Done
    && (!s.cancelled ==> s.progress[j] == Ending(job, job.chunks[j], table[j].downloaded, scripts[j], job.retries + 1))
  }

  lemma OneMoreSpawned(job: Job, i: nat, scripts: seq<seq<Exchange>>, table: seq<Progress>, s: State, t: State)
    requires Spawned(job, i, scripts, table, s) && i < |job.chunks| && Shaped(job, t) && (s.cancelled ==> t.cancelled)
    requires OnlyWorker(job, s.(now := t.now), t, i) && HasRun(job, scripts, table, t, i)
    ensures Spawned(job, i + 1, scripts, table, t)
  {
    forall j | 0 <= j < |job.chunks| && j != i ensures t.workers[j] == s.workers[j] && t.progress[j] == s.progress[j] {
      assert Unmoved(s.(now := t.now), t, j);
    }
    forall j | 0 <= j < i + 1 ensures HasRun(job, scripts, table, t, j) {
      assert j < i ==> HasRun(job, scripts, table, s, j);
    }
  }

  lemma AllQuiet(job: Job, n: nat, scripts: seq<seq<Exchange>>, table: seq<Progress>, s: State)
    requires Shaped(job, s) && s.phase == Running && Spawned(job, n, scripts, table, s)
    requires n == |job.chunks| || s.cancelled
    ensures Enabled(job, s, StartFlush)
  {
    forall j | 0 <= j < |s.workers| ensures Quiet(s.workers[j], s.cancelled) {
      if j < n { assert HasRun(job, scripts, table, s, j); }
    }
  }

  /** Every worker has run from what reconciliation left of the rows. */
  lemma AllRun(job: Job, scripts: seq<seq<Exchange>>, rows: seq<int>, onDisk: nat, table: seq<Progress>, s: State)
    requires Shaped(job, s) && |rows| == |job.chunks| && (forall i :: 0 <= i < |rows| ==> rows[i] >= 0)
    requires table == Reconcile(job.chunks, Load(job.chunks, rows), onDisk)
    requires Spawned(job, |job.chunks|, scripts, table, s) && !s.cancelled
    ensures RanFrom(job, scripts, rows, onDisk, s.progress)
    ensures AllCompleted(s.progress) <==> Fetchable(job, scripts, rows, onDisk)
  {
    forall i | 0 <= i < |job.chunks|
      ensures RanAs(job, scripts[i], job.chunks[i], Backing(job.chunks[i], rows[i], onDisk), s.progress[i])
    {
      assert HasRun(job, scripts, table, s, i);
      assert table[i].downloaded == Backing(job.chunks[i], rows[i], onDisk);
      EndingIs(job, job.chunks[i], table[i].downloaded, scripts[i], job.retries + 1);
    }
  }

  /** A chunk is completed exactly if one of its attempts fetches what is lacking, and credited with what all of them
      have got. */
  ghost predicate RanAs(job: Job, script: seq<Exchange>, c: Chunk, credit: int, p: Progress) {
    && p.status == (if Completes(job, c, credit, script, job.retries + 1) then Completed else Failed)
    && p.downloaded == Credited(job, c, credit, script, job.retries + 1)
  }

  /** Every chunk has run from what reconciliation left of its row. */
  ghost predicate RanFrom(job: Job, scripts: seq<seq<Exchange>>, rows: seq<int>, onDisk: nat, table: seq<Progress>) {
    && |scripts| == |rows| == |job.chunks| == |table|
    && forall i :: 0 <= i < |job.chunks| ==>
         RanAs(job, scripts[i], job.chunks[i], Backing(job.chunks[i], rows[i], onDisk), table[i])
  }

  class Downloader {
    ghost const job: Job
    const chunks: seq<Chunk>
    const totalSize: int
    const retries: nat
    const etag: string
    const modified: string

    var file: seq<Byte>
    var progress: seq<Progress>
    var downloadedSize: int
    var cancelled: bool
    /** The rows the progress callback writes. */
    var saved: seq<int>
    var savedStatus: seq<Status>

    ghost var machine: State
    ghost var history: seq<Step>

    /** The ghost machine is a state the engine can be in. */
    ghost predicate Linked()
      reads this
    {
      && job.chunks == chunks && job.total == totalSize && job.retries == retries
      && job.etag == etag && job.modified == modified
      && Attained(job, machine, history)
      && |savedStatus| == |chunks|
    }

    ghost predicate Valid()
      reads this
    {
      && Linked()
      && file == machine.disk && progress == machine.progress && saved == machine.saved
      && cancelled == machine.cancelled
    }

    /** NewDownloader for a download that has just been created. */
    constructor (ghost job: Job, chunks: seq<Chunk>, totalSize: int, retries: nat, etag: string, modified: string)
      requires Sound(job)
      requires job.chunks == chunks && job.total == totalSize && job.retries == retries
      requires job.etag == etag && job.modified == modified
      ensures Valid() && this.job == job && machine == Fresh(job) && history == []
    {
      this.job := job;
      this.chunks, this.totalSize, this.retries := chunks, totalSize, retries;
      this.etag, this.modified := etag, modified;
      file, cancelled, downloadedSize := [], false, 0;
      var zeros := seq(|chunks|, _ => 0);
      saved, savedStatus := zeros, seq(|chunks|, _ => Pending);
      progress := Load(chunks, zeros);
      machine, history := Fresh(job), [];
    }

    /** The progress table NewDownloader builds from the rows of the database, with its running total. */
    method LoadProgress() returns (table: seq<Progress>, alreadyDownloaded: int)
      requires |saved| == |chunks|
      ensures table == Load(chunks, saved) && alreadyDownloaded == Sum(saved)
    {
      table, alreadyDownloaded := [], 0;
      var i := 0;
      while i < |chunks|
        invariant 0 <= i <= |chunks| && |table| == i
        invariant forall k :: 0 <= k < i ==> table[k] == Load(chunks, saved)[k]
        invariant alreadyDownloaded == Sum(saved[..i])
      {
        var total := chunks[i].end - chunks[i].start + 1;
        var status := Pending;
        if saved[i] >= total && total > 0 {
          status := Completed;
        }
        table := table + [Progress(saved[i], status)];
        alreadyDownloaded := alreadyDownloaded + saved[i];
        assert saved[..i + 1][..i] == saved[..i];
        i := i + 1;
      }
      assert saved[..i] == saved;
    }

    /** reconcileDiskProgress: no chunk keeps more credit than the part file has bytes for. */
    method ReconcileDiskProgress()
      requires |progress| == |chunks|
      modifies this`progress, this`downloadedSize
      ensures progress == Reconcile(chunks, old(progress), |file|)
      ensures (forall k :: 0 <= k < |progress| ==> progress[k].downloaded >= 0) ==>
                downloadedSize == Sum(Credits(progress))
    {
      var onDisk := |file|;
      var total := 0;
      var i := 0;
      ghost var before := progress;
      while i < |progress|
        invariant 0 <= i <= |progress| == |chunks| == |before|
        invariant forall k :: 0 <= k < i ==> progress[k] == ReconcileOne(chunks[k], before[k], onDisk)
        invariant forall k :: i <= k < |progress| ==> progress[k] == before[k]
        invariant (forall k :: 0 <= k < i ==> progress[k].downloaded >= 0) ==> total == Sum(Credits(progress[..i]))
      {
        ghost var prefix := Credits(progress[..i]);
        var cp := progress[i];
        if cp.downloaded > 0 {
          var available := onDisk - chunks[i].start;
          if available < 0 {
            available := 0;
          }
          if cp.downloaded > available {
            cp := cp.(downloaded := available);
            if cp.status == Completed {
              cp := cp.(status := Pending);
            }
          }
          progress := progress[i := cp];
          total := total + cp.downloaded;
        }
        assert Credits(progress[..i + 1])[..i] == prefix;
        i := i + 1;
      }
      downloadedSize := total;
      assert progress[..i] == progress;
    }

    /** Start up to the point where workers are spawned: load, reconcile, then give the file its full length. */
    method Begin()
      requires Valid() && machine.phase == Idle && machine.pending == []
      modifies this
      ensures Valid() && machine == Started(job, old(machine))
    {
      HasSize(job, machine, history);
      BeginFields(job, machine);
      ghost var m, h := Onward(job, machine, history, Step.Begin);
      Prepare();
      machine, history := m, h;
    }

    method Prepare()
      requires |saved| == |chunks| && totalSize >= 0
      modifies this`progress, this`downloadedSize, this`file, this`cancelled
      ensures progress == Reconcile(chunks, Load(chunks, saved), |old(file)|)
      ensures file == Resize(old(file), totalSize) && !cancelled
    {
      progress, downloadedSize := LoadProgress();
      ReconcileDiskProgress();
      file := Resize(file, totalSize);
      cancelled := false;
    }

    /** verifyOnDisk. */
    method VerifyOnDisk() returns (ok: bool)
      ensures ok <==> (totalSize > 0 ==> Sum(Credits(progress)) == totalSize && |file| == totalSize)
    {
      var chunkSum := 0;
      var i := 0;
      while i < |progress|
        invariant 0 <= i <= |progress|
        invariant chunkSum == Sum(Credits(progress)[..i])
      {
        chunkSum := chunkSum + progress[i].downloaded;
        assert Credits(progress)[..i + 1][..i] == Credits(progress)[..i];
        i := i + 1;
      }
      assert Credits(progress)[..i] == Credits(progress);
      if totalSize > 0 && chunkSum != totalSize {
        return false;
      }
      if totalSize > 0 && |file| != totalSize {
        return false;
      }
      return true;
    }

    /** The status flushProgress writes for a chunk: one still moving is really paused. */
    static function Resumable(status: Status): Status {
      if status == Downloading || status == Retrying then Paused else status
    }

    method FlushProgress()
      requires Valid() && machine.phase == Flushing(0)
      modifies this`saved, this`savedStatus, this`machine, this`history
      ensures Valid() && machine.phase == Flushing(|chunks|)
      ensures saved == Credits(progress)
      ensures forall k :: 0 <= k < |progress| ==> savedStatus[k] == Resumable(progress[k].status)
      ensures forall k :: 0 <= k < |progress| ==> savedStatus[k] != Downloading && savedStatus[k] != Retrying
      ensures forall k :: 0 <= k < |progress| && progress[k].status in {Downloading, Retrying} ==>
                savedStatus[k] == Paused
      ensures forall k :: 0 <= k < |progress| && progress[k].status !in {Downloading, Retrying} ==>
                savedStatus[k] == progress[k].status
    {
      var k := 0;
      while k < |progress|
        invariant 0 <= k <= |progress| == |chunks|
        invariant Valid() && machine.phase == Flushing(k)
        invariant forall j :: 0 <= j < k ==> saved[j] == progress[j].downloaded
        invariant forall j :: 0 <= j < k ==> savedStatus[j] == Resumable(progress[j].status)
      {
        FlushChunk(k);
        k := k + 1;
      }
    }

    method FlushChunk(k: nat)
      requires Valid() && machine.phase == Flushing(k) && k < |chunks|
      modifies this`saved, this`savedStatus, this`machine, this`history
      ensures Valid() && machine.phase == Flushing(k + 1)
      ensures saved == old(saved)[k := progress[k].downloaded]
      ensures savedStatus == old(savedStatus)[k := Resumable(progress[k].status)]
    {
      ghost var m, h := Onward(job, machine, history, FlushOne);
      saved := saved[k := progress[k].downloaded];
      savedStatus := savedStatus[k := Resumable(progress[k].status)];
      machine, history := m, h;
    }

    method AllChunksCompleted() returns (allDone: bool)
      ensures allDone <==> AllCompleted(progress)
    {
      allDone := true;
      var k := 0;
      while k < |progress|
        invariant 0 <= k <= |progress|
        invariant allDone <==> forall j :: 0 <= j < k ==> progress[j].status == Completed
      {
        if progress[k].status != Completed {
          allDone := false;
          break;
        }
        k := k + 1;
      }
    }

    /** The end of Start once every worker has stopped: flush, then the verdict. */
    method Finish(ioOk: bool) returns (ok: bool)
      requires Valid() && Enabled(job, machine, StartFlush)
      modifies this`saved, this`savedStatus, this`machine, this`history
      ensures Valid() && machine.phase == Idle && (ok <==> machine.outcome == Success)
      ensures saved == Credits(progress)
      ensures forall k :: 0 <= k < |progress| ==> savedStatus[k] == Resumable(progress[k].status)
      ensures ok <==> ioOk && !cancelled && AllCompleted(progress)
      ensures ok && Fixed(job) && |job.content(0)| == totalSize ==> file == job.content(0)
    {
      machine, history := Onward(job, machine, history, StartFlush);
      FlushProgress();
      ok := Verdict(ioOk);
    }

    method Verdict(ioOk: bool) returns (ok: bool)
      requires Valid() && machine.phase == Flushing(|chunks|)
      modifies this`machine, this`history
      ensures Valid() && machine.phase == Idle && (ok <==> machine.outcome == Success)
      ensures ok <==> ioOk && !cancelled && AllCompleted(progress)
      ensures ok && Fixed(job) && |job.content(0)| == totalSize ==> file == job.content(0)
    {
      var allDone := AllChunksCompleted();
      var verified := VerifyOnDisk();
      ok := !cancelled && allDone && verified && ioOk;
      VerdictOf(job, machine, history, ioOk, Apply(job, machine, Return(ioOk)));
      Move(Return(ioOk));
    }

    // -------------------------------------------------------------- the speed ticker

    /** One tick of trackSpeed under the lock: the total, and a snapshot of every chunk that is downloading. */
    method TakeSnapshots() returns (snaps: seq<Snapshot>)
      requires Valid()
      modifies this`downloadedSize, this`machine, this`history
      ensures Valid() && machine == Apply(job, old(machine), Tick)
      ensures snaps == Snapshots(progress) && downloadedSize == Sum(Credits(progress))
    {
      snaps, downloadedSize := ReadProgress();
      Move(Tick);
    }

    method ReadProgress() returns (snaps: seq<Snapshot>, total: int)
      ensures snaps == Snapshots(progress) && total == Sum(Credits(progress))
    {
      snaps, total := [], 0;
      var i := 0;
      while i < |progress|
        invariant 0 <= i <= |progress|
        invariant snaps == Snapshots(progress[..i]) && total == Sum(Credits(progress)[..i])
      {
        assert progress[..i + 1][..i] == progress[..i];
        assert Credits(progress)[..i + 1][..i] == Credits(progress)[..i];
        total := total + progress[i].downloaded;
        if progress[i].status == Downloading {
          snaps := snaps + [Snapshot(i, progress[i].downloaded)];
        }
        i := i + 1;
      }
      assert progress[..i] == progress && Credits(progress)[..i] == Credits(progress);
    }

    /** A snapshot taken earlier reaches the database, whatever has happened in between. */
    method EmitSnapshot(snap: Snapshot, ghost k: nat)
      requires Valid() && k < |machine.pending| && machine.pending[k] == snap
      modifies this`saved, this`savedStatus, this`machine, this`history
      ensures Valid() && machine == Apply(job, old(machine), Land(k))
      ensures saved == old(saved)[snap.chunk := snap.downloaded]
      ensures savedStatus == old(savedStatus)[snap.chunk := Downloading]
    {
      saved := saved[snap.chunk := snap.downloaded];
      savedStatus := savedStatus[snap.chunk := Downloading];
      Move(Land(k));
    }

    // -------------------------------------------------------------- one worker

    /** The ghost machine follows a step whose effect the fields already show. */
    ghost method Move(step: Step)
      requires Linked() && Enabled(job, machine, step) && Spared(machine, step)
      requires var t := Apply(job, machine, step);
               t.disk == file && t.progress == progress && t.saved == saved && t.cancelled == cancelled
      modifies this`machine, this`history
      ensures Valid() && machine == Apply(job, old(machine), step)
    {
      machine, history := Onward(job, machine, history, step);
    }

    /** Pause or delete arrives. */
    method Cancel()
      requires Valid() && machine.phase != Idle
      modifies this`cancelled, this`machine, this`history
      ensures Valid() && cancelled && machine == old(machine).(cancelled := true)
    {
      cancelled := true;
      Move(Step.Cancel);
    }

    method StoreBytes(i: nat, offset: nat, data: seq<Byte>)
      requires Valid() && Enabled(job, machine, Put(i, |data|))
      requires machine.workers[i].written == offset && ReadBytes(machine.workers[i], |data|) == data
      modifies this`file, this`machine, this`history
      ensures Valid() && file == WriteAt(old(file), offset, data)
      ensures OnlyWorker(job, old(machine), machine, i) && Works(job, machine, i)
      ensures var w := old(machine.workers[i]);
              machine.workers[i] == Storing(w.attempt, w.response, w.first, w.written, |data|)
    {
      file := WriteAt(file, offset, data);
      Move(Put(i, |data|));
    }

    method StoreBytesFails(i: nat, offset: nat, data: seq<Byte>)
      requires Valid() && Enabled(job, machine, PutFails(i, |data|))
      requires machine.workers[i].written == offset && ReadBytes(machine.workers[i], |data|) == data
      modifies this`file, this`machine, this`history
      ensures Valid() && file == WriteAt(old(file), offset, data)
      ensures OnlyWorker(job, old(machine), machine, i)
      ensures machine.workers[i] == Failing(old(machine.workers[i].attempt))
    {
      file := WriteAt(file, offset, data);
      Move(PutFails(i, |data|));
    }

    method CreditBytes(i: nat, chunkDownloaded: int)
      requires Valid() && Works(job, machine, i) && machine.workers[i].Storing?
      requires chunkDownloaded == machine.workers[i].written + machine.workers[i].n - chunks[i].start
      modifies this`progress, this`machine, this`history
      ensures Valid()
      ensures progress == old(progress)[i := Progress(chunkDownloaded, Downloading)]
      ensures OnlyWorker(job, old(machine), machine, i) && cancelled == old(cancelled)
      ensures var w := old(machine.workers[i]);
              machine.workers[i] == Streaming(w.attempt, w.response, w.first, w.written + w.n)
    {
      CreditFields(job, machine, i, Apply(job, machine, Step.Credit(i)));
      progress := progress[i := Progress(chunkDownloaded, Downloading)];
      Move(Step.Credit(i));
    }

    /** The body of an acceptable answer is about to be read. */
    ghost method Accept(i: nat, r: Response)
      requires Valid() && Enabled(job, machine, Accepted(i, r))
      modifies this`machine, this`history
      ensures Valid() && OnlyWorker(job, old(machine), machine, i)
      ensures machine.workers[i] == Streaming(old(machine).workers[i].attempt, r,
                                              old(First(job, machine, i)), old(First(job, machine, i)))
      ensures machine.origin[i] == if progress[i].downloaded == 0 then machine.now else old(machine).origin[i]
    {
      Move(Accepted(i, r));
    }

    ghost method Refuse(i: nat, answer: Option<Response>)
      requires Valid() && Enabled(job, machine, Refused(i, answer))
      modifies this`machine, this`history
      ensures Valid() && OnlyWorker(job, old(machine), machine, i)
      ensures machine.workers[i] == Failing(old(machine).workers[i].attempt)
    {
      Move(Refused(i, answer));
    }

    /** The range request and the header checks of the answer. */
    method Ask(i: nat, x: Exchange) returns (answer: Option<Response>, acceptable: bool)
      requires job.chunks == chunks && job.total == totalSize && job.etag == etag && job.modified == modified
      requires i < |chunks| == |progress|
      ensures answer == Answer(job, chunks[i], progress[i].downloaded, x)
      ensures acceptable <==>
                answer.Some? && Accepts(job, chunks[i], chunks[i].start + progress[i].downloaded, answer.value)
    {
      var ch := chunks[i];
      var downloaded := progress[i].downloaded;
      var start := ch.start + downloaded;
      var ifRange := IfRangeHeader(downloaded);
      answer := x.respond(ifRange, start);
      acceptable := false;
      if answer.Some? {
        acceptable := Check(answer.value, ch, start);
      }
    }

    /** Sending the range request: an acceptable answer is read, any other fails the attempt. */
    method Request(i: nat, x: Exchange) returns (answer: Option<Response>)
      requires Valid() && Works(job, machine, i) && machine.workers[i].Ready?
      requires chunks[i].start + progress[i].downloaded <= chunks[i].end && HonestExchange(job, x, machine.now)
      modifies this`machine, this`history
      ensures Valid()
      ensures OnlyWorker(job, old(machine), machine, i)
      ensures answer == Acceptable(job, chunks[i], chunks[i].start + progress[i].downloaded,
                                   Answer(job, chunks[i], progress[i].downloaded, x))
      ensures var first := chunks[i].start + progress[i].downloaded;
        answer.Some? ==>
          && Reading(i, old(machine).workers[i].attempt, answer.value, first, first)
          && machine.origin[i] == if progress[i].downloaded == 0 then machine.now else old(machine).origin[i]
      ensures answer.None? ==> machine.workers[i] == Failing(old(machine).workers[i].attempt)
    {
      var acceptable: bool;
      Bounds(job, machine, history, i);
      answer, acceptable := Ask(i, x);
      if acceptable {
        Accept(i, answer.value);
      } else {
        Refuse(i, answer);
        answer := None;
      }
    }

    /** The If-Range header to send; the empty string when there is none. */
    method IfRangeHeader(downloaded: int) returns (ifRange: string)
      requires job.etag == etag && job.modified == modified
      ensures ifRange == IfRange(job, downloaded)
      ensures downloaded <= 0 ==> ifRange == ""
      ensures downloaded > 0 && etag != "" && !("W/" <= etag) ==> ifRange == etag
      ensures downloaded > 0 && (etag == "" || "W/" <= etag) ==> ifRange == modified
    {
      var validator := etag;
      if validator == "" || "W/" <= validator {
        validator := modified;
      }
      ifRange := "";
      if downloaded > 0 && validator != "" {
        ifRange := validator;
      }
    }

    /** The header checks of downloadChunk. */
    method Check(r: Response, ch: Chunk, start: int) returns (ok: bool)
      requires job.chunks == chunks && job.total == totalSize
      ensures ok <==> Accepts(job, ch, start, r)
    {
      var expected := ch.end - start + 1;
      if r.code == 206 {
        var parsed := ContentRange.Parse(r.contentRange);
        if parsed.Err? {
          return false;
        }
        if parsed.value.start != start || parsed.value.end != ch.end || parsed.value.total != totalSize {
          return false;
        }
      } else if r.code == 200 {
        if start != 0 || ch.start != 0 || ch.end != totalSize - 1 || |chunks| != 1 {
          return false;
        }
      } else {
        return false;
      }
      if r.contentLength >= 0 && r.contentLength != expected {
        return false;
      }
      return true;
    }

    /** Worker i stands in the read loop of an attempt, this far into its range. */
    ghost predicate Reading(i: nat, attempt: nat, r: Response, start: int, written: int)
      reads this
    {
      && Valid() && Works(job, machine, i)
      && machine.workers[i] == Streaming(attempt, r, start, written)
      && written == chunks[i].start + progress[i].downloaded
      && 0 <= start <= written <= chunks[i].end + 1 && written - start <= |r.body|
    }

    /** One read that delivered something: store it, then credit it. */
    method TakeBytes(i: nat, ghost attempt: nat, ghost r: Response, ghost start: int, written: int, data: seq<Byte>)
      requires Valid() && Works(job, machine, i) && machine.workers[i] == Streaming(attempt, r, start, written)
      requires 0 <= start <= written && written + |data| <= chunks[i].end + 1 && 0 < |data| <= READ_BUF_SIZE
      requires written - start + |data| <= |r.body| && data == r.body[written - start..written - start + |data|]
      modifies this`file, this`progress, this`machine, this`history
      ensures Valid() && Works(job, machine, i)
      ensures machine.workers[i] == Streaming(attempt, r, start, written + |data|)
      ensures OnlyWorker(job, old(machine), machine, i) && cancelled == old(cancelled)
      ensures file == WriteAt(old(file), written, data)
      ensures progress == old(progress)[i := Progress(written + |data| - chunks[i].start, Downloading)]
    {
      ghost var before := machine;
      MayWrite(job, machine, i, attempt, r, start, written, data);
      StoreBytes(i, written, data);
      ghost var mid := machine;
      CreditBytes(i, written + |data| - chunks[i].start);
      OnlyWorkerTrans(job, before, mid, machine, i);
    }

    /** The context is cancelled while the read waits. */
    method Interrupt(i: nat)
      requires Valid() && Works(job, machine, i) && machine.workers[i].Streaming?
      modifies this`cancelled, this`machine, this`history
      ensures Valid() && cancelled && OnlyWorker(job, old(machine), machine, i)
      ensures machine.workers[i] == Failing(old(machine.workers[i].attempt))
    {
      Cancel();
      Move(Break(i));
    }

    /** One read that delivers something of what the body has left. */
    method Receive(i: nat, ghost attempt: nat, r: Response, start: int, written: int, size: int) returns (n: nat)
      requires Reading(i, attempt, r, start, written) && written <= chunks[i].end && written - start < |r.body|
      modifies this`file, this`progress, this`machine, this`history
      ensures n == Taken(size, Min(chunks[i].end + 1 - written, |r.body| - (written - start)))
      ensures Reading(i, attempt, r, start, written + n)
      ensures OnlyWorker(job, old(machine), machine, i) && cancelled == old(cancelled)
      ensures file == WriteAt(old(file), written, r.body[written - start..written - start + n])
      ensures progress == old(progress)[i := Gained(old(progress)[i], n)]
    {
      var m := Min(Min(size, READ_BUF_SIZE), Min(chunks[i].end + 1 - written, |r.body| - (written - start)));
      n := 0;
      if m > 0 {
        n := m;
        var data := r.body[written - start..written - start + n];
        assert |data| == n;
        TakeBytes(i, attempt, r, start, written, data);
      } else {
        Bounds(job, machine, history, i);
        NothingWritten(file, written);
      }
    }

    /** One turn of the read loop: how many bytes it took, or that the attempt failed. */
    method ReadOnce(i: nat, ghost attempt: nat, r: Response, start: int, written: int, event: Event)
      returns (n: nat, failed: bool)
      requires Reading(i, attempt, r, start, written) && written <= chunks[i].end
      modifies this`file, this`progress, this`cancelled, this`machine, this`history
      ensures Valid() && OnlyWorker(job, old(machine), machine, i)
      ensures failed <==> !event.Deliver? || |r.body| == written - start
      ensures failed ==> machine.workers[i] == Failing(attempt)
      ensures failed ==> n == 0 && progress == old(progress) && SameBut(old(file), file, written, chunks[i].end + 1)
      ensures cancelled == (old(cancelled) || event.Interrupted?)
      ensures !failed ==>
                && n == Taken(event.n, Min(chunks[i].end + 1 - written, |r.body| - (written - start)))
                && Reading(i, attempt, r, start, written + n)
                && file == WriteAt(old(file), written, r.body[written - start..written - start + n])
                && progress == old(progress)[i := Gained(old(progress)[i], n)]
    {
      n, failed := 0, true;
      match event
      case Stalled =>
        Move(Break(i));
      case Interrupted =>
        Interrupt(i);
      case Deliver(size) =>
        if |r.body| == written - start {
          Move(Break(i)); // the body ended before the range did
          return;
        }
        failed := false;
        n := Receive(i, attempt, r, start, written, size);
      case WriteError(size) =>
        FailWrite(i, attempt, r, start, written, size);
    }

    /** A read whose WriteAt fails after some of the bytes. */
    method FailWrite(i: nat, ghost attempt: nat, r: Response, start: int, written: int, size: int)
      requires Reading(i, attempt, r, start, written)
      modifies this`file, this`machine, this`history
      ensures Valid() && OnlyWorker(job, old(machine), machine, i)
      ensures machine.workers[i] == Failing(attempt)
      ensures SameBut(old(file), file, written, chunks[i].end + 1)
    {
      Bounds(job, machine, history, i);
      var m := Min(Min(size, READ_BUF_SIZE), Min(chunks[i].end + 1 - written, |r.body| - (written - start)));
      if m < 0 { m := 0; }
      var data := r.body[written - start..written - start + m];
      assert |data| == m;
      MayWrite(job, machine, i, attempt, r, start, written, data);
      StoreBytesFails(i, written, data);
    }

    /** One turn of the read loop, with what it adds to the file and to the credit. */
    method ReadNext(i: nat, ghost attempt: nat, r: Response, start: int, written: int, event: Event,
                    ghost was: seq<Byte>, ghost table: seq<Progress>)
      returns (n: nat, failed: bool)
      requires Reading(i, attempt, r, start, written) && written <= chunks[i].end && |table| == |progress|
      requires Filled(was, file, start, chunks[i].end + 1, r.body, written - start)
      requires progress == table[i := Gained(table[i], written - start)]
      modifies this`file, this`progress, this`cancelled, this`machine, this`history
      ensures Valid() && OnlyWorker(job, old(machine), machine, i)
      ensures cancelled == (old(cancelled) || event.Interrupted?)
      ensures failed <==> !event.Deliver? || |r.body| == written - start
      ensures failed ==> n == 0 && machine.workers[i] == Failing(attempt)
      ensures !failed ==>
                && n == Taken(event.n, Min(chunks[i].end + 1 - written, |r.body| - (written - start)))
                && Reading(i, attempt, r, start, written + n)
      ensures Filled(was, file, start, chunks[i].end + 1, r.body, written - start + n)
      ensures progress == table[i := Gained(table[i], written - start + n)]
    {
      ghost var now := file;
      Bounds(job, machine, history, i);
      n, failed := ReadOnce(i, attempt, r, start, written, event);
      if failed {
        StillFilled(was, now, file, start, written, chunks[i].end + 1, r.body);
      } else {
        WriteExtends(was, now, start, chunks[i].end + 1, r.body, written - start, n);
        GainedTwice(table, i, written - start, n);
      }
    }

    /** After k events the worker of a range that began with this file, table and engine state is this far into it. */
    ghost predicate Midway(i: nat, attempt: nat, r: Response, start: int, events: seq<Event>, room: nat, k: nat,
                           written: int, was: seq<Byte>, table: seq<Progress>, before: State)
      reads this
    {
      && Reading(i, attempt, r, start, written) && OnlyWorker(job, before, machine, i)
      && room == Min(chunks[i].end + 1 - start, |r.body|) && GotSoFar(events, room, k, written - start)
      && |table| == |progress| && progress == table[i := Gained(table[i], written - start)]
      && Filled(was, file, start, chunks[i].end + 1, r.body, written - start)
    }

    /** The read loop is over: all that could be got is in the file and credited, and either that is the range, or the
        attempt has failed. */
    ghost predicate Ended(i: nat, attempt: nat, r: Response, start: int, events: seq<Event>, room: nat, was: seq<Byte>,
                          table: seq<Progress>, before: State, full: bool)
      reads this
    {
      && Valid() && Works(job, machine, i) && OnlyWorker(job, before, machine, i)
      && machine.workers[i] == (if full then Streaming(attempt, r, start, chunks[i].end + 1) else Failing(attempt))
      && (full <==> Got(events, room) == chunks[i].end + 1 - start)
      && |table| == |progress| && progress == table[i := Gained(table[i], Got(events, room))]
      && Filled(was, file, start, chunks[i].end + 1, r.body, Got(events, room))
    }

    /** One turn: either the worker is further into its range, or the attempt has failed with all that could be got. */
    method ReadTurn(i: nat, ghost attempt: nat, r: Response, start: int, events: seq<Event>, ghost room: nat, k: nat,
                    written: int, ghost was: seq<Byte>, ghost table: seq<Progress>, ghost before: State)
      returns (n: nat, failed: bool)
      requires Midway(i, attempt, r, start, events, room, k, written, was, table, before) && written <= chunks[i].end
      modifies this`file, this`progress, this`cancelled, this`machine, this`history
      ensures !failed ==> k < |events| && cancelled == old(cancelled)
      ensures !failed ==> Midway(i, attempt, r, start, events, room, k + 1, written + n, was, table, before)
      ensures failed ==> Ended(i, attempt, r, start, events, room, was, table, before, false)
      ensures cancelled && !old(cancelled) ==> Interrupted in events
    {
      ghost var mid, got := machine, written - start;
      var event := if k < |events| then events[k] else Stalled;
      GotStep(events, room, k, got);
      n, failed := ReadNext(i, attempt, r, start, written, event, was, table);
      OnlyWorkerTrans(job, before, mid, machine, i);
    }

    /** The read loop of downloadChunk: read, store and credit until the range is full. What it gets is what is
        delivered before anything else happens. */
    method ReadRange(i: nat, ghost attempt: nat, r: Response, start: int, events: seq<Event>, ghost room: nat)
      returns (full: bool)
      requires Reading(i, attempt, r, start, start) && start <= chunks[i].end
      requires room == Min(chunks[i].end + 1 - start, |r.body|)
      modifies this`file, this`progress, this`cancelled, this`machine, this`history
      ensures Ended(i, attempt, r, start, events, room, old(file), old(progress), old(machine), full)
      ensures cancelled && !old(cancelled) ==> Interrupted in events
    {
      ghost var before, was, table := machine, file, progress;
      Bounds(job, machine, history, i);
      var written := start;
      var k := 0;
      full := true;
      while full && written <= chunks[i].end
        invariant full ==> Midway(i, attempt, r, start, events, room, k, written, was, table, before)
        invariant full ==> cancelled == old(cancelled)
        invariant !full ==> Ended(i, attempt, r, start, events, room, was, table, before, false)
        invariant cancelled && !old(cancelled) ==> Interrupted in events
        decreases full, |events| - k
      {
        var n, failed := ReadTurn(i, attempt, r, start, events, room, k, written, was, table, before);
        full := !failed;
        written := written + n;
        k := k + 1;
      }
    }

    /** The last read of downloadChunk: the body must end where the range does. */
    method CheckBoundary(i: nat, ghost attempt: nat, r: Response, start: int, written: int) returns (ok: bool)
      requires Reading(i, attempt, r, start, written) && written == chunks[i].end + 1
      modifies this`machine, this`history
      ensures Valid() && OnlyWorker(job, old(machine), machine, i)
      ensures machine.workers[i] == if ok then Fetched(attempt) else Failing(attempt)
      ensures ok <==> r.clean && |r.body| == chunks[i].end + 1 - start
    {
      ok := |r.body| == written - start && r.clean;
      if ok {
        Move(Complete(i));
      } else {
        Move(Break(i));
      }
    }

    /** downloadChunk after the response has been accepted. It succeeds exactly when what has been got is the whole
        body, well ended, and as long as the range. */
    method ReadBody(i: nat, ghost attempt: nat, r: Response, start: int, events: seq<Event>, ghost room: nat)
      returns (ok: bool)
      requires Reading(i, attempt, r, start, start) && start <= chunks[i].end
      requires room == Min(chunks[i].end + 1 - start, |r.body|)
      modifies this`file, this`progress, this`cancelled, this`machine, this`history
      ensures Valid() && OnlyWorker(job, old(machine), machine, i)
      ensures machine.workers[i] == if ok then Fetched(attempt) else Failing(attempt)
      ensures progress == old(progress)[i := Gained(old(progress)[i], Got(events, room))]
      ensures Filled(old(file), file, start, chunks[i].end + 1, r.body, Got(events, room))
      ensures ok <==> r.clean && |r.body| == chunks[i].end + 1 - start && Got(events, room) == |r.body|
      ensures cancelled && !old(cancelled) ==> Interrupted in events
    {
      ghost var before := machine;
      ok := ReadRange(i, attempt, r, start, events, room);
      if ok {
        ghost var mid := machine;
        ok := CheckBoundary(i, attempt, r, start, chunks[i].end + 1);
        OnlyWorkerTrans(job, before, mid, machine, i);
      }
    }

    /** downloadChunk once there is an answer that may be read. */
    method ReadAnswer(i: nat, ghost attempt: nat, x: Exchange, start: int, r: Response) returns (ok: bool)
      requires Reading(i, attempt, r, start, start) && start <= chunks[i].end
      requires Acceptable(job, chunks[i], start, Answer(job, chunks[i], progress[i].downloaded, x)) == Some(r)
      modifies this`file, this`progress, this`cancelled, this`machine, this`history
      ensures Valid() && OnlyWorker(job, old(machine), machine, i)
      ensures machine.workers[i] == if ok then Fetched(attempt) else Failing(attempt)
      ensures Attempted(job, i, x, old(progress), old(file), progress, file, ok)
      ensures cancelled && !old(cancelled) ==> Interrupted in x.events
    {
      ghost var table, was := progress, file;
      ghost var room: nat := Min(chunks[i].end + 1 - start, |r.body|);
      ok := ReadBody(i, attempt, r, start, x.events, room);
      BodyRead(job, i, x, table, was, progress, file, ok, chunks[i], start, r, room);
    }

    /** downloadChunk when something is lacking. */
    method FetchRest(i: nat, x: Exchange) returns (ok: bool)
      requires Valid() && Works(job, machine, i) && machine.workers[i].Ready?
      requires HonestExchange(job, x, machine.now) && chunks[i].start + progress[i].downloaded <= chunks[i].end
      modifies this`file, this`progress, this`cancelled, this`machine, this`history
      ensures Valid() && OnlyWorker(job, old(machine), machine, i)
      ensures machine.workers[i] == if ok then Fetched(old(machine).workers[i].attempt)
                                    else Failing(old(machine).workers[i].attempt)
      ensures Attempted(job, i, x, old(progress), old(file), progress, file, ok)
      ensures cancelled && !old(cancelled) ==> Interrupted in x.events
    {
      ghost var attempt, before := machine.workers[i].attempt, machine;
      var start := chunks[i].start + progress[i].downloaded;
      var answer := Request(i, x);
      if answer.None? {
        NothingRead(job, i, x, progress, file);
        return false;
      }
      ghost var mid := machine;
      ok := ReadAnswer(i, attempt, x, start, answer.value);
      OnlyWorkerTrans(job, before, mid, machine, i);
    }

    /** downloadChunk. */
    method DownloadChunk(i: nat, x: Exchange) returns (ok: bool)
      requires Valid() && Works(job, machine, i) && machine.workers[i].Ready?
      requires HonestExchange(job, x, machine.now)
      modifies this`file, this`progress, this`cancelled, this`machine, this`history
      ensures Valid() && OnlyWorker(job, old(machine), machine, i)
      ensures machine.workers[i] == if ok then Fetched(old(machine).workers[i].attempt)
                                    else Failing(old(machine).workers[i].attempt)
      ensures Attempted(job, i, x, old(progress), old(file), progress, file, ok)
      ensures cancelled && !old(cancelled) ==> Interrupted in x.events
    {
      if chunks[i].start + progress[i].downloaded > chunks[i].end {
        NothingLacks(job, i, x, progress, file);
        Move(Satisfied(i));
        return true;
      }
      ok := FetchRest(i, x);
    }

    /** The two ends of an attempt in downloadChunkWithRetry: recording success, or the error path. */
    method Settle(i: nat, attempt: nat, ok: bool) returns (again: bool)
      requires Valid() && Works(job, machine, i)
      requires machine.workers[i] == if ok then Fetched(attempt) else Failing(attempt)
      modifies this`progress, this`saved, this`savedStatus, this`machine, this`history
      ensures Valid() && machine == Apply(job, old(machine), Step.Settle(i))
      ensures OnlyWorker(job, old(machine), machine, i)
      ensures again <==> !ok && !cancelled && attempt < retries
      ensures machine.workers[i] == if again then Waiting(attempt) else Done
      ensures ok ==> progress[i].status == Completed
      ensures !ok && !cancelled && attempt >= retries ==> progress[i].status == Failed
      ensures progress[i].downloaded == old(progress)[i].downloaded
    {
      if ok {
        Succeed(i, attempt);
        again := false;
      } else {
        again := TakeError(i, attempt);
      }
    }

    method Succeed(i: nat, attempt: nat)
      requires Valid() && Works(job, machine, i) && machine.workers[i] == Fetched(attempt)
      modifies this`progress, this`saved, this`savedStatus, this`machine, this`history
      ensures Valid() && machine == Apply(job, old(machine), Step.Settle(i))
      ensures OnlyWorker(job, old(machine), machine, i)
      ensures machine.workers[i] == Done && progress[i] == old(progress)[i].(status := Completed)
    {
      SettleFields(job, machine, i, Apply(job, machine, Step.Settle(i)));
      Record(i, Completed);
      Move(Step.Settle(i));
    }

    method TakeError(i: nat, attempt: nat) returns (again: bool)
      requires Valid() && Works(job, machine, i) && machine.workers[i] == Failing(attempt)
      modifies this`progress, this`saved, this`savedStatus, this`machine, this`history
      ensures Valid() && machine == Apply(job, old(machine), Step.Settle(i))
      ensures OnlyWorker(job, old(machine), machine, i)
      ensures again <==> !cancelled && attempt < retries
      ensures machine.workers[i] == if again then Waiting(attempt) else Done
      ensures !cancelled && attempt >= retries ==> progress[i].status == Failed
      ensures progress[i].downloaded == old(progress)[i].downloaded
    {
      again := !cancelled && attempt < retries;
      SettleFields(job, machine, i, Apply(job, machine, Step.Settle(i)));
      if !cancelled { Record(i, if again then Retrying else Failed); }
      Move(Step.Settle(i));
    }

    /** A status under the lock, then the callback. */
    method Record(i: nat, status: Status)
      requires i < |progress| == |saved| == |savedStatus|
      modifies this`progress, this`saved, this`savedStatus
      ensures progress == old(progress)[i := old(progress)[i].(status := status)]
      ensures saved == old(saved)[i := old(progress)[i].downloaded]
      ensures savedStatus == old(savedStatus)[i := status]
    {
      progress := progress[i := progress[i].(status := status)];
      Emit(i);
    }

    /** emitProgress through the callback that writes the chunk's row. */
    method Emit(i: nat)
      requires i < |progress| == |saved| == |savedStatus|
      modifies this`saved, this`savedStatus
      ensures saved == old(saved)[i := progress[i].downloaded]
      ensures savedStatus == old(savedStatus)[i := progress[i].status]
    {
      saved := saved[i := progress[i].downloaded];
      savedStatus := savedStatus[i := progress[i].status];
    }

    /** One turn of the retry loop; `again` says the loop goes round once more. */
    method Attempt(i: nat, attempt: nat, x: Exchange) returns (again: bool)
      requires Valid() && Works(job, machine, i) && machine.workers[i] == Ready(attempt) && attempt <= retries
      requires HonestExchange(job, x, machine.now)
      modifies this`file, this`progress, this`cancelled, this`saved, this`savedStatus, this`machine, this`history
      ensures Valid() && OnlyWorker(job, old(machine), machine, i)
      ensures machine.workers[i] == if again then Waiting(attempt) else Done
      ensures !cancelled ==> Tried(job, chunks[i], attempt, x, old(progress)[i].downloaded, progress[i], again)
      ensures again ==> !cancelled
      ensures cancelled && !old(cancelled) ==> Interrupted in x.events
    {
      if cancelled {
        Move(Quit(i));
        return false;
      }
      ghost var before := machine;
      var ok := DownloadChunk(i, x);
      ghost var mid := machine;
      again := Settle(i, attempt, ok);
      OnlyWorkerTrans(job, before, mid, machine, i);
    }

    /** The wait between attempts: cut short by cancellation, otherwise the next attempt is due. */
    method Backoff(i: nat, attempt: nat) returns (resume: bool)
      requires Valid() && Works(job, machine, i) && machine.workers[i] == Waiting(attempt)
      modifies this`machine, this`history
      ensures Valid() && OnlyWorker(job, old(machine), machine, i)
      ensures machine.workers[i] == if resume then Ready(attempt + 1) else Done
      ensures resume <==> !cancelled
    {
      resume := !cancelled;
      if resume {
        Move(Wake(i));
      } else {
        Move(Quit(i));
      }
    }

    /** While nobody looks, the server moves on to a later version. */
    ghost method ServerMovesOn(version: nat, i: nat)
      requires Valid() && machine.now <= version && Works(job, machine, i)
      modifies this`machine, this`history
      ensures Valid() && machine == old(machine).(now := version)
    {
      while machine.now < version
        invariant Valid() && machine.now <= version && machine == old(machine).(now := machine.now)
        decreases version - machine.now
      {
        Move(Advance);
      }
    }

    /** downloadChunkWithRetry: worker i from spawn to its end, over as many exchanges as it gets. The server may be at
        a later version in each of them. */
    method DownloadChunkWithRetry(i: nat, script: seq<Exchange>, ghost versions: seq<nat>)
      requires Valid() && Works(job, machine, i) && machine.workers[i] == Ready(0)
      requires Served(job, script, versions, machine.now)
      modifies this`file, this`progress, this`cancelled, this`saved, this`savedStatus, this`machine, this`history
      ensures Valid() && OnlyWorker(job, old(machine).(now := machine.now), machine, i) && machine.workers[i] == Done
      ensures machine.now == old(machine).now || machine.now in versions
      ensures !cancelled ==> progress[i] == Ending(job, chunks[i], old(progress)[i].downloaded, script, retries + 1)
      ensures cancelled && !old(cancelled) ==> Interrupts(script)
    {
      ghost var before, credit := machine, progress[i].downloaded;
      var attempt := 0;
      var resume := true;
      OpensNow(job, chunks[i], credit, script);
      while resume
        invariant Valid() && Works(job, machine, i) && OnlyWorker(job, before.(now := machine.now), machine, i)
        invariant machine.now == before.now || machine.now in versions
        invariant cancelled && !old(cancelled) ==> Interrupts(script)
        invariant resume ==> Going(i, script, credit, attempt) && NotAhead(versions, attempt, machine.now)
        invariant !resume ==>
                    && machine.workers[i] == Done
                    && (!cancelled ==> progress[i] == Ending(job, chunks[i], credit, script, retries + 1))
        decreases resume, retries - attempt
      {
        ghost var mid := machine;
        resume := TryNext(i, attempt, script, versions, credit);
        OnlyWorkerLater(job, before, mid, machine, i);
        attempt := attempt + 1;
      }
    }

    /** The worker is about to make this attempt, and what the script comes to is still what it comes to from here. */
    ghost predicate Going(i: nat, script: seq<Exchange>, credit: int, attempt: nat)
      reads this
    {
      && i < |chunks| == |progress| == |machine.workers| && attempt <= retries && machine.workers[i] == Ready(attempt)
      && StillOpen(job, chunks[i], credit, script, attempt, progress[i].downloaded)
    }

    /** One turn of the loop, with what it says of the worker as a whole. */
    method TryNext(i: nat, attempt: nat, script: seq<Exchange>, ghost versions: seq<nat>, ghost credit: int)
      returns (resume: bool)
      requires Valid() && Works(job, machine, i) && Going(i, script, credit, attempt)
      requires |versions| == |script| && NotAhead(versions, attempt, machine.now) && Rising(versions)
      requires forall k :: 0 <= k < |script| ==> HonestExchange(job, script[k], versions[k])
      modifies this`file, this`progress, this`cancelled, this`saved, this`savedStatus, this`machine, this`history
      ensures Valid() && OnlyWorker(job, old(machine).(now := machine.now), machine, i) && Works(job, machine, i)
      ensures machine.now == old(machine).now || machine.now in versions
      ensures NotAhead(versions, attempt + 1, machine.now)
      ensures resume ==> attempt < retries && Going(i, script, credit, attempt + 1)
      ensures !resume ==>
                && machine.workers[i] == Done
                && (!cancelled ==> progress[i] == Ending(job, chunks[i], credit, script, retries + 1))
      ensures cancelled && !old(cancelled) ==> Interrupts(script)
    {
      ghost var now := progress[i].downloaded;
      resume := TryOnce(i, attempt, script, versions);
      if !cancelled { AfterTry(job, chunks[i], credit, script, attempt, now, progress[i], resume); }
    }

    /** One turn of its loop, against the next exchange of the script. */
    method TryOnce(i: nat, attempt: nat, script: seq<Exchange>, ghost versions: seq<nat>) returns (resume: bool)
      requires Valid() && Works(job, machine, i) && machine.workers[i] == Ready(attempt) && attempt <= retries
      requires |versions| == |script| && NotAhead(versions, attempt, machine.now) && Rising(versions)
      requires forall k :: 0 <= k < |script| ==> HonestExchange(job, script[k], versions[k])
      modifies this`file, this`progress, this`cancelled, this`saved, this`savedStatus, this`machine, this`history
      ensures Valid() && OnlyWorker(job, old(machine).(now := machine.now), machine, i) && Works(job, machine, i)
      ensures machine.now == old(machine).now || machine.now in versions
      ensures NotAhead(versions, attempt + 1, machine.now)
      ensures machine.workers[i] == if resume then Ready(attempt + 1) else Done
      ensures !cancelled ==>
                Tried(job, chunks[i], attempt, At(script, attempt), old(progress)[i].downloaded, progress[i], resume)
      ensures resume ==> attempt < retries && !cancelled
      ensures cancelled && !old(cancelled) ==> Interrupts(script)
    {
      var x := if attempt < |script| then script[attempt] else NOBODY;
      ServerMovesOn(if attempt < |script| then versions[attempt] else machine.now, i);
      resume := Round(i, attempt, x);
    }

    /** One attempt and the wait after it. */
    method Round(i: nat, attempt: nat, x: Exchange) returns (resume: bool)
      requires Valid() && Works(job, machine, i) && machine.workers[i] == Ready(attempt) && attempt <= retries
      requires HonestExchange(job, x, machine.now)
      modifies this`file, this`progress, this`cancelled, this`saved, this`savedStatus, this`machine, this`history
      ensures Valid() && OnlyWorker(job, old(machine), machine, i) && Works(job, machine, i)
      ensures machine.workers[i] == if resume then Ready(attempt + 1) else Done
      ensures !cancelled ==> Tried(job, chunks[i], attempt, x, old(progress)[i].downloaded, progress[i], resume)
      ensures resume ==> attempt < retries && !cancelled
      ensures cancelled && !old(cancelled) ==> Interrupted in x.events
    {
      ghost var before := machine;
      var again := Attempt(i, attempt, x);
      if !again {
        return false;
      }
      ghost var mid := machine;
      resume := Backoff(i, attempt);
      OnlyWorkerTrans(job, before, mid, machine, i);
    }

    // -------------------------------------------------------------- Start

    /** Worker i has run to its end, and the others stand where they stood. */
    method RunWorker(i: nat, script: seq<Exchange>, ghost versions: seq<nat>)
      requires Valid() && Works(job, machine, i) && machine.workers[i].Unspawned?
      requires Served(job, script, versions, machine.now)
      modifies this`file, this`progress, this`cancelled, this`saved, this`savedStatus, this`machine, this`history
      ensures Valid() && OnlyWorker(job, old(machine).(now := machine.now), machine, i) && machine.workers[i] == Done
      ensures machine.now == old(machine).now || machine.now in versions
      ensures !cancelled ==> progress[i] == Ending(job, chunks[i], old(progress)[i].downloaded, script, retries + 1)
      ensures cancelled && !old(cancelled) ==> Interrupts(script)
    {
      ghost var before := machine;
      Move(Spawn(i));
      ghost var mid := machine;
      assert forall j :: 0 <= j < |chunks| && j != i ==> Unmoved(before.(now := mid.now), mid, j);
      DownloadChunkWithRetry(i, script, versions);
      OnlyWorkerLater(job, before, mid, machine, i);
    }

    /** The spawn loop, with one worker at a time: it stops early when the download is cancelled. */
    method RunWorkers(scripts: seq<seq<Exchange>>, ghost versions: seq<seq<nat>>)
      requires Valid() && machine.phase == Running && AllServed(job, scripts, versions, machine.now) && !cancelled
      requires forall j :: 0 <= j < |chunks| ==> machine.workers[j].Unspawned?
      modifies this`file, this`progress, this`cancelled, this`saved, this`savedStatus, this`machine, this`history
      ensures Valid() && Enabled(job, machine, StartFlush)
      ensures !cancelled ==> Spawned(job, |chunks|, scripts, old(progress), machine)
      ensures cancelled ==> !Undisturbed(scripts)
    {
      ghost var table := progress;
      var i := 0;
      while i < |chunks| && !cancelled
        invariant 0 <= i <= |chunks| && Valid() && machine.phase == Running
        invariant Spawned(job, i, scripts, table, machine)
        invariant forall j :: i <= j < |chunks| ==> NotAhead(versions[j], 0, machine.now)
        invariant cancelled ==> !Undisturbed(scripts)
      {
        ghost var before := machine;
        RunWorker(i, scripts[i], versions[i]);
        OneMoreSpawned(job, i, scripts, table, before, machine);
        i := i + 1;
      }
      AllQuiet(job, i, scripts, table, machine);
    }

    method BeginAndRun(scripts: seq<seq<Exchange>>, ghost versions: seq<seq<nat>>)
      requires Valid() && machine.phase == Idle && machine.pending == []
      requires AllServed(job, scripts, versions, machine.now)
      modifies this
      ensures Valid() && Enabled(job, machine, StartFlush)
      ensures !cancelled ==> RanFrom(job, scripts, old(saved), |old(file)|, progress)
      ensures !cancelled ==> (AllCompleted(progress) <==> Fetchable(job, scripts, old(saved), |old(file)|))
      ensures Undisturbed(scripts) ==> !cancelled
    {
      ghost var rows, held := saved, |file|;
      SavedFits(job, machine, history);
      Begin();
      ghost var table := progress;
      RunWorkers(scripts, versions);
      if !cancelled { AllRun(job, scripts, rows, held, table, machine); }
    }

    /** Start for a download of known size: reconcile, fetch, flush, verify. Whatever the servers and the network did,
        and whatever earlier runs left, success means the remote bytes; and unless it is cancelled or a file operation
        fails, it succeeds exactly when every chunk's exchanges fetch what reconciliation finds lacking. */
    method Start(scripts: seq<seq<Exchange>>, ghost versions: seq<seq<nat>>, ioOk: bool) returns (ok: bool)
      requires Valid() && machine.phase == Idle && machine.pending == []
      requires AllServed(job, scripts, versions, machine.now)
      modifies this
      ensures Valid() && machine.phase == Idle && (ok <==> machine.outcome == Success)
      ensures ok <==> ioOk && !cancelled && Fetchable(job, scripts, old(saved), |old(file)|)
      ensures !cancelled ==> RanFrom(job, scripts, old(saved), |old(file)|, progress)
      ensures Undisturbed(scripts) ==> !cancelled
      ensures ioOk && Undisturbed(scripts) && AllServing(job, scripts) && totalSize <= MAX_INT64 ==> ok
      ensures saved == Credits(progress)
      ensures ok && Fixed(job) && |job.content(0)| == totalSize ==> file == job.content(0)
    {
      SavedFits(job, machine, history);
      if AllServing(job, scripts) && totalSize <= MAX_INT64 { ServingIsFetchable(job, scripts, saved, |file|); }
      BeginAndRun(scripts, versions);
      ok := Finish(ioOk);
    }
  }
}
