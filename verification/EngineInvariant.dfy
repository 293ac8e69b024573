/** What every step of the download engine keeps. */
module EngineInvariant {
  import opened Basics
  import opened Chunking
  import opened Engine

  /** The representation never changes. */
  ghost predicate Fixed(job: Job) {
    forall v: nat :: job.content(v) == job.content(0)
  }

  /** The stored validator is worth sending: it is there, and it matches only the version it was taken from.
      That is what "the representation never reverts" and a strong or dated validator amount to. */
  ghost predicate Usable(job: Job) {
    Validator(job) != "" && forall v: nat :: job.holds(Validator(job), v) ==> v == 0
  }

  /** A download HandleAdd could have created, on a server whose answers can be told apart. */
  ghost predicate Sound(job: Job) {
    && job.total > 0
    && Partition(job.chunks, job.total)
    && (Fixed(job) || Usable(job))
  }

  /** Of the offsets [lo, hi), those the file has hold the bytes of `content`. */
  ghost predicate Held(content: seq<Byte>, file: seq<Byte>, lo: int, hi: int) {
    forall k :: lo <= k < hi ==> Same(content, file, k)
  }

  predicate Same(content: seq<Byte>, file: seq<Byte>, k: int) {
    0 <= k < |file| ==> k < |content| && file[k] == content[k]
  }

  /** The readable part of a response body agrees with `content` from offset `first` on, up to `end`. */
  ghost predicate Genuine(content: seq<Byte>, body: seq<Byte>, first: int, end: int) {
    forall k :: 0 <= k < |body| && 0 <= first + k <= end ==> Agrees(content, body, first, k)
  }

  predicate Agrees(content: seq<Byte>, body: seq<Byte>, first: int, k: int)
    requires 0 <= k < |body| && 0 <= first + k
  {
    first + k < |content| && body[k] == content[first + k]
  }

  /** Chunk i's bytes are those of the version it was fetched from, for its first `size` bytes. */
  ghost predicate Backed(job: Job, s: State, i: nat, size: int)
    requires Shaped(job, s) && i < |job.chunks|
  {
    Held(job.content(s.origin[i]), s.disk, job.chunks[i].start, job.chunks[i].start + size)
  }

  ghost predicate WorkerOk(job: Job, s: State, i: nat)
    requires Shaped(job, s) && i < |job.chunks|
  {
    var c, w := job.chunks[i], s.workers[i];
    match w
    case Streaming(_, r, first, written) =>
      && c.start <= first <= written == c.start + s.frontier[i]
      && s.frontier[i] == s.progress[i].downloaded
      && written - first <= |r.body|
      && Genuine(job.content(s.origin[i]), r.body, first, c.end)
    case Storing(_, r, first, written, n) =>
      && c.start <= first <= written == c.start + s.progress[i].downloaded
      && 0 < n && s.frontier[i] == s.progress[i].downloaded + n
      && written - first + n <= |r.body|
      && Genuine(job.content(s.origin[i]), r.body, first, c.end)
    case Fetched(_) => s.frontier[i] == s.progress[i].downloaded == c.Length()
    case _ => s.frontier[i] == s.progress[i].downloaded
  }

  /** Chunk i between runs: whatever the database claims or the last Downloader credited is backed by the file,
      as far as the file still reaches. */
  ghost predicate IdleOk(job: Job, s: State, i: nat)
    requires Shaped(job, s) && i < |job.chunks|
  {
    && |s.disk| <= job.total
    && Backed(job, s, i, s.saved[i])
    && Backed(job, s, i, s.progress[i].downloaded)
  }

  /** Chunk i during a run: everything up to its frontier is on disk and genuine. */
  ghost predicate BusyOk(job: Job, s: State, i: nat)
    requires Shaped(job, s) && i < |job.chunks|
  {
    && |s.disk| == job.total
    && 0 <= s.base[i] <= s.frontier[i] <= job.chunks[i].Length()
    && Backed(job, s, i, s.frontier[i])
    && WorkerOk(job, s, i)
    && (s.phase.Flushing? ==> Quiet(s.workers[i], s.cancelled))
    && (s.phase.Flushing? && i < s.phase.next ==> s.saved[i] <= s.progress[i].downloaded)
    && (!s.lowered ==> s.saved[i] <= s.progress[i].downloaded)
  }

  ghost predicate ChunkOk(job: Job, s: State, i: nat)
    requires Shaped(job, s) && i < |job.chunks|
  {
    && 0 <= s.progress[i].downloaded <= job.chunks[i].Length()
    && 0 <= s.saved[i] <= job.chunks[i].Length()
    && s.origin[i] <= s.now
    && (s.progress[i].status == Completed ==> s.progress[i].downloaded == job.chunks[i].Length())
    && (if s.phase == Idle then IdleOk(job, s, i) else BusyOk(job, s, i))
  }

  ghost predicate PendingOk(job: Job, s: State)
    requires Shaped(job, s)
  {
    forall k :: 0 <= k < |s.pending| ==>
      0 <= s.pending[k].downloaded <= s.progress[s.pending[k].chunk].downloaded
  }

  ghost predicate Inv(job: Job, s: State) {
    && Shaped(job, s)
    && PendingOk(job, s)
    && forall i :: 0 <= i < |job.chunks| ==> ChunkOk(job, s, i)
  }

  /** No size on record exceeds what the running Downloader credits. */
  predicate NoOverclaim(s: State)
    requires |s.saved| == |s.progress|
  {
    forall i :: 0 <= i < |s.saved| ==> s.saved[i] <= s.progress[i].downloaded
  }

  /** The process is not killed while the database still claims bytes that reconciliation has taken back. */
  predicate Spared(s: State, step: Step)
    requires |s.saved| == |s.progress|
  {
    step.Kill? && s.phase != Idle ==> NoOverclaim(s)
  }

  // ---------------------------------------------------------------- one chunk at a time

  lemma HeldCarries(content: seq<Byte>, file: seq<Byte>, file': seq<Byte>, lo: int, hi: int, hi': int)
    requires Held(content, file, lo, hi) && hi' <= hi
    requires forall k :: lo <= k < hi' && 0 <= k < |file'| ==> k < |file| && file'[k] == file[k]
    ensures Held(content, file', lo, hi')
  {
    forall k | lo <= k < hi' ensures Same(content, file', k) {
      assert Same(content, file, k);
      if 0 <= k < |file'| {
        var byte := file'[k];
        assert k < |file| && byte == file[k];
      }
    }
  }

  /** A chunk nobody touched: same version, same numbers, same bytes in its range. */
  lemma Untouched(job: Job, s: State, t: State, i: nat)
    requires Shaped(job, s) && Shaped(job, t) && i < |job.chunks| && ChunkOk(job, s, i)
    requires s.phase == t.phase && s.now <= t.now && s.cancelled == t.cancelled && s.lowered == t.lowered
    requires s.progress[i] == t.progress[i] && s.saved[i] == t.saved[i] && s.origin[i] == t.origin[i]
    requires s.base[i] == t.base[i] && s.frontier[i] == t.frontier[i] && s.workers[i] == t.workers[i]
    requires |s.disk| == |t.disk|
    requires forall k :: job.chunks[i].start <= k <= job.chunks[i].end && 0 <= k < |t.disk| ==> t.disk[k] == s.disk[k]
    ensures ChunkOk(job, t, i)
  {
    var lo, content := job.chunks[i].start, job.content(s.origin[i]);
    if s.phase == Idle {
      HeldCarries(content, s.disk, t.disk, lo, lo + s.saved[i], lo + s.saved[i]);
      HeldCarries(content, s.disk, t.disk, lo, lo + s.progress[i].downloaded, lo + s.progress[i].downloaded);
    } else {
      HeldCarries(content, s.disk, t.disk, lo, lo + s.frontier[i], lo + s.frontier[i]);
    }
  }

  /** The error path leaves the bytes alone; it records at most what is credited. */
  lemma AfterErrorOk(job: Job, s: State, i: nat, attempt: nat)
    requires Sound(job) && Inv(job, s) && Works(job, s, i) && s.frontier[i] == s.progress[i].downloaded
    ensures Inv(job, AfterError(job, s, i, attempt))
  {
    var t := AfterError(job, s, i, attempt);
    forall j | 0 <= j < |job.chunks| ensures ChunkOk(job, t, j) {
      if j != i { Untouched(job, s, t, j); }
      else { assert ChunkOk(job, s, i); }
    }
  }

  lemma FinishedOk(job: Job, s: State, i: nat)
    requires Sound(job) && Inv(job, s) && Works(job, s, i)
    requires s.frontier[i] == s.progress[i].downloaded == job.chunks[i].Length()
    ensures Inv(job, Finished(job, s, i))
  {
    var t := Finished(job, s, i);
    forall j | 0 <= j < |job.chunks| ensures ChunkOk(job, t, j) {
      if j != i { Untouched(job, s, t, j); }
      else { assert ChunkOk(job, s, i); }
    }
  }

  /** Moving worker i to a point of its loops that holds no response. */
  lemma MovedOk(job: Job, s: State, i: nat, w: Worker)
    requires Inv(job, s) && Works(job, s, i) && s.frontier[i] == s.progress[i].downloaded
    requires !w.Streaming? && !w.Storing?
    requires w.Fetched? ==> s.progress[i].downloaded == job.chunks[i].Length()
    ensures Inv(job, s.(workers := s.workers[i := w]))
  {
    var t := s.(workers := s.workers[i := w]);
    forall j | 0 <= j < |job.chunks| ensures ChunkOk(job, t, j) {
      if j != i { Untouched(job, s, t, j); }
      else { assert ChunkOk(job, s, i); }
    }
  }

  /** A response that passes the checks agrees with the version being served. */
  lemma AcceptedIsServed(job: Job, c: Chunk, first: int, ifRange: string, r: Response, v: nat)
    requires 0 <= first <= c.end < job.total && Accepts(job, c, first, r) && Honest(job, ifRange, r, v)
    ensures Genuine(job.content(v), r.body, first, c.end)
  {
    var content, body := job.content(v), r.body;
    forall k | 0 <= k < |body| && 0 <= first + k <= c.end ensures Agrees(content, body, first, k) {
      if r.code == 206 {
        assert first + k < job.total == |content|;
        assert body[k] == content[first + k];
      } else {
        assert body == content[..|body|];
      }
    }
  }

  /** A server that honoured If-Range with a usable validator can only be at version 0, as the chunk then is. */
  lemma ResumeStaysOnVersion(job: Job, c: Chunk, first: int, r: Response, now: nat, origin: nat)
    requires Fixed(job) || Usable(job)
    requires 0 < first && origin <= now && Accepts(job, c, first, r) && Honest(job, Validator(job), r, now)
    ensures job.content(now) == job.content(origin)
  {
    assert r.code == 206;
    if !Fixed(job) { assert now == 0; }
  }

  /** An accepted response is genuine for the version the chunk belongs to: a chunk with no credit adopts the
      version being served; one with credit was asked for with If-Range and stays on its version. */
  lemma AcceptedIsGenuine(job: Job, s: State, i: nat, r: Response)
    requires Sound(job) && Inv(job, s) && Enabled(job, s, Accepted(i, r))
    ensures var v := if s.progress[i].downloaded == 0 then s.now else s.origin[i];
            Genuine(job.content(v), r.body, First(job, s, i), job.chunks[i].end)
  {
    assert ChunkOk(job, s, i);
    PartitionBounds(job.chunks, job.total, i);
    AcceptedIsServed(job, job.chunks[i], First(job, s, i), IfRange(job, s.progress[i].downloaded), r, s.now);
    if s.progress[i].downloaded > 0 {
      ResumeStaysOnVersion(job, job.chunks[i], First(job, s, i), r, s.now, s.origin[i]);
    }
  }

  lemma AcceptedOk(job: Job, s: State, i: nat, r: Response)
    requires Sound(job) && Inv(job, s) && Enabled(job, s, Accepted(i, r))
    ensures Inv(job, Apply(job, s, Accepted(i, r)))
  {
    var t := Apply(job, s, Accepted(i, r));
    AcceptedIsGenuine(job, s, i, r);
    forall j | 0 <= j < |job.chunks| ensures ChunkOk(job, t, j) {
      if j != i { Untouched(job, s, t, j); }
      else { assert ChunkOk(job, s, i); }
    }
  }

  /** Bytes written at chunk i's frontier stay inside chunk i. */
  lemma WriteStaysInside(job: Job, s: State, i: nat, data: seq<Byte>, j: nat)
    requires Sound(job) && Inv(job, s) && s.phase != Idle && i < |job.chunks| && j < |job.chunks| && i != j
    requires s.frontier[i] + |data| <= job.chunks[i].Length()
    ensures 0 <= job.chunks[i].start + s.frontier[i]
    ensures var disk := WriteAt(s.disk, job.chunks[i].start + s.frontier[i], data);
            && |disk| == |s.disk|
            && forall k :: job.chunks[j].start <= k <= job.chunks[j].end && 0 <= k < |disk| ==> disk[k] == s.disk[k]
  {
    assert ChunkOk(job, s, i);
    PartitionBounds(job.chunks, job.total, i);
    if i < j { PartitionOrdered(job.chunks, job.total, i, j); }
    else { PartitionOrdered(job.chunks, job.total, j, i); }
  }

  lemma PutOwnOk(job: Job, s: State, i: nat, n: int)
    requires Sound(job) && Inv(job, s) && Enabled(job, s, Put(i, n))
    ensures ChunkOk(job, Apply(job, s, Put(i, n)), i)
  {
    var t := Apply(job, s, Put(i, n));
    var c, w, content := job.chunks[i], s.workers[i], job.content(s.origin[i]);
    assert ChunkOk(job, s, i);
    PartitionBounds(job.chunks, job.total, i);
    var data := ReadBytes(w, n);
    forall k | c.start <= k < c.start + t.frontier[i] ensures Same(content, t.disk, k) {
      if k >= w.written {
        assert Agrees(content, w.response.body, w.first, k - w.first);
        assert t.disk[k] == data[k - w.written] == w.response.body[k - w.first];
      } else {
        assert Same(content, s.disk, k);
      }
    }
    assert Backed(job, t, i, t.frontier[i]);
  }

  lemma PutOk(job: Job, s: State, i: nat, n: int)
    requires Sound(job) && Inv(job, s) && Enabled(job, s, Put(i, n))
    ensures Inv(job, Apply(job, s, Put(i, n)))
  {
    var t := Apply(job, s, Put(i, n));
    assert ChunkOk(job, s, i);
    PartitionBounds(job.chunks, job.total, i);
    PutOwnOk(job, s, i, n);
    forall j | 0 <= j < |job.chunks| && j != i ensures ChunkOk(job, t, j) {
      WriteStaysInside(job, s, i, ReadBytes(s.workers[i], n), j);
      Untouched(job, s, t, j);
    }
  }

  lemma PutFailsOk(job: Job, s: State, i: nat, n: int)
    requires Sound(job) && Inv(job, s) && Enabled(job, s, PutFails(i, n))
    ensures Inv(job, Apply(job, s, PutFails(i, n)))
  {
    var c, w := job.chunks[i], s.workers[i];
    assert ChunkOk(job, s, i);
    PartitionBounds(job.chunks, job.total, i);
    var data := ReadBytes(w, n);
    var t := Apply(job, s, PutFails(i, n));
    forall j | 0 <= j < |job.chunks| ensures ChunkOk(job, t, j) {
      if j != i {
        WriteStaysInside(job, s, i, data, j);
        Untouched(job, s, t, j);
      } else {
        HeldCarries(job.content(s.origin[i]), s.disk, t.disk, c.start, w.written, w.written);
      }
    }
  }

  lemma CreditOk(job: Job, s: State, i: nat)
    requires Sound(job) && Inv(job, s) && Enabled(job, s, Credit(i))
    ensures Inv(job, Apply(job, s, Credit(i)))
  {
    var t := Apply(job, s, Credit(i));
    assert ChunkOk(job, s, i);
    forall j | 0 <= j < |job.chunks| ensures ChunkOk(job, t, j) {
      if j != i { Untouched(job, s, t, j); }
    }
  }

  // ---------------------------------------------------------------- the run as a whole

  lemma BeginOk(job: Job, s: State)
    requires Sound(job) && Inv(job, s) && Enabled(job, s, Begin)
    ensures Inv(job, Apply(job, s, Begin))
  {
    var t := Apply(job, s, Begin);
    forall i | 0 <= i < |job.chunks| ensures ChunkOk(job, t, i) {
      assert ChunkOk(job, s, i);
      PartitionBounds(job.chunks, job.total, i);
      assert t.progress[i] == ReconcileOne(job.chunks[i], Load(job.chunks, s.saved)[i], |s.disk|);
      assert t.base[i] == t.frontier[i] == t.progress[i].downloaded;
      var lo := job.chunks[i].start;
      HeldCarries(job.content(s.origin[i]), s.disk, t.disk, lo, lo + s.saved[i], lo + t.frontier[i]);
      if !t.lowered { assert s.saved[i] == Credits(t.progress)[i]; }
    }
  }

  lemma LandOk(job: Job, s: State, k: nat)
    requires Sound(job) && Inv(job, s) && Enabled(job, s, Land(k))
    ensures Inv(job, Apply(job, s, Land(k)))
  {
    var t := Apply(job, s, Land(k));
    var i := s.pending[k].chunk;
    forall j | 0 <= j < |job.chunks| ensures ChunkOk(job, t, j) {
      assert ChunkOk(job, s, j);
      if j != i { Untouched(job, s, t, j); }
    }
  }

  lemma FlushOneOk(job: Job, s: State)
    requires Sound(job) && Inv(job, s) && Enabled(job, s, FlushOne)
    ensures Inv(job, Apply(job, s, FlushOne))
  {
    var t := Apply(job, s, FlushOne);
    forall j | 0 <= j < |job.chunks| ensures ChunkOk(job, t, j) { assert ChunkOk(job, s, j); }
  }

  lemma PhaseOk(job: Job, s: State, step: Step)
    requires Sound(job) && Inv(job, s) && Enabled(job, s, step)
    requires step.StartFlush? || step.Return? || step.Cancel? || step.Advance?
    ensures Inv(job, Apply(job, s, step))
  {
    var t := Apply(job, s, step);
    forall j | 0 <= j < |job.chunks| ensures ChunkOk(job, t, j) { assert ChunkOk(job, s, j); }
  }

  lemma TickOk(job: Job, s: State)
    requires Sound(job) && Inv(job, s)
    ensures Inv(job, Apply(job, s, Tick))
  {
    var t := Apply(job, s, Tick);
    forall k | 0 <= k < |t.pending|
      ensures 0 <= t.pending[k].downloaded <= t.progress[t.pending[k].chunk].downloaded
    {
      if k < |s.pending| {
        assert t.pending[k] == s.pending[k];
      } else {
        assert t.pending[k] == Snapshots(s.progress)[k - |s.pending|];
        assert ChunkOk(job, s, t.pending[k].chunk);
      }
    }
    forall j | 0 <= j < |job.chunks| ensures ChunkOk(job, t, j) { assert ChunkOk(job, s, j); }
  }

  lemma FileCutOk(job: Job, s: State, step: Step)
    requires Sound(job) && Inv(job, s) && Enabled(job, s, step) && (step.Shrink? || step.Reset?)
    ensures Inv(job, Apply(job, s, step))
  {
    var t := Apply(job, s, step);
    forall i | 0 <= i < |job.chunks| ensures ChunkOk(job, t, i) {
      assert ChunkOk(job, s, i);
      var lo, content := job.chunks[i].start, job.content(s.origin[i]);
      HeldCarries(content, s.disk, t.disk, lo, lo + s.saved[i], lo + t.saved[i]);
      HeldCarries(content, s.disk, t.disk, lo, lo + s.progress[i].downloaded, lo + t.progress[i].downloaded);
    }
  }

  lemma KillOk(job: Job, s: State)
    requires Sound(job) && Inv(job, s) && Spared(s, Kill)
    ensures Inv(job, Apply(job, s, Kill))
  {
    var t := Apply(job, s, Kill);
    forall i | 0 <= i < |job.chunks| ensures ChunkOk(job, t, i) {
      assert ChunkOk(job, s, i);
      var lo := job.chunks[i].start;
      if s.phase != Idle {
        HeldCarries(job.content(s.origin[i]), s.disk, t.disk, lo, lo + s.frontier[i], lo + s.saved[i]);
      }
    }
  }

  predicate ByWorker(step: Step) {
    || step.Spawn? || step.Satisfied? || step.Refused? || step.Break?
    || step.Complete? || step.Settle? || step.Quit? || step.Wake?
  }

  lemma WorkerStepKeeps(job: Job, s: State, step: Step)
    requires Sound(job) && Inv(job, s) && Enabled(job, s, step) && ByWorker(step)
    ensures Inv(job, Apply(job, s, step))
  {
    assert ChunkOk(job, s, step.i);
    match step
    case Spawn(i) => MovedOk(job, s, i, Ready(0));
    case Satisfied(i) => MovedOk(job, s, i, Fetched(s.workers[i].attempt));
    case Refused(i, _) => MovedOk(job, s, i, Failing(s.workers[i].attempt));
    case Break(i) => MovedOk(job, s, i, Failing(s.workers[i].attempt));
    case Complete(i) => MovedOk(job, s, i, Fetched(s.workers[i].attempt));
    case Settle(i) =>
      if s.workers[i].Fetched? { FinishedOk(job, s, i); } else { AfterErrorOk(job, s, i, s.workers[i].attempt); }
    case Quit(i) => MovedOk(job, s, i, Done);
    case Wake(i) => MovedOk(job, s, i, Ready(s.workers[i].attempt + 1));
  }

  lemma StreamStepKeeps(job: Job, s: State, step: Step)
    requires Sound(job) && Inv(job, s) && Enabled(job, s, step)
    requires step.Accepted? || step.Put? || step.PutFails? || step.Credit?
    ensures Inv(job, Apply(job, s, step))
  {
    match step
    case Accepted(i, r) => AcceptedOk(job, s, i, r);
    case Put(i, n) => PutOk(job, s, i, n);
    case PutFails(i, n) => PutFailsOk(job, s, i, n);
    case Credit(i) => CreditOk(job, s, i);
  }

  lemma BetweenRunsKeep(job: Job, s: State, step: Step)
    requires Sound(job) && Inv(job, s) && Enabled(job, s, step) && Spared(s, step) && !ByWorker(step)
    requires !step.Accepted? && !step.Put? && !step.PutFails? && !step.Credit?
    requires !step.Begin? && !step.Tick? && !step.Land? && !step.FlushOne?
    ensures Inv(job, Apply(job, s, step))
  {
    if step.Shrink? || step.Reset? {
      FileCutOk(job, s, step);
    } else if step.Kill? {
      KillOk(job, s);
    } else {
      PhaseOk(job, s, step);
    }
  }

  lemma RecordStepKeeps(job: Job, s: State, step: Step)
    requires Sound(job) && Inv(job, s) && Enabled(job, s, step) && (step.Tick? || step.Land? || step.FlushOne?)
    ensures Inv(job, Apply(job, s, step))
  {
    match step
    case Tick => TickOk(job, s);
    case Land(k) => LandOk(job, s, k);
    case FlushOne => FlushOneOk(job, s);
  }

  lemma RunStepKeeps(job: Job, s: State, step: Step)
    requires Sound(job) && Inv(job, s) && Enabled(job, s, step) && Spared(s, step) && !ByWorker(step)
    requires !step.Accepted? && !step.Put? && !step.PutFails? && !step.Credit?
    ensures Inv(job, Apply(job, s, step))
  {
    if step.Begin? {
      BeginOk(job, s);
    } else if step.Tick? || step.Land? || step.FlushOne? {
      RecordStepKeeps(job, s, step);
    } else {
      BetweenRunsKeep(job, s, step);
    }
  }

  /** Every step of every worker, of the ticker, of the user and of the disk keeps the invariant. */
  lemma StepKeeps(job: Job, s: State, step: Step)
    requires Sound(job) && Inv(job, s) && Enabled(job, s, step) && Spared(s, step)
    ensures Inv(job, Apply(job, s, step))
  {
    if ByWorker(step) {
      WorkerStepKeeps(job, s, step);
    } else if step.Accepted? || step.Put? || step.PutFails? || step.Credit? {
      StreamStepKeeps(job, s, step);
    } else {
      RunStepKeeps(job, s, step);
    }
  }
}
