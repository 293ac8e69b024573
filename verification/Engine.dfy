/** The resumable multi-chunk download engine as a step system.

    One download of known size is followed over any number of runs. A state holds the part file, the progress
    the running Downloader keeps in memory, where each worker stands in its retry and read loops, the sizes the
    database has on record, and the speed-tick snapshots that have been taken but not yet written down. Every
    choice the outside world makes (responses, read sizes, errors, timing, cancellation, a truncated part file)
    is an argument of the step, so a run is a sequence of steps and every interleaving is one. */
module Engine {
  import opened Basics
  import opened Wrappers
  import opened Chunking
  import ContentRange

  const READ_BUF_SIZE: int := 32 * 1024

  datatype Status = Pending | Downloading | Retrying | Paused | Completed | Failed

  datatype Progress = Progress(downloaded: int, status: Status)

  /** What one range request brings back: the header fields that are checked, then the bytes the body delivers
      before it ends, in good order (`clean`) or by a read error. A contentLength below zero is "not declared". */
  datatype Response = Response(code: int, contentRange: string, contentLength: int, body: seq<Byte>, clean: bool)

  /** A download and its server. `content(v)` is the v-th representation of the resource, 0 the one seen when the
      download was created, and `holds(x, v)` says whether the If-Range validator x matches version v. */
  datatype Job = Job(
    chunks: seq<Chunk>,
    total: int,
    retries: nat,
    etag: string,
    modified: string,
    content: nat -> seq<Byte>,
    holds: (string, nat) -> bool)

  datatype Worker =
    | Unspawned
    | Ready(attempt: nat)
    | Streaming(attempt: nat, response: Response, first: int, written: int)
    | Storing(attempt: nat, response: Response, first: int, written: int, n: int)
    | Fetched(attempt: nat)
    | Failing(attempt: nat)
    | Waiting(attempt: nat)
    | Done

  datatype Phase = Idle | Running | Flushing(next: nat)

  datatype Outcome = Unfinished | Success | Failure

  datatype Snapshot = Snapshot(chunk: nat, downloaded: int)

  /** One WriteAt: the bytes [lo, hi) of the part file changed, and whether it succeeded. */
  datatype Write = Write(chunk: nat, lo: int, hi: int, ok: bool)

  /** `origin`, `base`, `frontier`, `writes` and `lowered` are bookkeeping for the theorems: the version a chunk's
      bytes were fetched from, what it was credited with after reconciliation, how far its bytes reach on disk,
      the writes of this run in order, failed ones included, and whether reconciliation took any credit away. */
  datatype State = State(
    phase: Phase,
    outcome: Outcome,
    cancelled: bool,
    disk: seq<Byte>,
    progress: seq<Progress>,
    workers: seq<Worker>,
    saved: seq<int>,
    pending: seq<Snapshot>,
    now: nat,
    origin: seq<nat>,
    base: seq<int>,
    frontier: seq<int>,
    writes: seq<Write>,
    lowered: bool)

  datatype Step =
    | Begin
    | Spawn(i: nat)
    | Satisfied(i: nat)
    | Refused(i: nat, answer: Option<Response>)
    | Accepted(i: nat, response: Response)
    | Put(i: nat, n: int)
    | PutFails(i: nat, n: int)
    | Credit(i: nat)
    | Break(i: nat)
    | Complete(i: nat)
    | Settle(i: nat)
    | Quit(i: nat)
    | Wake(i: nat)
    | Cancel
    | Tick
    | Land(k: nat)
    | StartFlush
    | FlushOne
    | Return(ioOk: bool)
    | Shrink(size: nat)
    | Reset
    | Advance
    | Kill

  // ---------------------------------------------------------------- files and arithmetic

  function Zeros(n: nat): seq<Byte> { seq(n, _ => 0) }

  /** ftruncate: cut, or extend with zero bytes. */
  function Resize(file: seq<Byte>, size: nat): (r: seq<Byte>)
    ensures |r| == size
    ensures forall k :: 0 <= k < size ==> r[k] == if k < |file| then file[k] else 0
  {
    if size <= |file| then file[..size] else file + Zeros(size - |file|)
  }

  /** pwrite: overwrite in place, growing the file when the write reaches past its end. */
  function WriteAt(file: seq<Byte>, offset: nat, data: seq<Byte>): (r: seq<Byte>)
    ensures |r| == if offset + |data| <= |file| then |file| else offset + |data|
    ensures forall k :: 0 <= k < |r| ==>
              r[k] == if offset <= k < offset + |data| then data[k - offset] else if k < |file| then file[k] else 0
  {
    if offset + |data| <= |file| then file[..offset] + data + file[offset + |data|..]
    else Resize(file, offset) + data
  }

  function Sum(xs: seq<int>): int {
    if xs == [] then 0 else Sum(xs[..|xs| - 1]) + xs[|xs| - 1]
  }

  function Credits(progress: seq<Progress>): seq<int> {
    seq(|progress|, i requires 0 <= i < |progress| => progress[i].downloaded)
  }

  // ---------------------------------------------------------------- what one run does to the progress table

  /** NewDownloader: progress as the database has it. */
  function Load(chunks: seq<Chunk>, saved: seq<int>): (r: seq<Progress>)
    requires |saved| == |chunks|
  {
    seq(|chunks|, i requires 0 <= i < |chunks| =>
      Progress(saved[i],
               if saved[i] >= chunks[i].Length() && chunks[i].Length() > 0 then Completed else Pending))
  }

  /** reconcileDiskProgress on one chunk: credit only bytes the part file has. */
  function ReconcileOne(c: Chunk, p: Progress, onDisk: int): Progress {
    var available := if onDisk - c.start < 0 then 0 else onDisk - c.start;
    if p.downloaded <= 0 || p.downloaded <= available then p
    else Progress(available, if p.status == Completed then Pending else p.status)
  }

  function Reconcile(chunks: seq<Chunk>, progress: seq<Progress>, onDisk: int): seq<Progress>
    requires |progress| == |chunks|
  {
    seq(|chunks|, i requires 0 <= i < |chunks| => ReconcileOne(chunks[i], progress[i], onDisk))
  }

  // ---------------------------------------------------------------- requests and responses

  /** The validator downloadChunk would send: a strong ETag, else Last-Modified, else nothing. */
  function Validator(job: Job): string {
    if job.etag == "" || "W/" <= job.etag then job.modified else job.etag
  }

  function IfRange(job: Job, downloaded: int): string {
    if downloaded > 0 then Validator(job) else ""
  }

  /** The response checks of downloadChunk, before any byte is read. */
  predicate Accepts(job: Job, c: Chunk, first: int, r: Response) {
    && (if r.code == 206 then
          var parsed := ContentRange.Parse(r.contentRange);
          parsed.Ok? && parsed.value == ContentRange.Range(first, c.end, job.total)
        else
          r.code == 200 && first == 0 && c.start == 0 && c.end == job.total - 1 && |job.chunks| == 1)
    && (r.contentLength < 0 || r.contentLength == c.end - first + 1)
  }

  /** A server that follows RFC 9110 while it is serving version v: a 206 carries bytes of the range it names and
      is sent only when the If-Range validator matches (sections 13.1.5, 14.2, 15.3.7); a 200 carries the whole
      representation. Both may be cut short; a 206 may run past its range; anything else may say anything. */
  ghost predicate Honest(job: Job, ifRange: string, r: Response, v: nat) {
    && (r.code == 206 ==>
          && (ifRange != "" ==> job.holds(ifRange, v))
          && var parsed := ContentRange.Parse(r.contentRange);
             parsed.Ok? ==>
               && parsed.value.total == |job.content(v)|
               && forall k :: 0 <= k < |r.body| && parsed.value.start + k <= parsed.value.end ==>
                    r.body[k] == job.content(v)[parsed.value.start + k])
    && (r.code == 200 ==>
          && r.body <= job.content(v)
          && (r.contentLength < 0 || r.contentLength == |job.content(v)|)
          && (r.clean ==> r.body == job.content(v)))
  }

  // ---------------------------------------------------------------- the step system

  predicate Shaped(job: Job, s: State) {
    var n := |job.chunks|;
    && |s.progress| == n && |s.workers| == n && |s.saved| == n
    && |s.origin| == n && |s.base| == n && |s.frontier| == n
    && (forall k :: 0 <= k < |s.pending| ==> s.pending[k].chunk < n)
    && (s.phase.Flushing? ==> s.phase.next <= n)
  }

  function First(job: Job, s: State, i: nat): int
    requires Shaped(job, s) && i < |job.chunks|
  {
    job.chunks[i].start + s.progress[i].downloaded
  }

  /** Worker i is in a run and stands at one of the given points of its loops. */
  predicate Works(job: Job, s: State, i: nat) {
    Shaped(job, s) && i < |job.chunks| && s.phase == Running
  }

  predicate Quiet(w: Worker, cancelled: bool) { w.Done? || (w.Unspawned? && cancelled) }

  ghost predicate Enabled(job: Job, s: State, step: Step) {
    Shaped(job, s) &&
    match step
    case Begin => s.phase == Idle && s.pending == []
    case Spawn(i) => Works(job, s, i) && s.workers[i].Unspawned?
    case Satisfied(i) => Works(job, s, i) && s.workers[i].Ready? && First(job, s, i) > job.chunks[i].end
    case Refused(i, answer) =>
      && Works(job, s, i) && s.workers[i].Ready? && First(job, s, i) <= job.chunks[i].end
      && (answer.None? || !Accepts(job, job.chunks[i], First(job, s, i), answer.value))
    case Accepted(i, r) =>
      && Works(job, s, i) && s.workers[i].Ready? && First(job, s, i) <= job.chunks[i].end
      && Accepts(job, job.chunks[i], First(job, s, i), r)
      && Honest(job, IfRange(job, s.progress[i].downloaded), r, s.now)
    case Put(i, n) =>
      && Works(job, s, i) && s.workers[i].Streaming? && 0 < n <= READ_BUF_SIZE
      && var w := s.workers[i];
         0 <= w.first <= w.written && w.written + n <= job.chunks[i].end + 1
         && w.written - w.first + n <= |w.response.body|
    case PutFails(i, n) =>
      && Works(job, s, i) && s.workers[i].Streaming? && 0 <= n <= READ_BUF_SIZE
      && var w := s.workers[i];
         0 <= w.first <= w.written && w.written + n <= job.chunks[i].end + 1
         && w.written - w.first + n <= |w.response.body|
    case Credit(i) => Works(job, s, i) && s.workers[i].Storing?
    case Break(i) => Works(job, s, i) && s.workers[i].Streaming?
    case Complete(i) =>
      && Works(job, s, i) && s.workers[i].Streaming?
      && s.workers[i].written == job.chunks[i].end + 1
      && s.workers[i].response.clean
      && |s.workers[i].response.body| == s.workers[i].written - s.workers[i].first
    case Settle(i) => Works(job, s, i) && (s.workers[i].Fetched? || s.workers[i].Failing?)
    case Quit(i) => Works(job, s, i) && s.cancelled && (s.workers[i].Ready? || s.workers[i].Waiting?)
    case Wake(i) => Works(job, s, i) && s.workers[i].Waiting?
    case Cancel => s.phase != Idle
    case Tick => true
    case Land(k) => k < |s.pending|
    case StartFlush => s.phase == Running && forall i :: 0 <= i < |s.workers| ==> Quiet(s.workers[i], s.cancelled)
    case FlushOne => s.phase.Flushing? && s.phase.next < |job.chunks|
    case Return(_) => s.phase.Flushing? && s.phase.next == |job.chunks|
    case Shrink(size) => s.phase == Idle && size <= |s.disk|
    case Reset => s.phase == Idle && s.pending == []
    case Advance => true
    case Kill => true
  }

  /** The error path of downloadChunkWithRetry after the given attempt. */
  function AfterError(job: Job, s: State, i: nat, attempt: nat): (t: State)
    requires Works(job, s, i)
    ensures Shaped(job, t)
  {
    if s.cancelled then s.(workers := s.workers[i := Done])
    else
      var again := attempt < job.retries;
      var p := s.progress[i].(status := if again then Retrying else Failed);
      s.(progress := s.progress[i := p],
         saved := s.saved[i := p.downloaded],
         workers := s.workers[i := if again then Waiting(attempt) else Done])
  }

  function Finished(job: Job, s: State, i: nat): (t: State)
    requires Works(job, s, i)
    ensures Shaped(job, t)
  {
    var p := s.progress[i].(status := Completed);
    s.(progress := s.progress[i := p], saved := s.saved[i := p.downloaded], workers := s.workers[i := Done])
  }

  /** The bytes a read of n returns at the worker's place in its response body. */
  function ReadBytes(w: Worker, n: int): seq<Byte>
    requires w.Streaming? && 0 <= w.written - w.first && 0 <= n
    requires w.written - w.first + n <= |w.response.body|
  {
    w.response.body[w.written - w.first..w.written - w.first + n]
  }

  /** trackSpeed's snapshot: the chunks that are downloading right now. */
  function Snapshots(progress: seq<Progress>): (r: seq<Snapshot>)
    ensures forall k :: 0 <= k < |r| ==>
              r[k].chunk < |progress| && r[k].downloaded == progress[r[k].chunk].downloaded
  {
    if progress == [] then []
    else
      var last := |progress| - 1;
      Snapshots(progress[..last]) +
      (if progress[last].status == Downloading then [Snapshot(last, progress[last].downloaded)] else [])
  }

  predicate AllCompleted(progress: seq<Progress>) {
    forall i :: 0 <= i < |progress| ==> progress[i].status == Completed
  }

  /** verifyOnDisk, for a download whose size is known. */
  predicate Verified(job: Job, s: State) {
    Sum(Credits(s.progress)) == job.total && |s.disk| == job.total
  }

  function Started(job: Job, s: State): (t: State)
    requires Shaped(job, s)
    ensures Shaped(job, t)
  {
    var n := |job.chunks|;
    var progress := Reconcile(job.chunks, Load(job.chunks, s.saved), |s.disk|);
    s.(phase := Running, outcome := Unfinished, cancelled := false,
       progress := progress,
       disk := Resize(s.disk, if job.total < 0 then 0 else job.total),
       workers := seq(n, _ => Unspawned),
       base := Credits(progress), frontier := Credits(progress), writes := [],
       lowered := Credits(progress) != s.saved)
  }

  /** WriteAt of n bytes of worker i's response, and where that leaves the worker. */
  function Written(job: Job, s: State, i: nat, n: int, ok: bool): (t: State)
    requires Works(job, s, i) && s.workers[i].Streaming? && 0 <= n
    requires 0 <= s.workers[i].first <= s.workers[i].written
    requires s.workers[i].written - s.workers[i].first + n <= |s.workers[i].response.body|
    ensures Shaped(job, t)
  {
    var w := s.workers[i];
    s.(disk := WriteAt(s.disk, w.written, ReadBytes(w, n)),
       workers := s.workers[i := if ok then Storing(w.attempt, w.response, w.first, w.written, n)
                                 else Failing(w.attempt)],
       frontier := if ok then s.frontier[i := s.frontier[i] + n] else s.frontier,
       writes := s.writes + [Write(i, w.written, w.written + n, ok)])
  }

  /** The body of an accepted answer is about to be read; a chunk with no credit adopts the version being served. */
  function Adopted(job: Job, s: State, i: nat, r: Response): (t: State)
    requires Works(job, s, i) && s.workers[i].Ready?
    ensures Shaped(job, t)
  {
    s.(workers := s.workers[i := Streaming(s.workers[i].attempt, r, First(job, s, i), First(job, s, i))],
       origin := if s.progress[i].downloaded == 0 then s.origin[i := s.now] else s.origin)
  }

  /** A snapshot reaches the database. */
  function Landing(job: Job, s: State, k: nat): (t: State)
    requires Shaped(job, s) && k < |s.pending|
    ensures Shaped(job, t)
  {
    s.(saved := s.saved[s.pending[k].chunk := s.pending[k].downloaded], pending := s.pending[..k] + s.pending[k + 1..])
  }

  /** The process is gone, and with it everything but the file and the database. */
  function Crashed(job: Job, s: State): (t: State)
    requires Shaped(job, s)
    ensures Shaped(job, t)
  {
    s.(phase := Idle, outcome := Unfinished, pending := [], cancelled := false,
       progress := Load(job.chunks, s.saved), workers := seq(|s.workers|, _ => Unspawned))
  }

  ghost function Apply(job: Job, s: State, step: Step): (t: State)
    requires Enabled(job, s, step)
    ensures Shaped(job, t)
  {
    match step
    case Begin => Started(job, s)
    case Spawn(i) => s.(workers := s.workers[i := Ready(0)])
    case Satisfied(i) => s.(workers := s.workers[i := Fetched(s.workers[i].attempt)])
    case Refused(i, _) => s.(workers := s.workers[i := Failing(s.workers[i].attempt)])
    case Accepted(i, r) => Adopted(job, s, i, r)
    case Put(i, n) => Written(job, s, i, n, true)
    case PutFails(i, n) => Written(job, s, i, n, false)
    case Credit(i) =>
      var w := s.workers[i];
      var written := w.written + w.n;
      s.(progress := s.progress[i := Progress(written - job.chunks[i].start, Downloading)],
         workers := s.workers[i := Streaming(w.attempt, w.response, w.first, written)])
    case Break(i) => s.(workers := s.workers[i := Failing(s.workers[i].attempt)])
    case Complete(i) => s.(workers := s.workers[i := Fetched(s.workers[i].attempt)])
    case Settle(i) =>
      if s.workers[i].Fetched? then Finished(job, s, i) else AfterError(job, s, i, s.workers[i].attempt)
    case Quit(i) => s.(workers := s.workers[i := Done])
    case Wake(i) =>
      s.(workers := s.workers[i := Ready(s.workers[i].attempt + 1)])
    case Cancel => s.(cancelled := true)
    case Tick => s.(pending := s.pending + Snapshots(s.progress))
    case Land(k) => Landing(job, s, k)
    case StartFlush => s.(phase := Flushing(0))
    case FlushOne =>
      var k := s.phase.next;
      s.(saved := s.saved[k := s.progress[k].downloaded], phase := Flushing(k + 1))
    case Return(ioOk) =>
      s.(phase := Idle,
         outcome := if !s.cancelled && AllCompleted(s.progress) && Verified(job, s) && ioOk then Success else Failure)
    case Shrink(size) => s.(disk := s.disk[..size], outcome := Unfinished)
    case Reset => s.(disk := [], saved := seq(|s.saved|, _ => 0), outcome := Unfinished)
    case Advance => s.(now := s.now + 1)
    case Kill => Crashed(job, s)
  }

  /** A download as CreateDownloadWithChunks leaves it: nothing on disk, nothing credited. */
  function Fresh(job: Job): (s: State)
    ensures Shaped(job, s)
  {
    var n := |job.chunks|;
    var zeros := seq(n, _ => 0);
    State(Idle, Unfinished, false, [], Load(job.chunks, zeros), seq(n, _ => Unspawned), zeros, [],
          0, zeros, zeros, zeros, [], false)
  }

  /** `trace` can be taken from s, one enabled step after the other. */
  ghost predicate Runs(job: Job, s: State, trace: seq<Step>)
    decreases |trace|
  {
    trace == [] || (Enabled(job, s, trace[0]) && Runs(job, Apply(job, s, trace[0]), trace[1..]))
  }

  ghost function After(job: Job, s: State, trace: seq<Step>): (t: State)
    requires Shaped(job, s) && Runs(job, s, trace)
    ensures Shaped(job, t)
    decreases |trace|
  {
    if trace == [] then s else After(job, Apply(job, s, trace[0]), trace[1..])
  }
}
