/** Histories of single-chunk downloads, for any size and any version of the resource: what the engine theorems do not
    promise does happen. */
module EngineHistories {
  import opened Basics
  import opened Chunking
  import opened Engine
  import opened EngineInvariant
  import opened EngineTheorems

  ghost predicate Single(job: Job) {
    Sound(job) && |job.chunks| == 1
  }

  /** A history, whether or not it spares the database (`spared`). */
  ghost predicate Took(job: Job, s: State, trace: seq<Step>, spared: bool) {
    && Runs(job, Fresh(job), trace)
    && s == After(job, Fresh(job), trace)
    && (spared ==> KillsSpared(job, Fresh(job), trace))
  }

  lemma {:induction false} AnyRunExtends(job: Job, s: State, trace: seq<Step>, step: Step)
    requires Shaped(job, s) && Runs(job, s, trace) && Enabled(job, After(job, s, trace), step)
    ensures Runs(job, s, trace + [step])
    ensures After(job, s, trace + [step]) == Apply(job, After(job, s, trace), step)
    decreases |trace|
  {
    if trace == [] {
      assert Runs(job, Apply(job, s, step), []);
      assert (trace + [step])[1..] == [];
    } else {
      AnyRunExtends(job, Apply(job, s, trace[0]), trace[1..], step);
      assert (trace + [step])[1..] == trace[1..] + [step];
    }
  }

  lemma Go(job: Job, s: State, trace: seq<Step>, spared: bool, step: Step) returns (t: State, longer: seq<Step>)
    requires Took(job, s, trace, spared) && Enabled(job, s, step) && (spared ==> Spared(s, step))
    ensures t == Apply(job, s, step) && Took(job, t, longer, spared) && longer == trace + [step]
  {
    t, longer := Apply(job, s, step), trace + [step];
    AnyRunExtends(job, Fresh(job), trace, step);
    if spared { RunsExtend(job, Fresh(job), trace, step); }
  }

  /** The one-chunk states of these histories. */
  predicate Stands(job: Job, s: State, phase: Phase, w: Worker, p: Progress, saved: int, origin: nat) {
    && Shaped(job, s) && |job.chunks| == 1
    && s.phase == phase && s.workers == [w] && s.progress == [p] && s.saved == [saved] && s.origin == [origin]
    && s.pending == []
  }

  lemma OnlyChunk(job: Job)
    requires Single(job)
    ensures job.chunks == [Chunk(0, 0, job.total - 1)] && job.total > 0
  {
  }

  // ---------------------------------------------------------------- single steps

  lemma Begins(job: Job, s: State, w: Worker, p: Progress, saved: nat, o: nat)
    requires Single(job) && Stands(job, s, Idle, w, p, saved, o)
    ensures Enabled(job, s, Begin)
    ensures var t := Apply(job, s, Begin);
      && Stands(job, t, Running, Unspawned, t.progress[0], saved, o)
      && t.disk == Resize(s.disk, job.total) && !t.cancelled && t.now == s.now
      && (saved == 0 || s.disk == [] ==> t.progress[0] == Progress(0, Pending))
      && (saved == job.total == |s.disk| ==> t.progress[0] == Progress(job.total, Completed) && t.disk == s.disk)
  {
    OnlyChunk(job);
    var t := Apply(job, s, Begin);
    assert t.progress == [t.progress[0]] && t.workers == [Unspawned];
    assert t.progress[0] == ReconcileOne(job.chunks[0], Load(job.chunks, s.saved)[0], |s.disk|);
  }

  /** An answer of undeclared length with the whole of version v. */
  function Undeclared(job: Job, v: nat): Response {
    Response(200, "", -1, job.content(v), true)
  }

  lemma Accepts200(job: Job, s: State, v: nat, o: nat)
    requires Single(job) && Stands(job, s, Running, Ready(0), Progress(0, Pending), 0, o) && s.now == v
    ensures Enabled(job, s, Accepted(0, Undeclared(job, v)))
    ensures var t := Apply(job, s, Accepted(0, Undeclared(job, v)));
      && Stands(job, t, Running, Streaming(0, Undeclared(job, v), 0, 0), Progress(0, Pending), 0, v)
      && t.disk == s.disk && t.cancelled == s.cancelled && t.now == s.now
  {
    OnlyChunk(job);
    assert Honest(job, "", Undeclared(job, v), v);
  }

  /** The first k bytes of the file are those of the content. */
  predicate Filled(content: seq<Byte>, disk: seq<Byte>, total: int, k: int) {
    0 <= k <= total == |disk| && k <= |content| && disk[..k] == content[..k]
  }

  lemma FilledFurther(content: seq<Byte>, disk: seq<Byte>, total: int, k: int, n: int)
    requires Filled(content, disk, total, k) && 0 <= n && k + n <= total <= |content|
    ensures Filled(content, WriteAt(disk, k, content[k..k + n]), total, k + n)
  {
  }

  lemma Stores(job: Job, s: State, v: nat, k: nat, n: nat, status: Status)
    requires Single(job) && job.total <= |job.content(v)| && 0 < n <= READ_BUF_SIZE && k + n <= job.total
    requires Stands(job, s, Running, Streaming(0, Undeclared(job, v), 0, k), Progress(k, status), 0, v)
    requires Filled(job.content(v), s.disk, job.total, k)
    ensures Enabled(job, s, Put(0, n))
    ensures var t := Apply(job, s, Put(0, n));
      && Stands(job, t, Running, Storing(0, Undeclared(job, v), 0, k, n), Progress(k, status), 0, v)
      && Filled(job.content(v), t.disk, job.total, k + n)
      && t.cancelled == s.cancelled && t.now == s.now
  {
    OnlyChunk(job);
    assert ReadBytes(s.workers[0], n) == job.content(v)[k..k + n];
    FilledFurther(job.content(v), s.disk, job.total, k, n);
  }

  lemma Credits1(job: Job, s: State, v: nat, k: nat, n: nat, status: Status)
    requires Single(job)
    requires Stands(job, s, Running, Storing(0, Undeclared(job, v), 0, k, n), Progress(k, status), 0, v)
    ensures Enabled(job, s, Credit(0))
    ensures var t := Apply(job, s, Credit(0));
      && Stands(job, t, Running, Streaming(0, Undeclared(job, v), 0, k + n), Progress(k + n, Downloading), 0, v)
      && t.disk == s.disk && t.cancelled == s.cancelled && t.now == s.now
  {
    OnlyChunk(job);
  }

  /** Reading on until the declared size is reached, a buffer at a time. */
  lemma {:induction false} Fills(job: Job, s: State, trace: seq<Step>, v: nat, k: nat, status: Status)
    returns (t: State, longer: seq<Step>)
    requires Single(job) && job.total <= |job.content(v)| && k <= job.total && Took(job, s, trace, true)
    requires Stands(job, s, Running, Streaming(0, Undeclared(job, v), 0, k), Progress(k, status), 0, v)
    requires Filled(job.content(v), s.disk, job.total, k) && !s.cancelled
    ensures Took(job, t, longer, true) && !t.cancelled && t.now == s.now
    ensures Stands(job, t, Running, Streaming(0, Undeclared(job, v), 0, job.total), t.progress[0], 0, v)
    ensures t.progress[0].downloaded == job.total && Filled(job.content(v), t.disk, job.total, job.total)
    decreases job.total - k
  {
    if k == job.total {
      t, longer := s, trace;
    } else {
      var n := Min(READ_BUF_SIZE, job.total - k);
      Stores(job, s, v, k, n, status);
      var a, ta := Go(job, s, trace, true, Put(0, n));
      Credits1(job, a, v, k, n, status);
      var b, tb := Go(job, a, ta, true, Credit(0));
      t, longer := Fills(job, b, tb, v, k + n, Downloading);
    }
  }

  // ---------------------------------------------------------------- runs

  /** What the lemmas below keep of a state besides its place in the run. */
  predicate Like(s: State, t: State) {
    t.disk == s.disk && t.now == s.now && t.cancelled == s.cancelled
  }

  lemma Spawns(job: Job, s: State, p: Progress, saved: int, o: nat)
    requires Stands(job, s, Running, Unspawned, p, saved, o)
    ensures Enabled(job, s, Spawn(0)) && Like(s, Apply(job, s, Spawn(0)))
    ensures Stands(job, Apply(job, s, Spawn(0)), Running, Ready(0), p, saved, o)
  {
  }

  lemma Breaks(job: Job, s: State, r: Response, first: int, written: int, p: Progress, saved: int, o: nat)
    requires Stands(job, s, Running, Streaming(0, r, first, written), p, saved, o)
    ensures Enabled(job, s, Break(0)) && Like(s, Apply(job, s, Break(0)))
    ensures Stands(job, Apply(job, s, Break(0)), Running, Failing(0), p, saved, o)
  {
  }

  lemma SettlesCancelled(job: Job, s: State, p: Progress, saved: int, o: nat)
    requires Stands(job, s, Running, Failing(0), p, saved, o) && s.cancelled
    ensures Enabled(job, s, Step.Settle(0)) && Like(s, Apply(job, s, Step.Settle(0)))
    ensures Stands(job, Apply(job, s, Step.Settle(0)), Running, Done, p, saved, o)
  {
  }

  lemma NothingLeft(job: Job, s: State, saved: int, o: nat)
    requires Single(job) && Stands(job, s, Running, Ready(0), Progress(job.total, Completed), saved, o)
    ensures Enabled(job, s, Satisfied(0)) && Like(s, Apply(job, s, Satisfied(0)))
    ensures Stands(job, Apply(job, s, Satisfied(0)), Running, Fetched(0), Progress(job.total, Completed), saved, o)
  {
    OnlyChunk(job);
  }

  lemma SettlesFetched(job: Job, s: State, p: Progress, saved: int, o: nat)
    requires Stands(job, s, Running, Fetched(0), p, saved, o) && p.status == Completed
    ensures Enabled(job, s, Step.Settle(0)) && Like(s, Apply(job, s, Step.Settle(0)))
    ensures Stands(job, Apply(job, s, Step.Settle(0)), Running, Done, p, p.downloaded, o)
  {
  }

  lemma StartsFlush(job: Job, s: State, p: Progress, saved: int, o: nat)
    requires Stands(job, s, Running, Done, p, saved, o)
    ensures Enabled(job, s, StartFlush) && Like(s, Apply(job, s, StartFlush))
    ensures Stands(job, Apply(job, s, StartFlush), Flushing(0), Done, p, saved, o)
  {
  }

  lemma FlushesOne(job: Job, s: State, p: Progress, saved: int, o: nat)
    requires Stands(job, s, Flushing(0), Done, p, saved, o)
    ensures Enabled(job, s, FlushOne) && Like(s, Apply(job, s, FlushOne))
    ensures Stands(job, Apply(job, s, FlushOne), Flushing(1), Done, p, p.downloaded, o)
  {
  }

  lemma Flushes(job: Job, s: State, trace: seq<Step>, spared: bool, p: Progress, saved: int, o: nat)
    returns (t: State, longer: seq<Step>)
    requires Took(job, s, trace, spared) && Stands(job, s, Running, Done, p, saved, o)
    ensures Took(job, t, longer, spared) && Stands(job, t, Flushing(1), Done, p, p.downloaded, o) && Like(s, t)
    ensures Enabled(job, t, Return(true)) && longer == trace + [StartFlush, FlushOne]
  {
    StartsFlush(job, s, p, saved, o);
    var a, ta := Go(job, s, trace, spared, StartFlush);
    FlushesOne(job, a, p, saved, o);
    t, longer := Go(job, a, ta, spared, FlushOne);
  }

  /** Version v is being served, and nothing has been fetched yet. */
  lemma {:induction false} Serves(job: Job, v: nat) returns (s: State, trace: seq<Step>)
    requires Single(job)
    ensures Took(job, s, trace, true) && s.now == v && s.disk == []
    ensures Stands(job, s, Idle, Unspawned, Progress(0, Pending), 0, 0)
  {
    if v == 0 {
      s, trace := Fresh(job), [];
      OnlyChunk(job);
      assert s.progress == [Progress(0, Pending)] && s.workers == [Unspawned] && s.saved == [0] && s.origin == [0];
    } else {
      s, trace := Serves(job, v - 1);
      s, trace := Go(job, s, trace, true, Advance);
    }
  }

  /** The worker of the first run has an answer to read. */
  lemma Answered(job: Job, v: nat) returns (s: State, trace: seq<Step>)
    requires Single(job)
    ensures Took(job, s, trace, true) && !s.cancelled && |s.disk| == job.total
    ensures Stands(job, s, Running, Streaming(0, Undeclared(job, v), 0, 0), Progress(0, Pending), 0, v)
  {
    OnlyChunk(job);
    s, trace := Serves(job, v);
    Begins(job, s, Unspawned, Progress(0, Pending), 0, 0);
    s, trace := Go(job, s, trace, true, Begin);
    Spawns(job, s, Progress(0, Pending), 0, 0);
    s, trace := Go(job, s, trace, true, Spawn(0));
    Accepts200(job, s, v, 0);
    s, trace := Go(job, s, trace, true, Accepted(0, Undeclared(job, v)));
  }

  /** The range has been filled and credited, the attempt has failed because the answer goes on, and the user has paused
      the download before another attempt. */
  lemma FilledAndPaused(job: Job, v: nat) returns (s: State, trace: seq<Step>, p: Progress)
    requires Single(job) && job.total <= |job.content(v)|
    ensures Took(job, s, trace, true) && s.cancelled && s.disk == job.content(v)[..job.total]
    ensures Stands(job, s, Running, Done, p, 0, v) && p.downloaded == job.total
  {
    OnlyChunk(job);
    s, trace := Answered(job, v);
    s, trace := Fills(job, s, trace, v, 0, Pending);
    p := s.progress[0];
    assert s.disk[..job.total] == s.disk;
    Breaks(job, s, Undeclared(job, v), 0, job.total, p, 0, v);
    s, trace := Go(job, s, trace, true, Break(0));
    s, trace := Go(job, s, trace, true, Step.Cancel);
    SettlesCancelled(job, s, p, 0, v);
    s, trace := Go(job, s, trace, true, Step.Settle(0));
  }

  /** And then the paused run has returned, with everything it fetched on record. */
  lemma Paused(job: Job, v: nat) returns (s: State, trace: seq<Step>, p: Progress)
    requires Single(job) && job.total <= |job.content(v)|
    ensures Took(job, s, trace, true) && s.disk == job.content(v)[..job.total]
    ensures Stands(job, s, Idle, Done, p, job.total, v)
  {
    s, trace, p := FilledAndPaused(job, v);
    s, trace := Flushes(job, s, trace, true, p, 0, v);
    s, trace := Go(job, s, trace, true, Return(true));
  }

  const RESUMED: seq<Step> := [Begin, Spawn(0), Satisfied(0), Step.Settle(0), StartFlush, FlushOne]

  /** A run that finds the whole size on record and on disk has nothing to ask for. */
  lemma ResumesFull(job: Job, s: State, trace: seq<Step>, spared: bool, w: Worker, p: Progress, o: nat)
    returns (t: State, longer: seq<Step>)
    requires Single(job) && Took(job, s, trace, spared)
    requires Stands(job, s, Idle, w, p, job.total, o) && |s.disk| == job.total
    ensures Took(job, t, longer, spared) && t.disk == s.disk && !t.cancelled
    ensures Stands(job, t, Running, Fetched(0), Progress(job.total, Completed), job.total, o)
    ensures longer == trace + [Begin, Spawn(0), Satisfied(0)]
  {
    OnlyChunk(job);
    Begins(job, s, w, p, job.total, o);
    t, longer := Go(job, s, trace, spared, Begin);
    Spawns(job, t, Progress(job.total, Completed), job.total, o);
    t, longer := Go(job, t, longer, spared, Spawn(0));
    NothingLeft(job, t, job.total, o);
    t, longer := Go(job, t, longer, spared, Satisfied(0));
  }

  /** And it reports success. */
  lemma Resumes(job: Job, s: State, trace: seq<Step>, spared: bool, w: Worker, p: Progress, o: nat)
    returns (t: State, longer: seq<Step>)
    requires Single(job) && Took(job, s, trace, spared)
    requires Stands(job, s, Idle, w, p, job.total, o) && |s.disk| == job.total
    ensures Took(job, t, longer, spared) && t.disk == s.disk && t.origin == [o] && longer == trace + RESUMED
    ensures Enabled(job, t, Return(true)) && Apply(job, t, Return(true)).outcome == Success
  {
    var full := Progress(job.total, Completed);
    t, longer := ResumesFull(job, s, trace, spared, w, p, o);
    SettlesFetched(job, t, full, job.total, o);
    t, longer := Go(job, t, longer, spared, Step.Settle(0));
    t, longer := Flushes(job, t, longer, spared, full, job.total, o);
    Succeeds1(job, t, o);
  }

  lemma Succeeds1(job: Job, t: State, o: nat)
    requires Single(job) && Stands(job, t, Flushing(1), Done, Progress(job.total, Completed), job.total, o)
    requires !t.cancelled && |t.disk| == job.total
    ensures Enabled(job, t, Return(true)) && Apply(job, t, Return(true)).outcome == Success
  {
    assert Credits(t.progress) == [job.total];
    assert Sum([job.total]) == job.total by { assert [job.total][..0] == []; }
    assert AllCompleted(t.progress) && Verified(job, t);
  }

  // ---------------------------------------------------------------- when a success is the whole resource

  /** The history ends in a Start that returns nil. */
  ghost predicate Succeeds(job: Job, s: State, trace: seq<Step>) {
    Reached(job, s, trace) && Enabled(job, s, Return(true)) && Apply(job, s, Return(true)).outcome == Success
  }

  /** A longer version can always end up published as a strict prefix of itself. */
  lemma LongerVersionIsCut(job: Job, v: nat) returns (s: State, trace: seq<Step>)
    requires Single(job) && job.total <= |job.content(v)|
    ensures Succeeds(job, s, trace) && s.origin == [v] && s.disk == job.content(v)[..job.total]
  {
    var p: Progress;
    s, trace, p := Paused(job, v);
    s, trace := Resumes(job, s, trace, true, Done, p, v);
  }

  /** Every success of a single-chunk download is one whole version, exactly when no version of the resource is longer
      than the size that was declared. */
  lemma AlwaysWholeIff(job: Job)
    requires Sound(job) && |job.chunks| == 1
    ensures (forall s, trace :: Succeeds(job, s, trace) ==> s.disk == job.content(s.origin[0]))
       <==> (forall v: nat :: |job.content(v)| <= job.total)
  {
    if v: nat :| |job.content(v)| > job.total {
      var s, trace := LongerVersionIsCut(job, v);
      assert Succeeds(job, s, trace) && |s.disk| == job.total;
    } else {
      forall s, trace | Succeeds(job, s, trace) ensures s.disk == job.content(s.origin[0]) {
        SingleChunkFromOneVersion(job, s, trace, true);
      }
    }
  }

  // ---------------------------------------------------------------- what an unspared kill costs

  /** A paused download of which everything is on record, and whose part file has then been deleted. */
  lemma PartFileLost(job: Job, v: nat) returns (s: State, trace: seq<Step>, p: Progress)
    requires Single(job) && job.total <= |job.content(v)|
    ensures Reached(job, s, trace) && Enabled(job, s, Begin)
    ensures s.disk == [] && Stands(job, s, Idle, Done, p, job.total, v)
  {
    s, trace, p := Paused(job, v);
    s, trace := Go(job, s, trace, true, Shrink(0));
  }

  lemma Killed(job: Job, s: State, p: Progress, o: nat)
    requires Single(job) && Stands(job, s, Running, Unspawned, p, job.total, o)
    ensures Enabled(job, s, Kill)
    ensures Stands(job, Apply(job, s, Kill), Idle, Unspawned, Load(job.chunks, [job.total])[0], job.total, o)
    ensures Apply(job, s, Kill).disk == s.disk
  {
    assert Apply(job, s, Kill).progress == [Load(job.chunks, [job.total])[0]];
    assert Apply(job, s, Kill).workers == [Unspawned];
  }

  /** Reconciliation has taken the credit back and the file has its full length again. */
  lemma Lowered(job: Job, v: nat) returns (s: State, trace: seq<Step>)
    requires Single(job) && job.total <= |job.content(v)|
    ensures Reached(job, s, trace) && s.disk == Zeros(job.total)
    ensures Stands(job, s, Running, Unspawned, Progress(0, Pending), job.total, v)
  {
    OnlyChunk(job);
    var p: Progress;
    s, trace, p := PartFileLost(job, v);
    Begins(job, s, Done, p, job.total, v);
    s, trace := Go(job, s, trace, true, Begin);
  }

  /** The promise that a success leaves the remote bytes fails without the assumption on kills: the part file is
      deleted, the next run lowers the credit and gives the file its full length, the process is killed, and the run
      after that publishes zeros. Up to the kill the history is an ordinary one. */
  lemma KillPublishesZeros(job: Job, v: nat)
    returns (s: State, trace: seq<Step>, before: State, prefix: seq<Step>)
    requires Single(job) && job.total <= |job.content(v)|
    ensures Reached(job, before, prefix)
    ensures trace == prefix + [Kill] + RESUMED
    ensures Runs(job, Fresh(job), trace) && s == After(job, Fresh(job), trace)
    ensures Enabled(job, s, Return(true)) && Apply(job, s, Return(true)).outcome == Success
    ensures s.origin == [v] && s.disk == Zeros(job.total)
    ensures (forall u: nat :: !(Zeros(job.total) <= job.content(u))) ==> forall u: nat :: !(s.disk <= job.content(u))
  {
    OnlyChunk(job);
    before, prefix := Lowered(job, v);
    Killed(job, before, Progress(0, Pending), v);
    var a, ta := Go(job, before, prefix, false, Kill);
    s, trace := Resumes(job, a, ta, false, Unspawned, Load(job.chunks, [job.total])[0], v);
  }

  /** A reached state at which a kill right after Begin leaves a chunk credited with bytes the file does not have: any
      version with a non-zero byte below the declared size will do. */
  lemma KillUnbacks(job: Job, v: nat, k: int) returns (s: State, trace: seq<Step>)
    requires Single(job) && job.total <= |job.content(v)| && 0 <= k < job.total && job.content(v)[k] != 0
    ensures Reached(job, s, trace) && Enabled(job, s, Begin) && s.disk == [] && s.saved == [job.total]
    ensures Rerun(job, s).progress[0].downloaded == job.total && !Backed(job, Rerun(job, s), 0, job.total)
  {
    OnlyChunk(job);
    var p: Progress;
    s, trace, p := PartFileLost(job, v);
    KillAfterBegin(job, s, trace, 0);
    assert !ZeroAt(job.content(s.origin[0]), k);
  }
}
