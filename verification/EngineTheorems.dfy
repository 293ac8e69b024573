/** Safety of the download engine over whole histories of runs. */
module EngineTheorems {
  import opened Basics
  import opened Chunking
  import opened Engine
  import opened EngineInvariant

  /** Along the trace, nobody kills the process while the database over-claims. */
  ghost predicate KillsSpared(job: Job, s: State, trace: seq<Step>)
    requires Runs(job, s, trace)
    decreases |trace|
  {
    trace == [] || (Spared(s, trace[0]) && KillsSpared(job, Apply(job, s, trace[0]), trace[1..]))
  }

  /** A state some history of runs can reach. */
  ghost predicate Reached(job: Job, s: State, trace: seq<Step>) {
    && Runs(job, Fresh(job), trace)
    && KillsSpared(job, Fresh(job), trace)
    && s == After(job, Fresh(job), trace)
  }

  lemma FreshOk(job: Job)
    requires Sound(job)
    ensures Inv(job, Fresh(job))
  {
    forall i | 0 <= i < |job.chunks| ensures ChunkOk(job, Fresh(job), i) {
      PartitionBounds(job.chunks, job.total, i);
    }
  }

  lemma {:induction false} RunsKeep(job: Job, s: State, trace: seq<Step>)
    requires Sound(job) && Inv(job, s) && Runs(job, s, trace) && KillsSpared(job, s, trace)
    ensures Inv(job, After(job, s, trace))
    decreases |trace|
  {
    if trace != [] {
      StepKeeps(job, s, trace[0]);
      RunsKeep(job, Apply(job, s, trace[0]), trace[1..]);
    }
  }

  lemma ReachedOk(job: Job, s: State, trace: seq<Step>)
    requires Sound(job) && Reached(job, s, trace)
    ensures Inv(job, s)
  {
    FreshOk(job);
    RunsKeep(job, Fresh(job), trace);
  }

  lemma {:induction false} RunsExtend(job: Job, s: State, trace: seq<Step>, step: Step)
    requires Shaped(job, s) && Runs(job, s, trace) && KillsSpared(job, s, trace)
    requires Enabled(job, After(job, s, trace), step) && Spared(After(job, s, trace), step)
    ensures Runs(job, s, trace + [step]) && KillsSpared(job, s, trace + [step])
    ensures After(job, s, trace + [step]) == Apply(job, After(job, s, trace), step)
    decreases |trace|
  {
    if trace == [] {
      assert Runs(job, Apply(job, s, step), []);
      assert (trace + [step])[1..] == [];
    } else {
      RunsExtend(job, Apply(job, s, trace[0]), trace[1..], step);
      assert (trace + [step])[1..] == trace[1..] + [step];
    }
  }

  /** One more step of a history. */
  lemma Extend(job: Job, s: State, trace: seq<Step>, step: Step) returns (t: State, longer: seq<Step>)
    requires Reached(job, s, trace) && Enabled(job, s, step) && Spared(s, step)
    ensures t == Apply(job, s, step) && Reached(job, t, longer)
  {
    t, longer := Apply(job, s, step), trace + [step];
    RunsExtend(job, Fresh(job), trace, step);
  }

  /** Once every chunk is completed, the whole file is covered by credited, genuine bytes. */
  lemma CompletedByte(job: Job, s: State, k: int) returns (i: nat)
    requires Sound(job) && Inv(job, s) && s.phase != Idle && AllCompleted(s.progress) && 0 <= k < job.total
    ensures i < |job.chunks| && job.chunks[i].start <= k <= job.chunks[i].end
    ensures |s.disk| == job.total
    ensures k < |job.content(s.origin[i])| && s.disk[k] == job.content(s.origin[i])[k]
  {
    i := PartitionCovers(job.chunks, job.total, k, |job.chunks| - 1);
    assert ChunkOk(job, s, i);
    assert Same(job.content(s.origin[i]), s.disk, k);
  }

  /** The headline: against one fixed representation, whatever the history of runs, interleavings, retries, cut
      files and interruptions, a Start that returns nil leaves exactly the remote bytes in the part file. */
  lemma SuccessMeansRemoteBytes(job: Job, s: State, trace: seq<Step>, ioOk: bool)
    requires Sound(job) && Fixed(job) && |job.content(0)| == job.total
    requires Reached(job, s, trace) && Enabled(job, s, Return(ioOk))
    requires Apply(job, s, Return(ioOk)).outcome == Success
    ensures Apply(job, s, Return(ioOk)).disk == job.content(0)
  {
    ReachedOk(job, s, trace);
    forall k | 0 <= k < job.total ensures s.disk[k] == job.content(0)[k] {
      var i := CompletedByte(job, s, k);
    }
  }

  /** When the representation may move on but never comes back, each chunk still comes from a single version:
      in every reachable state, all the bytes chunk i is credited with are bytes of version origin[i]. */
  lemma ChunkFromOneVersion(job: Job, s: State, trace: seq<Step>, i: nat)
    requires Sound(job) && Reached(job, s, trace) && i < |job.chunks|
    ensures s.origin[i] <= s.now
    ensures Held(job.content(s.origin[i]), s.disk, job.chunks[i].start,
                 job.chunks[i].start + s.progress[i].downloaded)
  {
    ReachedOk(job, s, trace);
    assert ChunkOk(job, s, i);
    var lo := job.chunks[i].start;
    if s.phase != Idle {
      HeldCarries(job.content(s.origin[i]), s.disk, s.disk, lo, lo + s.frontier[i], lo + s.progress[i].downloaded);
    }
  }

  /** A single-chunk download that succeeds is a prefix of one version of the resource. */
  lemma SingleChunkFromOneVersion(job: Job, s: State, trace: seq<Step>, ioOk: bool)
    requires Sound(job) && |job.chunks| == 1
    requires Reached(job, s, trace) && Enabled(job, s, Return(ioOk))
    requires Apply(job, s, Return(ioOk)).outcome == Success
    ensures |s.disk| == job.total <= |job.content(s.origin[0])|
    ensures s.disk == job.content(s.origin[0])[..job.total]
  {
    ReachedOk(job, s, trace);
    var content := job.content(s.origin[0]);
    forall k | 0 <= k < job.total ensures k < |content| && s.disk[k] == content[k] {
      var i := CompletedByte(job, s, k);
    }
    if |content| < job.total {
      var i := CompletedByte(job, s, |content|);
    }
  }

  /** A resume never skips a byte it does not have: right after Begin, everything below the first offset a chunk
      would ask for is on disk and genuine, and the file has its full length. */
  lemma ResumeNeverSkips(job: Job, s: State, trace: seq<Step>, i: nat, k: int)
    requires Sound(job) && Reached(job, s, trace) && Enabled(job, s, Begin) && i < |job.chunks|
    ensures var t := Apply(job, s, Begin);
            && |t.disk| == job.total
            && (job.chunks[i].start <= k < First(job, t, i) ==>
                  0 <= k < |t.disk| && k < |job.content(t.origin[i])| && t.disk[k] == job.content(t.origin[i])[k])
  {
    ReachedOk(job, s, trace);
    StepKeeps(job, s, Begin);
    var t := Apply(job, s, Begin);
    assert ChunkOk(job, t, i);
    PartitionBounds(job.chunks, job.total, i);
    if job.chunks[i].start <= k < First(job, t, i) {
      assert Same(job.content(t.origin[i]), t.disk, k);
    }
  }

  /** Every size a speed tick has taken and not yet written down is covered by genuine bytes. */
  lemma LateSnapshotIsBacked(job: Job, s: State, trace: seq<Step>, k: nat)
    requires Sound(job) && Reached(job, s, trace) && k < |s.pending|
    ensures Backed(job, s, s.pending[k].chunk, s.pending[k].downloaded)
  {
    ReachedOk(job, s, trace);
    var i := s.pending[k].chunk;
    ChunkFromOneVersion(job, s, trace, i);
    var lo := job.chunks[i].start;
    HeldCarries(job.content(s.origin[i]), s.disk, s.disk, lo, lo + s.progress[i].downloaded,
                lo + s.pending[k].downloaded);
  }

  // ---------------------------------------------------------------- verifyOnDisk

  lemma {:induction false} SumOfLengths(cs: seq<Chunk>, xs: seq<int>, n: nat)
    requires n <= |cs| == |xs|
    requires forall i :: 0 <= i < |cs| ==> xs[i] == cs[i].Length()
    requires forall i :: 0 < i < |cs| ==> cs[i].start == cs[i - 1].end + 1
    ensures n > 0 ==> Sum(xs[..n]) == cs[n - 1].end + 1 - cs[0].start
  {
    if n > 1 {
      SumOfLengths(cs, xs, n - 1);
      assert xs[..n][..n - 1] == xs[..n - 1];
    } else if n == 1 {
      assert xs[..1][..0] == [];
    }
  }

  lemma CompletedIsVerified(job: Job, s: State)
    requires Sound(job) && Inv(job, s) && s.phase != Idle && AllCompleted(s.progress)
    ensures Verified(job, s)
  {
    var xs := Credits(s.progress);
    forall i | 0 <= i < |job.chunks| ensures xs[i] == job.chunks[i].Length() { assert ChunkOk(job, s, i); }
    SumOfLengths(job.chunks, xs, |xs|);
    assert xs[..|xs|] == xs;
    assert ChunkOk(job, s, 0);
  }

  /** "Completed" on every chunk means every byte is accounted for, so verifyOnDisk cannot turn such a run down:
      absent file errors and cancellation, Start returns nil exactly when all chunks are completed. */
  lemma VerifyAcceptsCompleted(job: Job, s: State, trace: seq<Step>)
    requires Sound(job) && Reached(job, s, trace) && Enabled(job, s, Return(true))
    ensures AllCompleted(s.progress) ==> Verified(job, s)
    ensures Apply(job, s, Return(true)).outcome == Success <==> !s.cancelled && AllCompleted(s.progress)
  {
    ReachedOk(job, s, trace);
    if AllCompleted(s.progress) { CompletedIsVerified(job, s); }
  }

  // ---------------------------------------------------------------- process kills

  /** While reconciliation has lowered nothing, a kill at any moment of the run is harmless. */
  lemma UnloweredKillIsSpared(job: Job, s: State, trace: seq<Step>)
    requires Sound(job) && Reached(job, s, trace) && (s.phase != Idle ==> !s.lowered)
    ensures Spared(s, Kill)
    ensures Inv(job, Apply(job, s, Kill))
  {
    ReachedOk(job, s, trace);
    forall i | 0 <= i < |s.saved| && s.phase != Idle ensures s.saved[i] <= s.progress[i].downloaded {
      assert ChunkOk(job, s, i);
    }
    KillOk(job, s);
  }

  /** The run that follows a run killed right after Begin. */
  ghost function Rerun(job: Job, s: State): State
    requires Enabled(job, s, Begin)
  {
    Apply(job, Apply(job, Apply(job, s, Begin), Kill), Begin)
  }

  predicate ZeroAt(content: seq<Byte>, k: int) { 0 <= k < |content| && content[k] == 0 }

  /** What a kill costs right after Begin: the file already has its full length, so the next run credits every
      claim of the database in full. Chunk i is then sound exactly when all the bytes it had lost happen to be
      zero in the remote file. */
  lemma KillAfterBegin(job: Job, s: State, trace: seq<Step>, i: nat)
    requires Sound(job) && Reached(job, s, trace) && Enabled(job, s, Begin) && i < |job.chunks|
    ensures Rerun(job, s).progress[i].downloaded == s.saved[i]
    ensures Backed(job, Rerun(job, s), i, s.saved[i]) <==>
            forall k :: job.chunks[i].start <= k < job.chunks[i].start + s.saved[i] && |s.disk| <= k ==>
              ZeroAt(job.content(s.origin[i]), k)
  {
    ReachedOk(job, s, trace);
    assert ChunkOk(job, s, i);
    PartitionBounds(job.chunks, job.total, i);
    RerunState(job, s, i);
    LostBytesAreZero(job.content(s.origin[i]), s.disk, job.total, job.chunks[i].start,
                     job.chunks[i].start + s.saved[i]);
  }

  lemma RerunState(job: Job, s: State, i: nat)
    requires Enabled(job, s, Begin) && i < |job.chunks| && 0 <= job.chunks[i].start
    requires job.chunks[i].start + s.saved[i] <= job.total && 0 <= s.saved[i]
    ensures var t := Rerun(job, s);
            t.disk == Resize(s.disk, job.total) && t.origin == s.origin && t.progress[i].downloaded == s.saved[i]
  {
    var b := Apply(job, s, Begin);
    assert Resize(b.disk, job.total) == b.disk;
  }

  lemma LostBytesAreZero(content: seq<Byte>, file: seq<Byte>, total: nat, lo: nat, hi: int)
    requires Held(content, file, lo, hi) && |file| <= total && hi <= total
    ensures Held(content, Resize(file, total), lo, hi)
       <==> forall k :: lo <= k < hi && |file| <= k ==> ZeroAt(content, k)
  {
    var longer := Resize(file, total);
    if Held(content, longer, lo, hi) {
      forall k | lo <= k < hi && |file| <= k ensures ZeroAt(content, k) {
        assert Same(content, longer, k);
      }
    }
    if forall k :: lo <= k < hi && |file| <= k ==> ZeroAt(content, k) {
      forall k | lo <= k < hi ensures Same(content, longer, k) {
        assert Same(content, file, k);
        if |file| <= k { assert ZeroAt(content, k); }
      }
    }
  }

  /** Which steps touch what: the file, the database, the version a chunk belongs to, the version being served, and
      whether the run is cancelled. */
  lemma StepsTouch(job: Job, s: State, step: Step, t: State)
    requires Enabled(job, s, step) && t == Apply(job, s, step)
    ensures t.disk != s.disk ==> step.Begin? || step.Put? || step.PutFails? || step.Shrink? || step.Reset?
    ensures t.saved != s.saved ==> step.Settle? || step.Land? || step.FlushOne? || step.Reset?
    ensures t.origin != s.origin ==> step.Accepted? && s.progress[step.i].downloaded == 0
    ensures t.now == if step.Advance? then s.now + 1 else s.now
    ensures t.cancelled != s.cancelled ==> step.Begin? || step.Cancel? || step.Kill?
    ensures step.Kill? ==> t.phase == Idle && t.pending == [] && !t.cancelled && t.progress == Load(job.chunks, s.saved)
    ensures step.Shrink? ==> t.disk == s.disk[..step.size]
    ensures step.Reset? ==> t.disk == [] && forall i :: 0 <= i < |t.saved| ==> t.saved[i] == 0
    ensures step.Land? ==> t.saved == s.saved[s.pending[step.k].chunk := s.pending[step.k].downloaded]
    ensures step.FlushOne? ==> t.saved == s.saved[s.phase.next := s.progress[s.phase.next].downloaded]
  {
  }
}
