/** What a process kill costs at any moment of a run. */
module EngineKills {
  import opened Basics
  import opened Chunking
  import opened Engine
  import opened EngineInvariant
  import opened EngineTheorems
  import opened EngineLedger

  /** A failed write of this run put a byte at offset k. */
  predicate Landed(s: State, k: int) {
    exists a :: 0 <= a < |s.writes| && Left(s.writes[a], k)
  }

  predicate Left(w: Write, k: int) {
    !w.ok && w.lo <= k < w.hi
  }

  /** An offset of a chunk that the database over-claims holds zero, or what a failed write left there; and against a
      fixed representation that is the right byte. */
  ghost predicate Vestige(job: Job, s: State, k: int) {
    && 0 <= k < |s.disk|
    && (!Landed(s, k) ==> s.disk[k] == 0)
    && (Landed(s, k) && Fixed(job) ==> Same(job.content(0), s.disk, k))
  }

  /** Beyond the frontier of an over-claimed chunk there is nothing else. */
  ghost predicate Leftover(job: Job, s: State, i: nat)
    requires Shaped(job, s) && i < |job.chunks|
  {
    s.phase != Idle && s.saved[i] > s.frontier[i] ==>
      forall k :: job.chunks[i].start + s.frontier[i] <= k <= job.chunks[i].end ==> Vestige(job, s, k)
  }

  ghost predicate Leftovers(job: Job, s: State)
    requires Shaped(job, s)
  {
    forall i :: 0 <= i < |job.chunks| ==> Leftover(job, s, i)
  }

  lemma BeginLeaves(job: Job, s: State, i: nat)
    requires Sound(job) && Inv(job, s) && Enabled(job, s, Begin) && i < |job.chunks|
    ensures Leftover(job, Apply(job, s, Begin), i)
  {
    var t := Apply(job, s, Begin);
    assert ChunkOk(job, s, i);
    PartitionBounds(job.chunks, job.total, i);
    assert t.frontier[i] == ReconcileOne(job.chunks[i], Load(job.chunks, s.saved)[i], |s.disk|).downloaded;
    if t.saved[i] > t.frontier[i] {
      forall k | job.chunks[i].start + t.frontier[i] <= k <= job.chunks[i].end ensures Vestige(job, t, k) {}
    }
  }

  lemma LandedGrows(writes: seq<Write>, s: State, t: State, w: Write, k: int)
    requires s.writes == writes && t.writes == writes + [w]
    ensures Landed(t, k) <==> Landed(s, k) || Left(w, k)
  {
    if Landed(s, k) {
      var a :| 0 <= a < |s.writes| && Left(s.writes[a], k);
      assert Left(t.writes[a], k);
    }
    if Left(w, k) { assert Left(t.writes[|writes|], k); }
    if Landed(t, k) {
      var a :| 0 <= a < |t.writes| && Left(t.writes[a], k);
      assert a < |writes| ==> Left(s.writes[a], k);
    }
  }

  /** A byte that a failed write put at offset k is the right one. */
  lemma FailedByte(job: Job, s: State, i: nat, n: int, k: int)
    requires Sound(job) && Fixed(job) && Inv(job, s) && Enabled(job, s, PutFails(i, n))
    requires s.workers[i].written <= k < s.workers[i].written + n
    ensures Same(job.content(0), Apply(job, s, PutFails(i, n)).disk, k)
  {
    var w := s.workers[i];
    assert ChunkOk(job, s, i);
    PartitionBounds(job.chunks, job.total, i);
    assert Agrees(job.content(s.origin[i]), w.response.body, w.first, k - w.first);
    assert job.content(s.origin[i]) == job.content(0);
  }

  /** The same offset of the file, untouched and with nothing landed on it. */
  lemma VestigeStays(job: Job, s: State, t: State, w: Write, k: int)
    requires Vestige(job, s, k) && t.writes == s.writes + [w] && !Left(w, k)
    requires |t.disk| == |s.disk| && t.disk[k] == s.disk[k]
    ensures Vestige(job, t, k)
  {
    LandedGrows(s.writes, s, t, w, k);
  }

  /** An offset that a failed write has just put a byte on. */
  lemma LandedIsVestige(job: Job, s: State, step: Step, t: State, k: int)
    requires Sound(job) && Inv(job, s) && Enabled(job, s, step) && step.PutFails? && t == Apply(job, s, step)
    requires s.workers[step.i].written <= k < s.workers[step.i].written + step.n && Landed(t, k) && 0 <= k < |s.disk|
    ensures Vestige(job, t, k)
  {
    if Fixed(job) { FailedByte(job, s, step.i, step.n, k); }
  }

  /** What the last write of a state left. */
  lemma LastLanded(s: State, w: Write, t: State, k: int)
    requires t.writes == s.writes + [w] && Left(w, k)
    ensures Landed(t, k)
  {
    assert Left(t.writes[|s.writes|], k);
  }

  /** Where a write changes the file. */
  lemma WriteReach(job: Job, s: State, step: Step, t: State, k: int)
    requires Sound(job) && Inv(job, s) && Enabled(job, s, step) && Writes(step) && t == Apply(job, s, step)
    requires 0 <= k < |s.disk|
    ensures var w := s.workers[step.i];
      && |t.disk| == |s.disk| && (!(w.written <= k < w.written + step.n) ==> t.disk[k] == s.disk[k])
      && w.written == job.chunks[step.i].start + s.frontier[step.i]
  {
    assert ChunkOk(job, s, step.i);
    PartitionBounds(job.chunks, job.total, step.i);
  }

  /** One offset beyond the frontier of chunk i, over a write of its own worker. */
  lemma OwnWriteLeaves(job: Job, s: State, step: Step, t: State, k: int)
    requires Sound(job) && Inv(job, s) && Vestige(job, s, k)
    requires Enabled(job, s, step) && Writes(step) && t == Apply(job, s, step)
    requires job.chunks[step.i].start + t.frontier[step.i] <= k <= job.chunks[step.i].end
    ensures Vestige(job, t, k)
  {
    WriteLogged(job, s, step);
    WriteReach(job, s, step, t, k);
    var w := t.writes[|s.writes|];
    if Left(w, k) {
      LastLanded(s, w, t, k);
      LandedIsVestige(job, s, step, t, k);
    } else {
      VestigeStays(job, s, t, w, k);
    }
  }

  /** One offset of another chunk. */
  lemma OtherWriteLeaves(job: Job, s: State, step: Step, t: State, j: nat, k: int)
    requires Sound(job) && Inv(job, s) && j < |job.chunks| && Vestige(job, s, k)
    requires Enabled(job, s, step) && Writes(step) && t == Apply(job, s, step) && step.i != j
    requires job.chunks[j].start <= k <= job.chunks[j].end
    ensures Vestige(job, t, k)
  {
    WriteLogged(job, s, step);
    assert ChunkOk(job, s, step.i);
    WriteStaysInside(job, s, step.i, ReadBytes(s.workers[step.i], step.n), j);
    Disjoint(job, step.i, j);
    VestigeStays(job, s, t, t.writes[|s.writes|], k);
  }

  /** A write, failed or not, changes only what lies at its own chunk's frontier. */
  lemma WriteLeaves(job: Job, s: State, step: Step, t: State, j: nat)
    requires Sound(job) && Inv(job, s) && j < |job.chunks| && Leftover(job, s, j)
    requires Enabled(job, s, step) && Writes(step) && t == Apply(job, s, step)
    ensures Leftover(job, t, j)
  {
    WriteLogged(job, s, step);
    assert ChunkOk(job, s, j);
    if t.saved[j] > t.frontier[j] {
      forall k | job.chunks[j].start + t.frontier[j] <= k <= job.chunks[j].end ensures Vestige(job, t, k) {
        assert Vestige(job, s, k);
        if step.i == j { OwnWriteLeaves(job, s, step, t, k); } else { OtherWriteLeaves(job, s, step, t, j, k); }
      }
    }
  }

  lemma Disjoint(job: Job, i: nat, j: nat)
    requires Sound(job) && i < |job.chunks| && j < |job.chunks| && i != j
    ensures job.chunks[i].end < job.chunks[j].start || job.chunks[j].end < job.chunks[i].start
  {
    if i < j { PartitionOrdered(job.chunks, job.total, i, j); } else { PartitionOrdered(job.chunks, job.total, j, i); }
  }

  /** No other step touches the file during a run, and what reaches the database is never ahead of the frontier. */
  lemma OthersLeave(job: Job, s: State, step: Step, t: State, i: nat)
    requires Sound(job) && Inv(job, s) && i < |job.chunks| && Leftover(job, s, i)
    requires Enabled(job, s, step) && !Writes(step) && !step.Begin? && t == Apply(job, s, step)
    ensures Leftover(job, t, i)
  {
    assert ChunkOk(job, s, i);
    if t.phase != Idle && t.saved[i] > t.frontier[i] {
      assert s.phase != Idle && t.disk == s.disk && t.writes == s.writes && t.frontier == s.frontier;
      assert t.saved[i] == s.saved[i];
      forall k | job.chunks[i].start + t.frontier[i] <= k <= job.chunks[i].end ensures Vestige(job, t, k) {
        assert Vestige(job, s, k);
      }
    }
  }

  lemma StepLeaves(job: Job, s: State, step: Step, t: State)
    requires Sound(job) && Inv(job, s) && Leftovers(job, s) && Enabled(job, s, step) && t == Apply(job, s, step)
    ensures Leftovers(job, t)
  {
    forall i | 0 <= i < |job.chunks| ensures Leftover(job, t, i) {
      assert Leftover(job, s, i);
      if step.Begin? { BeginLeaves(job, s, i); }
      else if Writes(step) { WriteLeaves(job, s, step, t, i); }
      else { OthersLeave(job, s, step, t, i); }
    }
  }

  lemma {:induction false} RunsLeave(job: Job, s: State, trace: seq<Step>)
    requires Sound(job) && Inv(job, s) && Leftovers(job, s) && Runs(job, s, trace) && KillsSpared(job, s, trace)
    ensures Leftovers(job, After(job, s, trace))
    decreases |trace|
  {
    if trace != [] {
      StepKeeps(job, s, trace[0]);
      StepLeaves(job, s, trace[0], Apply(job, s, trace[0]));
      RunsLeave(job, Apply(job, s, trace[0]), trace[1..]);
    }
  }

  /** The start of the run that follows a kill. */
  ghost function Restarted(job: Job, s: State): State
    requires Shaped(job, s)
  {
    Apply(job, Apply(job, s, Kill), Begin)
  }

  lemma RestartedState(job: Job, s: State, i: nat, t: State)
    requires Sound(job) && Inv(job, s) && s.phase != Idle && i < |job.chunks| && t == Restarted(job, s)
    ensures t.progress[i].downloaded == s.saved[i] && t.disk == s.disk && t.origin == s.origin
  {
    assert ChunkOk(job, s, i);
    PartitionBounds(job.chunks, job.total, i);
    assert t.progress[i] == ReconcileOne(job.chunks[i], Load(job.chunks, s.saved)[i], |s.disk|);
    assert Resize(s.disk, job.total) == s.disk;
  }

  lemma FrontierIsHeld(job: Job, s: State, i: nat)
    requires Sound(job) && Inv(job, s) && s.phase != Idle && i < |job.chunks|
    ensures s.frontier[i] >= 0
    ensures Held(job.content(s.origin[i]), s.disk, job.chunks[i].start, job.chunks[i].start + s.frontier[i])
  {
    assert ChunkOk(job, s, i);
  }

  /** What the database claims of a chunk beyond its frontier, in any run. */
  lemma OverclaimIsVestige(job: Job, s: State, trace: seq<Step>, i: nat, k: int)
    requires Sound(job) && Reached(job, s, trace) && s.phase != Idle && i < |job.chunks|
    requires job.chunks[i].start + s.frontier[i] <= k < job.chunks[i].start + s.saved[i]
    ensures Vestige(job, s, k)
  {
    ReachedOk(job, s, trace);
    FreshOk(job);
    RunsLeave(job, Fresh(job), trace);
    assert ChunkOk(job, s, i) && Leftover(job, s, i);
  }

  lemma HeldTail(content: seq<Byte>, file: seq<Byte>, lo: int, mid: int, hi: int)
    requires Held(content, file, lo, mid) && lo <= mid
    ensures Held(content, file, lo, hi) <==> Held(content, file, mid, hi)
  {
    if Held(content, file, mid, hi) {
      forall k | lo <= k < hi ensures Same(content, file, k) {}
    }
    if Held(content, file, lo, hi) {
      forall k | mid <= k < hi ensures Same(content, file, k) {}
    }
  }

  /** A kill at any moment of any run. The next run credits chunk i with all the database claims, and that is backed
      exactly when the bytes from the chunk's frontier up to the claim agree with its version. Those bytes are zero, or
      landed by a failed write. */
  lemma KillAtAnyMoment(job: Job, s: State, trace: seq<Step>, i: nat, t: State)
    requires Sound(job) && Reached(job, s, trace) && s.phase != Idle && i < |job.chunks| && t == Restarted(job, s)
    ensures t.progress[i].downloaded == s.saved[i]
    ensures Backed(job, t, i, s.saved[i])
       <==> Held(job.content(s.origin[i]), s.disk,
                 job.chunks[i].start + s.frontier[i], job.chunks[i].start + s.saved[i])
    ensures forall k :: job.chunks[i].start + s.frontier[i] <= k < job.chunks[i].start + s.saved[i] ==>
              Vestige(job, s, k)
  {
    var lo := job.chunks[i].start;
    forall k | lo + s.frontier[i] <= k < lo + s.saved[i] ensures Vestige(job, s, k) {
      OverclaimIsVestige(job, s, trace, i, k);
    }
    ReachedOk(job, s, trace);
    RestartBacked(job, s, i, t);
  }

  lemma RestartBacked(job: Job, s: State, i: nat, t: State)
    requires Sound(job) && Inv(job, s) && s.phase != Idle && i < |job.chunks| && t == Restarted(job, s)
    ensures t.progress[i].downloaded == s.saved[i]
    ensures Backed(job, t, i, s.saved[i])
       <==> Held(job.content(s.origin[i]), s.disk,
                 job.chunks[i].start + s.frontier[i], job.chunks[i].start + s.saved[i])
  {
    var lo := job.chunks[i].start;
    RestartedState(job, s, i, t);
    FrontierIsHeld(job, s, i);
    HeldTail(job.content(s.origin[i]), s.disk, lo, lo + s.frontier[i], lo + s.saved[i]);
  }

  /** Against a fixed representation: chunk i survives the kill exactly when the bytes that no failed write has landed
      are zero remotely. */
  lemma KillAgainstFixed(job: Job, s: State, trace: seq<Step>, i: nat, t: State)
    requires Sound(job) && Fixed(job) && Reached(job, s, trace) && s.phase != Idle && i < |job.chunks|
    requires t == Restarted(job, s)
    ensures var lo := job.chunks[i].start;
      Backed(job, t, i, s.saved[i]) <==>
        forall k :: lo + s.frontier[i] <= k < lo + s.saved[i] && !Landed(s, k) ==> ZeroAt(job.content(0), k)
  {
    KillAtAnyMoment(job, s, trace, i, t);
    var content, lo := job.content(0), job.chunks[i].start;
    assert job.content(s.origin[i]) == content;
    forall k | lo + s.frontier[i] <= k < lo + s.saved[i]
      ensures Same(content, s.disk, k) <==> (!Landed(s, k) ==> ZeroAt(content, k))
    {
      assert Vestige(job, s, k);
    }
  }
}
