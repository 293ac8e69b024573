/** Conservation of bytes within one run, and when a single-chunk file is a whole representation. */
module EngineLedger {
  import opened Chunking
  import opened Engine
  import opened EngineInvariant
  import opened EngineTheorems

  /** The bytes of the writes that succeeded. */
  function Total(writes: seq<Write>): int {
    if writes == [] then 0
    else
      var last := writes[|writes| - 1];
      Total(writes[..|writes| - 1]) + (if last.ok then last.hi - last.lo else 0)
  }

  /** A write lies inside its own chunk, behind what the chunk started the run with; one that succeeded lies below the
      chunk's frontier. */
  predicate InPlace(job: Job, s: State, w: Write)
    requires Shaped(job, s)
  {
    && w.chunk < |job.chunks|
    && job.chunks[w.chunk].start + s.base[w.chunk] <= w.lo <= w.hi <= job.chunks[w.chunk].end + 1
    && (w.ok ==> w.lo < w.hi <= job.chunks[w.chunk].start + s.frontier[w.chunk])
  }

  predicate Apart(a: Write, b: Write) { a.hi <= b.lo || b.hi <= a.lo }

  /** Two writes meet only when the earlier one failed and the later one is its chunk's next try. */
  predicate MeetOnlyAfterFailure(a: Write, b: Write) {
    Apart(a, b) || (!a.ok && a.chunk == b.chunk)
  }

  /** The account of one run: no offset written again after a success, nothing outside its chunk, every byte accounted
      for. */
  ghost predicate Ledger(job: Job, s: State)
    requires Shaped(job, s)
  {
    s.phase != Idle ==>
      && (forall a :: 0 <= a < |s.writes| ==> InPlace(job, s, s.writes[a]))
      && (forall a, b :: 0 <= a < b < |s.writes| ==> MeetOnlyAfterFailure(s.writes[a], s.writes[b]))
      && Total(s.writes) == Sum(s.frontier) - Sum(s.base)
  }

  lemma {:induction false} SumUpdate(xs: seq<int>, i: nat, v: int)
    requires i < |xs|
    ensures Sum(xs[i := v]) == Sum(xs) - xs[i] + v
  {
    var last := |xs| - 1;
    if i == last {
      assert xs[i := v][..last] == xs[..last];
    } else {
      SumUpdate(xs[..last], i, v);
      assert xs[i := v][..last] == xs[..last][i := v];
    }
  }

  lemma OthersKeepLedger(job: Job, s: State, step: Step)
    requires Enabled(job, s, step) && Ledger(job, s) && !step.Begin? && !step.Put? && !step.PutFails?
    ensures Ledger(job, Apply(job, s, step))
  {
    var t := Apply(job, s, step);
    assert t.writes == s.writes && t.frontier == s.frontier && t.base == s.base;
    if t.phase != Idle {
      forall a | 0 <= a < |t.writes| ensures InPlace(job, t, t.writes[a]) { assert InPlace(job, s, s.writes[a]); }
    }
  }

  /** A write at the frontier of chunk i is apart from every earlier write of the run, except for failed ones of the
      same chunk. */
  lemma FrontierIsNew(job: Job, s: State, i: nat, n: int, ok: bool, x: Write)
    requires Sound(job) && Inv(job, s) && s.phase != Idle && i < |job.chunks| && 0 <= n
    requires s.frontier[i] + n <= job.chunks[i].Length() && InPlace(job, s, x)
    ensures MeetOnlyAfterFailure(
              x, Write(i, job.chunks[i].start + s.frontier[i], job.chunks[i].start + s.frontier[i] + n, ok))
  {
    assert ChunkOk(job, s, i) && ChunkOk(job, s, x.chunk);
    if x.chunk < i { PartitionOrdered(job.chunks, job.total, x.chunk, i); }
    if x.chunk > i { PartitionOrdered(job.chunks, job.total, i, x.chunk); }
  }

  predicate Writes(step: Step) { step.Put? || step.PutFails? }

  /** What either kind of write adds to the log. */
  lemma WriteLogged(job: Job, s: State, step: Step)
    requires Sound(job) && Inv(job, s) && Enabled(job, s, step) && Writes(step)
    ensures var t, lo := Apply(job, s, step), job.chunks[step.i].start + s.frontier[step.i];
      && t.writes == s.writes + [Write(step.i, lo, lo + step.n, step.Put?)]
      && t.base == s.base && t.phase == s.phase
      && t.frontier == (if step.Put? then s.frontier[step.i := s.frontier[step.i] + step.n] else s.frontier)
      && 0 <= step.n && s.frontier[step.i] + step.n <= job.chunks[step.i].Length()
      && InPlace(job, t, t.writes[|s.writes|])
  {
    assert ChunkOk(job, s, step.i);
  }

  lemma WriteApart(job: Job, s: State, step: Step, t: State, a: nat)
    requires Sound(job) && Inv(job, s) && Ledger(job, s) && Enabled(job, s, step) && Writes(step)
    requires t == Apply(job, s, step) && a < |s.writes|
    ensures t.writes == s.writes + [t.writes[|s.writes|]]
    ensures InPlace(job, t, s.writes[a]) && MeetOnlyAfterFailure(s.writes[a], t.writes[|s.writes|])
  {
    WriteLogged(job, s, step);
    assert InPlace(job, s, s.writes[a]);
    FrontierIsNew(job, s, step.i, step.n, step.Put?, s.writes[a]);
  }

  lemma TotalAppend(writes: seq<Write>, w: Write)
    ensures Total(writes + [w]) == Total(writes) + (if w.ok then w.hi - w.lo else 0)
  {
    assert (writes + [w])[..|writes|] == writes;
  }

  /** The total of the log moves with the frontiers when a write is added. */
  lemma WriteTotals(s: State, t: State, w: Write)
    requires Total(s.writes) == Sum(s.frontier) - Sum(s.base)
    requires t.writes == s.writes + [w] && t.base == s.base && w.chunk < |s.frontier|
    requires t.frontier == if w.ok then s.frontier[w.chunk := s.frontier[w.chunk] + w.hi - w.lo] else s.frontier
    ensures Total(t.writes) == Sum(t.frontier) - Sum(t.base)
  {
    TotalAppend(s.writes, w);
    if w.ok { SumUpdate(s.frontier, w.chunk, s.frontier[w.chunk] + w.hi - w.lo); }
  }

  lemma WriteKeepsLedger(job: Job, s: State, step: Step, t: State)
    requires Sound(job) && Inv(job, s) && Ledger(job, s) && Enabled(job, s, step) && Writes(step)
    requires t == Apply(job, s, step)
    ensures Ledger(job, t)
  {
    WriteLogged(job, s, step);
    forall a | 0 <= a < |s.writes|
      ensures InPlace(job, t, s.writes[a]) && MeetOnlyAfterFailure(s.writes[a], t.writes[|s.writes|])
    {
      WriteApart(job, s, step, t, a);
    }
    WriteTotals(s, t, t.writes[|s.writes|]);
  }

  lemma StepKeepsLedger(job: Job, s: State, step: Step)
    requires Sound(job) && Inv(job, s) && Ledger(job, s) && Enabled(job, s, step)
    ensures Ledger(job, Apply(job, s, step))
  {
    if Writes(step) { WriteKeepsLedger(job, s, step, Apply(job, s, step)); }
    else if !step.Begin? { OthersKeepLedger(job, s, step); }
  }

  lemma {:induction false} RunsKeepLedger(job: Job, s: State, trace: seq<Step>)
    requires Sound(job) && Inv(job, s) && Ledger(job, s) && Runs(job, s, trace) && KillsSpared(job, s, trace)
    ensures Ledger(job, After(job, s, trace))
    decreases |trace|
  {
    if trace != [] {
      StepKeeps(job, s, trace[0]);
      StepKeepsLedger(job, s, trace[0]);
      RunsKeepLedger(job, Apply(job, s, trace[0]), trace[1..]);
    }
  }

  /** In every run, over all attempts of all workers, failed writes included: no write leaves its chunk, writes of
      different chunks never meet, and two writes that meet belong to one chunk and the earlier of them failed. */
  lemma NoOffsetWrittenTwice(job: Job, s: State, trace: seq<Step>, a: nat, b: nat)
    requires Sound(job) && Reached(job, s, trace) && s.phase != Idle && a < b < |s.writes|
    ensures InPlace(job, s, s.writes[a]) && InPlace(job, s, s.writes[b])
    ensures s.writes[a].chunk != s.writes[b].chunk ==> Apart(s.writes[a], s.writes[b])
    ensures !Apart(s.writes[a], s.writes[b]) ==> s.writes[a].chunk == s.writes[b].chunk && !s.writes[a].ok
  {
    FreshOk(job);
    RunsKeepLedger(job, Fresh(job), trace);
    assert MeetOnlyAfterFailure(s.writes[a], s.writes[b]);
  }

  /** A run that succeeds has written exactly the bytes that reconciliation had not credited. */
  lemma SuccessWritesTheRest(job: Job, s: State, trace: seq<Step>, ioOk: bool)
    requires Sound(job) && Reached(job, s, trace) && Enabled(job, s, Return(ioOk))
    requires Apply(job, s, Return(ioOk)).outcome == Success
    ensures Total(s.writes) == job.total - Sum(s.base)
  {
    FreshOk(job);
    RunsKeepLedger(job, Fresh(job), trace);
    ReachedOk(job, s, trace);
    forall i | 0 <= i < |job.chunks| ensures s.frontier[i] == s.progress[i].downloaded { assert ChunkOk(job, s, i); }
    assert s.frontier == Credits(s.progress);
  }

  // ---------------------------------------------------------------- whole representations

  predicate Underway(s: State, i: nat)
    requires i < |s.progress| == |s.saved| == |s.workers|
  {
    s.progress[i].downloaded > 0 || s.saved[i] > 0 || s.workers[i].Streaming? || s.workers[i].Storing?
  }

  /** Every chunk with anything to its name comes from a version of the declared size. */
  ghost predicate Sized(job: Job, s: State)
    requires Shaped(job, s)
  {
    forall i :: 0 <= i < |job.chunks| && Underway(s, i) ==> |job.content(s.origin[i])| == job.total
  }

  /** The response commits to a length: a 206 by its Content-Range, a 200 by Content-Length. */
  predicate Committed(step: Step) {
    step.Accepted? ==> step.response.code == 206 || step.response.contentLength >= 0
  }

  lemma AcceptedKeepsSized(job: Job, s: State, i: nat, r: Response)
    requires Sound(job) && Inv(job, s) && Sized(job, s)
    requires Enabled(job, s, Accepted(i, r)) && Committed(Accepted(i, r))
    ensures Sized(job, Apply(job, s, Accepted(i, r)))
  {
    var t := Apply(job, s, Accepted(i, r));
    assert ChunkOk(job, s, i);
    forall j | 0 <= j < |job.chunks| && Underway(t, j) ensures |job.content(t.origin[j])| == job.total {
      if j != i || s.progress[i].downloaded > 0 { assert Underway(s, j); }
    }
  }

  lemma WorkersKeepSized(job: Job, s: State, step: Step)
    requires Inv(job, s) && Sized(job, s) && Enabled(job, s, step) && ByWorker(step)
    ensures Sized(job, Apply(job, s, step))
  {
    var t := Apply(job, s, step);
    forall i | 0 <= i < |job.chunks| && Underway(t, i) ensures |job.content(t.origin[i])| == job.total {
      assert t.origin == s.origin;
      assert ChunkOk(job, s, i) && Underway(s, i);
    }
  }

  lemma OthersKeepSized(job: Job, s: State, step: Step)
    requires Inv(job, s) && Sized(job, s) && Enabled(job, s, step) && !step.Accepted? && !ByWorker(step)
    ensures Sized(job, Apply(job, s, step))
  {
    var t := Apply(job, s, step);
    forall i | 0 <= i < |job.chunks| && Underway(t, i) ensures |job.content(t.origin[i])| == job.total {
      assert t.origin == s.origin;
      assert ChunkOk(job, s, i) && Underway(s, i);
    }
  }

  lemma StepKeepsSized(job: Job, s: State, step: Step)
    requires Sound(job) && Inv(job, s) && Sized(job, s) && Enabled(job, s, step) && Committed(step)
    ensures Sized(job, Apply(job, s, step))
  {
    if step.Accepted? { AcceptedKeepsSized(job, s, step.i, step.response); }
    else if ByWorker(step) { WorkersKeepSized(job, s, step); }
    else { OthersKeepSized(job, s, step); }
  }

  lemma {:induction false} RunsKeepSized(job: Job, s: State, trace: seq<Step>)
    requires Sound(job) && Inv(job, s) && Sized(job, s) && Runs(job, s, trace) && KillsSpared(job, s, trace)
    requires forall k :: 0 <= k < |trace| ==> Committed(trace[k])
    ensures Sized(job, After(job, s, trace))
    decreases |trace|
  {
    if trace != [] {
      StepKeeps(job, s, trace[0]);
      StepKeepsSized(job, s, trace[0]);
      RunsKeepSized(job, Apply(job, s, trace[0]), trace[1..]);
    }
  }

  /** A single-chunk success is a whole version exactly when that version has the declared length. */
  lemma SingleChunkWholeIff(job: Job, s: State, trace: seq<Step>, ioOk: bool)
    requires Sound(job) && |job.chunks| == 1
    requires Reached(job, s, trace) && Enabled(job, s, Return(ioOk))
    requires Apply(job, s, Return(ioOk)).outcome == Success
    ensures s.disk == job.content(s.origin[0]) <==> |job.content(s.origin[0])| == job.total
  {
    SingleChunkFromOneVersion(job, s, trace, ioOk);
  }

  /** A single-chunk download whose accepted responses all commit to a length is, on success, one whole version. */
  lemma SingleChunkIsWholeVersion(job: Job, s: State, trace: seq<Step>, ioOk: bool)
    requires Sound(job) && |job.chunks| == 1
    requires Reached(job, s, trace) && Enabled(job, s, Return(ioOk))
    requires Apply(job, s, Return(ioOk)).outcome == Success
    requires forall k :: 0 <= k < |trace| ==> Committed(trace[k])
    ensures s.disk == job.content(s.origin[0])
  {
    FreshOk(job);
    RunsKeepSized(job, Fresh(job), trace);
    SingleChunkFromOneVersion(job, s, trace, ioOk);
    ReachedOk(job, s, trace);
    assert ChunkOk(job, s, 0);
    assert Underway(s, 0);
  }
}
