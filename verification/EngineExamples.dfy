/** Concrete histories that show the hypotheses of the engine theorems are needed. */
module EngineExamples {
  import opened Basics
  import opened Chunking
  import opened Engine
  import opened EngineInvariant
  import opened EngineTheorems
  import EngineHistories

  /** One byte was announced; the server then moves on to a two-byte version. */
  function Grown(): Job {
    Job([Chunk(0, 0, 0)], 1, 3, "v0", "", (v: nat) => if v == 0 then [7] else [8, 9], (x: string, v: nat) => v == 0)
  }

  const FULL: Response := Response(200, "", -1, [8, 9], true)

  /** The one-chunk states of the history below: a run against version 1. */
  function At(disk: seq<Byte>, p: Progress, w: Worker, saved: int, frontier: int, writes: seq<Write>): State {
    State(Running, Unfinished, false, disk, [p], [w], [saved], [], 1, [1], [0], [frontier], writes, false)
  }

  lemma GrownSound()
    ensures Sound(Grown())
  {
    assert "v0"[0] != "W/"[0];
    assert Validator(Grown()) == "v0";
  }

  lemma GrownBegins() returns (s: State, trace: seq<Step>)
    ensures Reached(Grown(), s, trace)
    ensures s == At([0], Progress(0, Pending), Unspawned, 0, 0, []).(origin := [0])
  {
    var job := Grown();
    var s0 := Fresh(job);
    var s1, t1 := Extend(job, s0, [], Advance);
    assert s1 == s0.(now := 1);
    s, trace := Extend(job, s1, t1, Begin);
    assert s.progress == [Progress(0, Pending)];
    assert Credits(s.progress) == [0];
    assert s.disk == [0];
  }

  lemma FullIsAccepted(s: State)
    requires s == At([0], Progress(0, Pending), Ready(0), 0, 0, []).(origin := [0])
    ensures Enabled(Grown(), s, Accepted(0, FULL))
    ensures Apply(Grown(), s, Accepted(0, FULL)) == At([0], Progress(0, Pending), Streaming(0, FULL, 0, 0), 0, 0, [])
  {
    assert Honest(Grown(), "", FULL, 1);
  }

  lemma FullIsPut(s: State)
    requires s == At([0], Progress(0, Pending), Streaming(0, FULL, 0, 0), 0, 0, [])
    ensures Enabled(Grown(), s, Put(0, 1))
    ensures Apply(Grown(), s, Put(0, 1))
         == At([8], Progress(0, Pending), Storing(0, FULL, 0, 0, 1), 0, 1, [Write(0, 0, 1, true)])
  {
    assert ReadBytes(s.workers[0], 1) == [8];
    OneByteWritten();
  }

  lemma OneByteWritten()
    ensures WriteAt([0], 0, [8]) == [8]
  {
  }

  lemma FullIsCredited(s: State)
    requires s == At([8], Progress(0, Pending), Storing(0, FULL, 0, 0, 1), 0, 1, [Write(0, 0, 1, true)])
    ensures Enabled(Grown(), s, Credit(0))
    ensures Apply(Grown(), s, Credit(0)) ==
            At([8], Progress(1, Downloading), Streaming(0, FULL, 0, 1), 0, 1, [Write(0, 0, 1, true)])
  {
  }

  lemma OverlongFails(s: State)
    requires s == At([8], Progress(1, Downloading), Streaming(0, FULL, 0, 1), 0, 1, [Write(0, 0, 1, true)])
    ensures Enabled(Grown(), s, Break(0))
    ensures Apply(Grown(), s, Break(0)) == At([8], Progress(1, Downloading), Failing(0), 0, 1, [Write(0, 0, 1, true)])
  {
  }

  lemma OverlongRetries(s: State)
    requires s == At([8], Progress(1, Downloading), Failing(0), 0, 1, [Write(0, 0, 1, true)])
    ensures Enabled(Grown(), s, Settle(0))
    ensures Apply(Grown(), s, Settle(0)) == At([8], Progress(1, Retrying), Waiting(0), 1, 1, [Write(0, 0, 1, true)])
  {
  }

  lemma Wakes(s: State)
    requires s == At([8], Progress(1, Retrying), Waiting(0), 1, 1, [Write(0, 0, 1, true)])
    ensures Enabled(Grown(), s, Wake(0))
    ensures Apply(Grown(), s, Wake(0)) == At([8], Progress(1, Retrying), Ready(1), 1, 1, [Write(0, 0, 1, true)])
  {
  }

  lemma NothingLeft(s: State)
    requires s == At([8], Progress(1, Retrying), Ready(1), 1, 1, [Write(0, 0, 1, true)])
    ensures Enabled(Grown(), s, Satisfied(0))
    ensures Apply(Grown(), s, Satisfied(0)) == At([8], Progress(1, Retrying), Fetched(1), 1, 1, [Write(0, 0, 1, true)])
  {
  }

  lemma NothingLeftCompletes(s: State)
    requires s == At([8], Progress(1, Retrying), Fetched(1), 1, 1, [Write(0, 0, 1, true)])
    ensures Enabled(Grown(), s, Settle(0))
    ensures Apply(Grown(), s, Settle(0)) == At([8], Progress(1, Completed), Done, 1, 1, [Write(0, 0, 1, true)])
  {
  }

  lemma ReportsSuccess(s: State)
    requires s == At([8], Progress(1, Completed), Done, 1, 1, [Write(0, 0, 1, true)]).(phase := Flushing(1))
    ensures Enabled(Grown(), s, Return(true)) && Apply(Grown(), s, Return(true)).outcome == Success
  {
    assert Credits(s.progress) == [1];
    assert Sum([1]) == 1 by { assert [1][..0] == []; }
  }

  lemma GrownUntilFailedAttempt() returns (s: State, trace: seq<Step>)
    ensures Reached(Grown(), s, trace)
    ensures s == At([8], Progress(1, Retrying), Waiting(0), 1, 1, [Write(0, 0, 1, true)])
  {
    var job := Grown();
    s, trace := GrownBegins();
    s, trace := Extend(job, s, trace, Spawn(0));
    FullIsAccepted(s);
    s, trace := Extend(job, s, trace, Accepted(0, FULL));
    FullIsPut(s);
    s, trace := Extend(job, s, trace, Put(0, 1));
    FullIsCredited(s);
    s, trace := Extend(job, s, trace, Credit(0));
    OverlongFails(s);
    s, trace := Extend(job, s, trace, Break(0));
    OverlongRetries(s);
    s, trace := Extend(job, s, trace, Settle(0));
  }

  lemma AllQuiet(s: State)
    requires s == At([8], Progress(1, Completed), Done, 1, 1, [Write(0, 0, 1, true)])
    ensures Enabled(Grown(), s, StartFlush) && Apply(Grown(), s, StartFlush) == s.(phase := Flushing(0))
  {
  }

  lemma OneFlushed(s: State)
    requires s == At([8], Progress(1, Completed), Done, 1, 1, [Write(0, 0, 1, true)]).(phase := Flushing(0))
    ensures Enabled(Grown(), s, FlushOne) && Apply(Grown(), s, FlushOne) == s.(phase := Flushing(1))
  {
    assert s.saved[0 := 1] == s.saved;
  }

  lemma GrownUntilFetched() returns (s: State, trace: seq<Step>)
    ensures Reached(Grown(), s, trace)
    ensures s == At([8], Progress(1, Retrying), Fetched(1), 1, 1, [Write(0, 0, 1, true)])
  {
    s, trace := GrownUntilFailedAttempt();
    Wakes(s);
    s, trace := Extend(Grown(), s, trace, Wake(0));
    NothingLeft(s);
    s, trace := Extend(Grown(), s, trace, Satisfied(0));
  }

  lemma GrownUntilCompleted() returns (s: State, trace: seq<Step>)
    ensures Reached(Grown(), s, trace)
    ensures s == At([8], Progress(1, Completed), Done, 1, 1, [Write(0, 0, 1, true)])
  {
    s, trace := GrownUntilFetched();
    NothingLeftCompletes(s);
    s, trace := Extend(Grown(), s, trace, Settle(0));
  }

  lemma GrownUntilFlushing() returns (s: State, trace: seq<Step>)
    ensures Reached(Grown(), s, trace)
    ensures s == At([8], Progress(1, Completed), Done, 1, 1, [Write(0, 0, 1, true)]).(phase := Flushing(0))
  {
    s, trace := GrownUntilCompleted();
    AllQuiet(s);
    s, trace := Extend(Grown(), s, trace, StartFlush);
  }

  lemma GrownUntilFlushed() returns (s: State, trace: seq<Step>)
    ensures Reached(Grown(), s, trace)
    ensures s == At([8], Progress(1, Completed), Done, 1, 1, [Write(0, 0, 1, true)]).(phase := Flushing(1))
  {
    s, trace := GrownUntilFlushing();
    OneFlushed(s);
    s, trace := Extend(Grown(), s, trace, FlushOne);
  }

  /** The quirk of the boundary check: a whole-file answer of undeclared length fills the chunk, is then found to
      be too long and fails the attempt; the next attempt finds nothing left to fetch and reports success. The
      published file is a strict prefix of the version it came from, so the length commitment asked for by
      SingleChunkIsWholeVersion cannot be dropped. */
  lemma UndeclaredLengthCutsTheFile() returns (s: State, trace: seq<Step>)
    ensures Sound(Grown()) && |Grown().chunks| == 1
    ensures Reached(Grown(), s, trace) && Enabled(Grown(), s, Return(true))
    ensures Apply(Grown(), s, Return(true)).outcome == Success
    ensures s.disk == [8] && Grown().content(s.origin[0]) == [8, 9]
  {
    GrownSound();
    s, trace := GrownUntilFlushed();
    ReportsSuccess(s);
  }

  /** A kill right after Begin, on a download whose part file had been deleted: the next run credits a byte that is not
      in the file. */
  lemma LostByteIsCredited() returns (s: State, trace: seq<Step>)
    ensures Reached(Grown(), s, trace) && Enabled(Grown(), s, Begin) && s.saved == [1] && s.disk == []
    ensures Rerun(Grown(), s).progress[0].downloaded == 1 && !Backed(Grown(), Rerun(Grown(), s), 0, 1)
  {
    GrownSound();
    s, trace := EngineHistories.KillUnbacks(Grown(), 1, 0);
  }

  lemma NoVersionBeginsWithZero(v: nat)
    ensures EngineHistories.Single(Grown()) && Grown().total <= |Grown().content(1)|
    ensures !(Zeros(Grown().total) <= Grown().content(v))
  {
    GrownSound();
    assert Zeros(1)[0] == 0 && Grown().content(v)[0] != 0;
  }

  /** And that run goes on to report success on a file that no version of the resource begins with. Up to the kill the
      history is an ordinary one. */
  lemma SuccessOnNobodysBytes() returns (s: State, trace: seq<Step>, before: State, prefix: seq<Step>)
    ensures Sound(Grown()) && Reached(Grown(), before, prefix) && trace == prefix + [Kill] + EngineHistories.RESUMED
    ensures Runs(Grown(), Fresh(Grown()), trace) && s == After(Grown(), Fresh(Grown()), trace)
    ensures Enabled(Grown(), s, Return(true)) && Apply(Grown(), s, Return(true)).outcome == Success
    ensures s.disk == [0] && forall v: nat :: !(s.disk <= Grown().content(v))
  {
    GrownSound();
    NoVersionBeginsWithZero(1);
    s, trace, before, prefix := EngineHistories.KillPublishesZeros(Grown(), 1);
    OneZero(s.disk);
  }

  lemma OneZero(disk: seq<Byte>)
    requires disk == Zeros(Grown().total)
    ensures disk == [0] && forall v: nat :: !(disk <= Grown().content(v))
  {
    assert |disk| == 1 && disk[0] == 0;
    forall v: nat ensures !(disk <= Grown().content(v)) { NoVersionBeginsWithZero(v); }
  }
}
