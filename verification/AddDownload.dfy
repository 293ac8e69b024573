/** Adding a download: a file name no live record has, the byte ranges handed to storage, and the start or schedule that
    follows. */
module AddDownload {
  import opened Basics
  import opened Wrappers
  import opened Tables
  import opened ChunkTable
  import opened Chunking
  import opened StateManagerModel
  import opened ManagerModel
  import Decimal
  import QueueRuns
  import Scheduler

  predicate Separator(c: char) {
    c == '/' || c == '\\'
  }

  /** No dot and no path separator: what may follow the dot of an extension. */
  predicate Plain(s: string) {
    forall k :: 0 <= k < |s| ==> s[k] != '.' && !Separator(s[k])
  }

  /** The extension: from the last dot on, unless a path separator comes first; empty when there is no such dot. */
  predicate IsExtension(filename: string, ext: string) {
    && |ext| <= |filename| && filename[|filename| - |ext|..] == ext
    && (ext != "" ==> ext[0] == '.' && Plain(ext[1..]))
    && (ext == "" ==> forall k :: 0 <= k < |filename| && filename[k] == '.' ==> !Plain(filename[k + 1..]))
  }

  /** extOf. */
  method ExtOf(filename: string) returns (ext: string)
    ensures IsExtension(filename, ext)
  {
    var i := |filename| - 1;
    while i >= 0
      invariant -1 <= i < |filename| && Plain(filename[i + 1..])
    {
      if filename[i] == '.' { return filename[i..]; }
      if Separator(filename[i]) {
        forall k | 0 <= k < |filename| && filename[k] == '.' ensures !Plain(filename[k + 1..]) {
          assert k < i ==> filename[k + 1..][i - k - 1] == filename[i];
        }
        break;
      }
      i := i - 1;
    }
    return "";
  }

  /** fmt.Sprintf("%s (#%d)%s", base, i, ext). */
  function Candidate(base: string, ext: string, i: nat): string {
    base + " (#" + Decimal.Print(i) + ")" + ext
  }

  /** The k-th name the loop looks up. */
  function Probe(base: string, ext: string, k: nat): string {
    if k == 0 then base + ext else Candidate(base, ext, k)
  }

  lemma CandidatesDiffer(base: string, ext: string, i: nat, j: nat)
    requires Candidate(base, ext, i) == Candidate(base, ext, j)
    ensures i == j
  {
    var head, p, q := base + " (#", Decimal.Print(i), Decimal.Print(j);
    var a, b := Candidate(base, ext, i), Candidate(base, ext, j);
    assert |p| == |q|;
    assert p == a[|head|..|head| + |p|] && q == b[|head|..|head| + |q|];
    Decimal.PrintInjective(i, j);
  }

  /** All probes are different names. */
  lemma ProbesDiffer(base: string, ext: string, i: nat, j: nat)
    requires i != j
    ensures Probe(base, ext, i) != Probe(base, ext, j)
  {
    if i > 0 && j > 0 && Probe(base, ext, i) == Probe(base, ext, j) {
      CandidatesDiffer(base, ext, i, j);
    }
  }

  function LiveIds(rows: Rows): set<int> {
    set id | id in rows && !rows[id].deleted
  }

  function LiveNames(rows: Rows): set<string> {
    set id | id in rows && !rows[id].deleted :: rows[id].filename
  }

  lemma {:induction false} NamesAtMostIds(rows: Rows, ids: set<int>)
    requires ids <= LiveIds(rows)
    ensures |set id | id in ids :: rows[id].filename| <= |ids|
  {
    var names := set id | id in ids :: rows[id].filename;
    if ids == {} {
      assert names == {};
    } else {
      ghost var id := SomeId(ids);
      var rest := set x | x in ids - {id} :: rows[x].filename;
      NamesAtMostIds(rows, ids - {id});
      assert names == rest + {rows[id].filename};
    }
  }

  /** FilenameExists. */
  predicate FilenameExists(rows: Rows, filename: string) {
    exists id :: id in rows && !rows[id].deleted && rows[id].filename == filename
  }

  /** The names among the first n probes. */
  ghost predicate Tried(base: string, ext: string, n: nat, tried: set<string>) {
    forall name :: name in tried ==> exists k :: 0 <= k < n && name == Probe(base, ext, k)
  }

  predicate AllTaken(rows: Rows, base: string, ext: string, n: nat) {
    forall k :: 0 <= k < n ==> FilenameExists(rows, Probe(base, ext, k))
  }

  lemma NextProbeIsNew(base: string, ext: string, n: nat, tried: set<string>)
    requires Tried(base, ext, n, tried)
    ensures Probe(base, ext, n) !in tried
    ensures Tried(base, ext, n + 1, tried + {Probe(base, ext, n)})
  {
    forall k | 0 <= k < n ensures Probe(base, ext, k) != Probe(base, ext, n) { ProbesDiffer(base, ext, k, n); }
  }

  /** n probes, all different and all taken. */
  ghost predicate Searched(rows: Rows, base: string, ext: string, n: nat, tried: set<string>) {
    Tried(base, ext, n, tried) && |tried| == n && tried <= LiveNames(rows) && AllTaken(rows, base, ext, n)
  }

  lemma SearchOn(rows: Rows, base: string, ext: string, n: nat, tried: set<string>)
    requires Searched(rows, base, ext, n, tried) && FilenameExists(rows, Probe(base, ext, n))
    ensures Searched(rows, base, ext, n + 1, tried + {Probe(base, ext, n)})
    ensures LiveNames(rows) - (tried + {Probe(base, ext, n)}) < LiveNames(rows) - tried
  {
    var name := Probe(base, ext, n);
    NextProbeIsNew(base, ext, n, tried);
    assert name in LiveNames(rows);
    assert name in LiveNames(rows) - tried;
  }

  lemma TriedAtMostLive(rows: Rows, tried: set<string>)
    requires tried <= LiveNames(rows)
    ensures |tried| <= |LiveIds(rows)|
  {
    SubsetSize(tried, LiveNames(rows));
    NamesAtMostIds(rows, LiveIds(rows));
    assert LiveNames(rows) == set id | id in LiveIds(rows) :: rows[id].filename;
  }

  /** The loop that looks for a free name. It ends whatever names are taken, after at most one lookup more than there
      are live records, and settles on the first free name it comes to. */
  method FreshName(rows: Rows, original: string) returns (filename: string, probes: nat, base: string, ext: string)
    ensures IsExtension(original, ext) && original == base + ext
    ensures 1 <= probes <= |LiveIds(rows)| + 1
    ensures filename == Probe(base, ext, probes - 1) && !FilenameExists(rows, filename)
    ensures AllTaken(rows, base, ext, probes - 1)
    ensures filename == if probes == 1 then original else base + " (#" + Decimal.Print(probes - 1) + ")" + ext
    ensures probes > 1 ==> FilenameExists(rows, original)
    ensures forall k :: 0 < k < probes - 1 ==> FilenameExists(rows, base + " (#" + Decimal.Print(k) + ")" + ext)
  {
    ext := ExtOf(original);
    base := original[..|original| - |ext|];
    filename, probes := NumberUntilFree(rows, original, base, ext);
    if probes > 1 { assert FilenameExists(rows, Probe(base, ext, 0)); }
    forall k | 0 < k < probes - 1 ensures FilenameExists(rows, base + " (#" + Decimal.Print(k) + ")" + ext) {
      assert FilenameExists(rows, Probe(base, ext, k));
    }
  }

  method NumberUntilFree(rows: Rows, original: string, base: string, ext: string)
    returns (filename: string, probes: nat)
    requires original == base + ext
    ensures 1 <= probes <= |LiveIds(rows)| + 1
    ensures filename == Probe(base, ext, probes - 1) && !FilenameExists(rows, filename)
    ensures AllTaken(rows, base, ext, probes - 1)
  {
    filename := original;
    var i: nat := 1;
    ghost var tried: set<string> := {};
    while FilenameExists(rows, filename)
      invariant i >= 1 && filename == Probe(base, ext, i - 1)
      invariant Searched(rows, base, ext, i - 1, tried)
      decreases LiveNames(rows) - tried
    {
      SearchOn(rows, base, ext, i - 1, tried);
      tried := tried + {filename};
      filename := base + " (#" + Decimal.Print(i) + ")" + ext;
      i := i + 1;
    }
    TriedAtMostLive(rows, tried);
    probes := i;
  }

  /** The number goes in front of the extension, which stays the same. */
  lemma CandidateKeepsExtension(base: string, ext: string, i: nat)
    requires IsExtension(base + ext, ext)
    ensures IsExtension(Candidate(base, ext, i), ext)
  {
    var name := Candidate(base, ext, i);
    assert name[|name| - |ext|..] == ext;
    if ext == "" {
      var tail := " (#" + Decimal.Print(i) + ")";
      assert name == base + tail && base + ext == base;
      forall k | 0 <= k < |name| && name[k] == '.' ensures !Plain(name[k + 1..]) {
        if k >= |base| {
          assert name[k] == tail[k - |base|];
          TailIsPlain(i);
          assert false;
        } else {
          assert base[k] == '.' && !Plain(base[k + 1..]);
          var j :| 0 <= j < |base[k + 1..]| && (base[k + 1..][j] == '.' || Separator(base[k + 1..][j]));
          assert name[k + 1..][j] == base[k + 1..][j];
        }
      }
    }
  }

  lemma TailIsPlain(i: nat)
    ensures Plain(" (#" + Decimal.Print(i) + ")")
  {
    var digits := Decimal.Print(i);
    assert Decimal.AllDigits(digits);
    var tail := " (#" + digits + ")";
    forall k | 0 <= k < |tail| ensures tail[k] != '.' && !Separator(tail[k]) {
      if 3 <= k < 3 + |digits| { assert tail[k] == digits[k - 3] && Decimal.IsDigit(digits[k - 3]); }
    }
  }

  /** What HandleAdd stores: a new row under a free name, and chunk rows numbered from 0 that cut the file up. */
  ghost predicate Stored(before: Rows, state: StateManager, id: int, original: string, size: int64, supportsRange: bool,
                         numChunks: int64, cs: seq<Chunk>)
    reads state
  {
    && id !in before && id in state.downloads
    && !FilenameExists(before, state.downloads[id].filename)
    && (!FilenameExists(before, original) ==> state.downloads[id].filename == original)
    && (size > 0 ==> Partition(cs, size as int))
    && (size > 0 && supportsRange && numChunks > 1 ==> |cs| == Min(numChunks as int, size as int))
    && (!supportsRange || numChunks <= 1 || size <= 0 ==> |cs| == 1)
    && |ChunksOf(state.chunks, id)| == |cs|
    && forall k :: 0 <= k < |cs| ==>
         ChunksOf(state.chunks, id)[k] == ChunkRow(id, k, cs[k].start, cs[k].end, 0, "pending")
  }

  /** The starts and ends handed to storage. */
  method Bounds(cs: seq<Chunk>) returns (starts: array<int>, ends: array<int>)
    ensures fresh(starts) && fresh(ends) && starts.Length == ends.Length == |cs|
    ensures forall k :: 0 <= k < |cs| ==> starts[k] == cs[k].start && ends[k] == cs[k].end
  {
    starts, ends := new int[|cs|], new int[|cs|];
    for i := 0 to |cs|
      invariant forall k :: 0 <= k < i ==> starts[k] == cs[k].start && ends[k] == cs[k].end
    {
      starts[i] := cs[i].start;
      ends[i] := cs[i].end;
    }
  }

  /** From choosing the name to handing the id to the queue or the scheduler. */
  method Create(state: StateManager, original: string, size: int64, supportsRange: bool, numChunks: int64, now: int)
    returns (id: int, ghost cs: seq<Chunk>)
    requires state.Valid()
    modifies state
    ensures state.Valid() && Stored(old(state.downloads), state, id, original, size, supportsRange, numChunks, cs)
    ensures exists name :: state.downloads
              == old(state.downloads)[id := Row(name, Pending, None, None, false, now, 0)]
  {
    var filename, probes, base, ext := FreshName(state.downloads, original);
    var n := if supportsRange then numChunks else 1;
    var chunks := CalculateChunks(size, n);
    cs := chunks;
    var starts, ends := Bounds(chunks);
    var created := state.CreateDownloadWithChunks(filename, now, starts[..], ends[..]);
    id := created.value;
  }

  /** HandleAdd, once the file's size and name are known. The new row goes to the scheduler if it has a time, otherwise
      to the queue manager, which starts it or lines it up behind everybody else. */
  method HandleAdd(m: Manager, original: string, size: int64, supportsRange: bool, numChunks: int64, now: int,
                   scheduledAt: Option<string>)
    returns (id: int, ghost cs: seq<Chunk>, ghost created: Scheduler.Sched)
    requires m.Valid()
    modifies m, m.state
    ensures m.Valid() && (old(Scheduler.Inv(m.Model())) ==> Scheduler.Inv(m.Model()))
    ensures old(QueueRuns.Settled(m.Model())) ==> QueueRuns.Settled(m.Model())
    ensures Stored(old(m.state.downloads), m.state, id, original, size, supportsRange, numChunks, cs)
    ensures Scheduler.Next(old(m.Model()), Scheduler.CreateOp(id, m.state.downloads[id].filename, now), created)
    ensures scheduledAt.None? ==> QueueRuns.Step(created, Scheduler.TryStartOp(id), m.Model())
    ensures scheduledAt.None? && old(Scheduler.Inv(m.Model())) ==> m.Model() == Scheduler.TryStart(created, id)
    ensures scheduledAt.None? ==>
              var row := m.state.downloads[id];
              && (|old(m.active)| < m.maxConcurrent ==> id in m.active)
              && (id in m.active && id !in old(m.active) ==> row.status == Downloading && row.position == None)
              && (id !in m.active ==> row.status == Queued && row.position.Some?)
    ensures scheduledAt.Some? ==> m.state.downloads[id].status == Scheduled && m.active == old(m.active)
    ensures scheduledAt.Some? ==>
              m.Model() ==
              created.(rows := created.rows[id := created.rows[id].(status := Scheduled, scheduledAt := scheduledAt)])
  {
    ghost var before := m.Model();
    id, cs := Create(m.state, original, size, supportsRange, numChunks, now);
    created := m.Model();
    ghost var name := m.state.downloads[id].filename;
    QueueRuns.StepKeepsQueue(before, Scheduler.CreateOp(id, name, now), created);
    match scheduledAt
    case Some(at) =>
      Schedule(m, id, at);
    case None =>
      var _ := m.TryStart(id);
      QueueRuns.StepKeepsQueue(created, Scheduler.TryStartOp(id), m.Model());
  }

  /** UpdateDownloadStatus and SetScheduledAt on a row that has just been created. */
  method Schedule(m: Manager, id: int, at: string)
    requires m.Valid() && id in m.state.downloads && m.state.downloads[id].status == Pending
    modifies m.state`downloads
    ensures m.Valid() && (old(Scheduler.Inv(m.Model())) ==> Scheduler.Inv(m.Model()))
    ensures old(QueueRuns.Settled(m.Model())) ==> QueueRuns.Settled(m.Model())
    ensures m.state.downloads
         == old(m.state.downloads)[id := old(m.state.downloads[id]).(status := Scheduled, scheduledAt := Some(at))]
  {
    ghost var before := m.Model();
    m.state.UpdateDownloadStatus(id, Scheduled);
    m.state.SetScheduledAt(id, Some(at));
    if Scheduler.Inv(before) { OutsideQueue(before.rows, before.queue, id, m.state.downloads[id]); }
    if QueueRuns.Settled(before) { QueueRuns.RowSettles(before, id, m.state.downloads[id], m.Model()); }
  }
}
