/** The chunks table, in rowid order, and the trigger that keeps downloads.downloaded_size in step with it. */
module ChunkTable {
  import opened Tables

  datatype ChunkRow = ChunkRow(download: int, index: int, start: int, end: int, downloaded: int, status: string)

  /** COALESCE(SUM(downloaded_size), 0) over the chunks of one download. */
  function SumFor(chunks: seq<ChunkRow>, id: int): int {
    if chunks == [] then 0
    else
      var last := chunks[|chunks| - 1];
      SumFor(chunks[..|chunks| - 1], id) + (if last.download == id then last.downloaded else 0)
  }

  /** GetChunks: the chunks of one download. */
  function ChunksOf(chunks: seq<ChunkRow>, id: int): seq<ChunkRow> {
    if chunks == [] then []
    else
      var last := chunks[|chunks| - 1];
      ChunksOf(chunks[..|chunks| - 1], id) + (if last.download == id then [last] else [])
  }

  /** The body of trg_chunks_progress_downloads for one updated row. */
  function Trigger(rows: Rows, chunks: seq<ChunkRow>, id: int): Rows {
    if id in rows then rows[id := rows[id].(downloadedSize := SumFor(chunks, id))] else rows
  }

  function ResetChunk(c: ChunkRow, id: int): ChunkRow {
    if c.download == id then c.(downloaded := 0, status := "pending") else c
  }

  function ProgressChunk(c: ChunkRow, id: int, index: int, size: int, status: string): ChunkRow {
    if c.download == id && c.index == index then c.(downloaded := size, status := status) else c
  }

  function Mapped(chunks: seq<ChunkRow>, f: ChunkRow -> ChunkRow): (r: seq<ChunkRow>)
    ensures |r| == |chunks|
    ensures forall i :: 0 <= i < |chunks| ==> r[i] == f(chunks[i])
  {
    if chunks == [] then [] else Mapped(chunks[..|chunks| - 1], f) + [f(chunks[|chunks| - 1])]
  }

  function Cascade(chunks: seq<ChunkRow>, keep: set<int>): (r: seq<ChunkRow>)
    ensures forall c :: c in r <==> c in chunks && c.download in keep
  {
    if chunks == [] then []
    else
      var last := chunks[|chunks| - 1];
      Cascade(chunks[..|chunks| - 1], keep) + (if last.download in keep then [last] else [])
  }

  /** The rows CreateDownloadWithChunks inserts for a new download. */
  function NewChunks(id: int, starts: seq<int>, ends: seq<int>): (r: seq<ChunkRow>)
    requires |starts| == |ends|
    ensures |r| == |starts|
    ensures forall i :: 0 <= i < |r| ==> r[i] == ChunkRow(id, i, starts[i], ends[i], 0, "pending")
  {
    if starts == [] then []
    else
      var n := |starts| - 1;
      NewChunks(id, starts[..n], ends[..n]) + [ChunkRow(id, n, starts[n], ends[n], 0, "pending")]
  }

  /** Every download records the sum of its chunks. */
  ghost predicate SumsAgree(rows: Rows, chunks: seq<ChunkRow>) {
    forall id :: id in rows ==> rows[id].downloadedSize == SumFor(chunks, id)
  }

  /** Every chunk has a parent. */
  ghost predicate Parented(rows: Rows, chunks: seq<ChunkRow>) {
    forall i :: 0 <= i < |chunks| ==> chunks[i].download in rows
  }

  /** The k-th chunk of every download is chunk number k. */
  ghost predicate Numbered(chunks: seq<ChunkRow>) {
    forall id, k :: 0 <= k < |ChunksOf(chunks, id)| ==> ChunksOf(chunks, id)[k].index == k
  }

  ghost predicate Consistent(rows: Rows, chunks: seq<ChunkRow>, nextId: int) {
    && SumsAgree(rows, chunks)
    && Parented(rows, chunks)
    && Numbered(chunks)
    && (forall id :: id in rows ==> id < nextId)
  }

  lemma {:induction false} SumAppend(a: seq<ChunkRow>, b: seq<ChunkRow>, id: int)
    ensures SumFor(a + b, id) == SumFor(a, id) + SumFor(b, id)
    ensures ChunksOf(a + b, id) == ChunksOf(a, id) + ChunksOf(b, id)
  {
    if b == [] {
      assert a + b == a;
    } else {
      SumAppend(a, b[..|b| - 1], id);
      assert (a + b)[..|a + b| - 1] == a + b[..|b| - 1];
    }
  }

  lemma {:induction false} NoChunks(chunks: seq<ChunkRow>, id: int)
    requires forall i :: 0 <= i < |chunks| ==> chunks[i].download != id
    ensures SumFor(chunks, id) == 0 && ChunksOf(chunks, id) == []
  {
    if chunks != [] { NoChunks(chunks[..|chunks| - 1], id); }
  }

  lemma {:induction false} AllChunks(chunks: seq<ChunkRow>, id: int)
    requires forall i :: 0 <= i < |chunks| ==> chunks[i].download == id && chunks[i].downloaded == 0
    ensures SumFor(chunks, id) == 0 && ChunksOf(chunks, id) == chunks
  {
    if chunks != [] { AllChunks(chunks[..|chunks| - 1], id); }
  }

  /** An UPDATE that keeps parents and numbers keeps the numbering, and leaves other downloads' sums alone. */
  lemma {:induction false} MappedKeeps(chunks: seq<ChunkRow>, f: ChunkRow -> ChunkRow, id: int)
    requires forall c: ChunkRow :: f(c).download == c.download && f(c).index == c.index
    ensures |ChunksOf(Mapped(chunks, f), id)| == |ChunksOf(chunks, id)|
    ensures forall k :: 0 <= k < |ChunksOf(chunks, id)| ==>
              ChunksOf(Mapped(chunks, f), id)[k].index == ChunksOf(chunks, id)[k].index
    ensures (forall c: ChunkRow :: c.download == id ==> f(c).downloaded == c.downloaded) ==>
              SumFor(Mapped(chunks, f), id) == SumFor(chunks, id)
    ensures (forall c: ChunkRow :: c.download == id ==> f(c).downloaded == 0) ==> SumFor(Mapped(chunks, f), id) == 0
  {
    if chunks != [] {
      var n := |chunks| - 1;
      MappedKeeps(chunks[..n], f, id);
      assert Mapped(chunks, f)[..n] == Mapped(chunks[..n], f);
    }
  }

  /** What an UPDATE of one download's chunks does to each download's own. */
  lemma {:induction false} MappedOf(chunks: seq<ChunkRow>, f: ChunkRow -> ChunkRow, id: int)
    requires forall c: ChunkRow :: f(c).download == c.download
    ensures ChunksOf(Mapped(chunks, f), id) == Mapped(ChunksOf(chunks, id), f)
    ensures forall c :: c in ChunksOf(chunks, id) ==> c.download == id
  {
    if chunks != [] {
      var n := |chunks| - 1;
      MappedOf(chunks[..n], f, id);
      assert Mapped(chunks, f)[..n] == Mapped(chunks[..n], f);
      MappedAppend(ChunksOf(chunks[..n], id), if chunks[n].download == id then [chunks[n]] else [], f);
    }
  }

  lemma MappedAppend(a: seq<ChunkRow>, b: seq<ChunkRow>, f: ChunkRow -> ChunkRow)
    ensures Mapped(a + b, f) == Mapped(a, f) + Mapped(b, f)
  {
  }

  /** A download's sum is the sum of its own chunks. */
  lemma {:induction false} SumOfOwn(chunks: seq<ChunkRow>, id: int)
    ensures SumFor(ChunksOf(chunks, id), id) == SumFor(chunks, id)
  {
    if chunks != [] {
      var n := |chunks| - 1;
      SumOfOwn(chunks[..n], id);
      SumAppend(ChunksOf(chunks[..n], id), if chunks[n].download == id then [chunks[n]] else [], id);
    }
  }

  /** Giving one of them another size changes the sum by the difference. */
  lemma {:induction false} SumChanges(own: seq<ChunkRow>, id: int, k: nat, c: ChunkRow)
    requires k < |own| && own[k].download == c.download == id
    ensures SumFor(own[k := c], id) == SumFor(own, id) - own[k].downloaded + c.downloaded
  {
    var n := |own| - 1;
    if k < n {
      SumChanges(own[..n], id, k, c);
      assert own[k := c][..n] == own[..n][k := c];
    } else {
      assert own[k := c][..n] == own[..n];
    }
  }

  /** The chunk with this number gets the size and the status, if there is one; every other chunk is left alone. */
  lemma ProgressOfOne(chunks: seq<ChunkRow>, id: int, index: int, size: int, status: string, x: int)
    requires Numbered(chunks)
    ensures var own := ChunksOf(chunks, x);
      var after := Mapped(chunks, c => ProgressChunk(c, id, index, size, status));
      if x == id && 0 <= index < |own| then
        && ChunksOf(after, x) == own[index := own[index].(downloaded := size, status := status)]
        && SumFor(after, x) == SumFor(chunks, x) - own[index].downloaded + size
      else
        ChunksOf(after, x) == own && SumFor(after, x) == SumFor(chunks, x)
  {
    var f := (c: ChunkRow) => ProgressChunk(c, id, index, size, status);
    var own, after := ChunksOf(chunks, x), Mapped(chunks, f);
    MappedOf(chunks, f, x);
    forall k | 0 <= k < |own| ensures own[k].index == k && own[k].download == x { assert own[k] in own; }
    if x == id && 0 <= index < |own| {
      assert Mapped(own, f) == own[index := own[index].(downloaded := size, status := status)];
      SumChanges(own, x, index, own[index].(downloaded := size, status := status));
    } else {
      assert Mapped(own, f) == own;
    }
    SumOfOwn(chunks, x);
    SumOfOwn(after, x);
    assert after == Mapped(chunks, c => ProgressChunk(c, id, index, size, status));
  }

  /** A reset leaves no chunk of the download with progress, and the chunks of the others alone. */
  lemma ResetOfOne(chunks: seq<ChunkRow>, id: int, x: int)
    ensures var own, after := ChunksOf(chunks, x), ChunksOf(Mapped(chunks, c => ResetChunk(c, id)), x);
      && |after| == |own|
      && (x != id ==> after == own)
      && (x == id ==> forall k :: 0 <= k < |own| ==> after[k] == own[k].(downloaded := 0, status := "pending"))
  {
    var f := (c: ChunkRow) => ResetChunk(c, id);
    var own := ChunksOf(chunks, x);
    MappedOf(chunks, f, x);
    forall k | 0 <= k < |own| ensures own[k].download == x { assert own[k] in own; }
    if x != id { assert Mapped(own, f) == own; }
    assert Mapped(chunks, f) == Mapped(chunks, c => ResetChunk(c, id));
  }

  lemma {:induction false} CascadeKeeps(chunks: seq<ChunkRow>, keep: set<int>, id: int)
    requires id in keep
    ensures SumFor(Cascade(chunks, keep), id) == SumFor(chunks, id)
    ensures ChunksOf(Cascade(chunks, keep), id) == ChunksOf(chunks, id)
  {
    if chunks != [] {
      var n := |chunks| - 1;
      CascadeKeeps(chunks[..n], keep, id);
      SumAppend(Cascade(chunks[..n], keep), if chunks[n].download in keep then [chunks[n]] else [], id);
    }
  }

  lemma CascadeDrops(chunks: seq<ChunkRow>, keep: set<int>, id: int)
    requires id !in keep
    ensures ChunksOf(Cascade(chunks, keep), id) == []
  {
    forall i | 0 <= i < |Cascade(chunks, keep)| ensures Cascade(chunks, keep)[i].download != id {
      assert Cascade(chunks, keep)[i] in Cascade(chunks, keep);
    }
    NoChunks(Cascade(chunks, keep), id);
  }
}
