/** The StateManager object over the two tables. */
module StateManagerModel {
  import opened Wrappers
  import opened Tables
  import opened ChunkTable
  import opened Storage

  lemma RowChangeKeeps(rows: Rows, chunks: seq<ChunkRow>, nextId: int, id: int, row: Row)
    requires Consistent(rows, chunks, nextId) && id in rows && row.downloadedSize == rows[id].downloadedSize
    ensures Consistent(rows[id := row], chunks, nextId)
  {
  }

  /** No chunk of this download has progress left, its chunks are otherwise as they were, and so are all others. */
  ghost predicate OnlyReset(before: seq<ChunkRow>, after: seq<ChunkRow>, id: int) {
    && (forall x :: x != id ==> ChunksOf(after, x) == ChunksOf(before, x))
    && |ChunksOf(after, id)| == |ChunksOf(before, id)|
    && forall k :: 0 <= k < |ChunksOf(before, id)| ==>
         ChunksOf(after, id)[k] == ChunksOf(before, id)[k].(downloaded := 0, status := "pending")
  }

  lemma ResetIsOnly(chunks: seq<ChunkRow>, id: int)
    ensures OnlyReset(chunks, Mapped(chunks, c => ResetChunk(c, id)), id)
  {
    forall x ensures x != id ==> ChunksOf(Mapped(chunks, c => ResetChunk(c, id)), x) == ChunksOf(chunks, x) {
      ResetOfOne(chunks, id, x);
    }
    ResetOfOne(chunks, id, id);
  }

  class StateManager {
    var downloads: Rows
    var chunks: seq<ChunkRow>
    var nextId: int

    ghost predicate Valid()
      reads this
    {
      Consistent(downloads, chunks, nextId)
    }

    constructor ()
      ensures Valid() && downloads == map[] && chunks == []
    {
      downloads, chunks, nextId := map[], [], 1;
    }

    // -------------------------------------------------------------- queue: reading

    /** Some row no other live queued row comes before; unique when positions are in order. */
    method NextInQueue() returns (next: Option<int>)
      ensures next.None? <==> QueuedIds(downloads) == {}
      ensures next.Some? ==> LiveQueued(downloads, next.value)
      ensures next.Some? ==> forall id :: LiveQueued(downloads, id) ==> !Before(downloads[id], downloads[next.value])
      ensures next.Some? ==> forall id :: LiveQueued(downloads, id) ==>
                var a, b := downloads[next.value], downloads[id];
                && (b.position.Some? ==> a.position.Some? && a.position.value <= b.position.value)
                && (b.position == a.position ==> a.created <= b.created)
    {
      var rest := QueuedIds(downloads);
      next := None;
      while rest != {}
        invariant rest <= QueuedIds(downloads)
        invariant next.None? <==> rest == QueuedIds(downloads)
        invariant next.Some? ==> LiveQueued(downloads, next.value)
        invariant next.Some? ==>
                    forall id :: id in QueuedIds(downloads) - rest ==> !Before(downloads[id], downloads[next.value])
      {
        var id :| id in rest;
        if next.None? || Before(downloads[id], downloads[next.value]) {
          next := Some(id);
        }
        rest := rest - {id};
      }
      forall id | LiveQueued(downloads, id) ensures id in QueuedIds(downloads) - rest {}
    }

    method MaxPosition() returns (max: int)
      ensures Highest(downloads, max)
    {
      var rest := QueuedIds(downloads);
      var best: Option<int> := None;
      while rest != {}
        invariant rest <= QueuedIds(downloads)
        invariant forall id :: id in QueuedIds(downloads) - rest && downloads[id].position.Some? ==>
                    best.Some? && downloads[id].position.value <= best.value
        invariant best.Some? ==> exists id :: LiveQueued(downloads, id) && downloads[id].position == best
      {
        var id :| id in rest;
        var p := downloads[id].position;
        if p.Some? && (best.None? || best.value < p.value) {
          best := p;
        }
        rest := rest - {id};
      }
      forall id | LiveQueued(downloads, id) ensures id in QueuedIds(downloads) - rest {}
      max := if best.None? then 0 else best.value;
    }

    /** SELECT id of the live queued rows ORDER BY queue_position. */
    method SelectByPosition() returns (ids: seq<int>)
      ensures Listing(downloads, ids)
    {
      ids := [];
      var rest := QueuedIds(downloads);
      while rest != {}
        invariant rest <= QueuedIds(downloads)
        invariant Distinct(ids)
        invariant forall id :: id in ids <==> id in QueuedIds(downloads) - rest
        invariant forall i, j :: 0 <= i < j < |ids| ==>
                    PositionLeq(PositionOf(downloads, ids[i]), PositionOf(downloads, ids[j]))
        invariant forall i, id :: 0 <= i < |ids| && id in rest ==>
                    PositionLeq(PositionOf(downloads, ids[i]), PositionOf(downloads, id))
      {
        var id := PickLowest(rest);
        assert id !in ids;
        ids := ids + [id];
        rest := rest - {id};
      }
    }

    method PickLowest(rest: set<int>) returns (best: int)
      requires rest != {}
      ensures best in rest
      ensures forall id :: id in rest ==> PositionLeq(PositionOf(downloads, best), PositionOf(downloads, id))
    {
      var left := rest;
      var found: Option<int> := None;
      while left != {}
        invariant left <= rest
        invariant found.None? ==> left == rest
        invariant found.Some? ==> found.value in rest
        invariant found.Some? ==>
                    forall id :: id in rest - left ==>
                      PositionLeq(PositionOf(downloads, found.value), PositionOf(downloads, id))
      {
        ghost var witness' := SomeId(left);
        var id :| id in left;
        if found.None? || !PositionLeq(PositionOf(downloads, found.value), PositionOf(downloads, id)) {
          found := Some(id);
        }
        left := left - {id};
      }
      best := found.value;
      assert rest - left == rest;
    }

    // -------------------------------------------------------------- queue: writing

    /** EnqueueDownload: to the back of the queue. */
    method EnqueueDownload(id: int) returns (ghost max: int)
      requires Valid()
      modifies this`downloads
      ensures Valid()
      ensures Highest(old(downloads), max) && downloads == Enqueue(old(downloads), id, max)
      ensures OnlyRow(old(downloads), downloads, id)
      ensures id in downloads && !downloads[id].deleted ==>
                downloads[id] == old(downloads)[id].(status := Queued, position := Some(max + 1))
      ensures id in downloads && downloads[id].deleted ==> downloads[id] == old(downloads)[id]
      ensures forall queue :: InOrder(old(downloads), queue) && id !in queue ==>
                InOrder(downloads, if id in downloads && !downloads[id].deleted then queue + [id] else queue)
      ensures forall queue :: InOrder(old(downloads), queue) ==>
                max == if queue == [] then 0 else old(downloads)[queue[|queue| - 1]].position.value
    {
      var highest := MaxPosition();
      max := highest;
      ghost var before := downloads;
      forall queue | InOrder(before, queue)
        ensures max == if queue == [] then 0 else before[queue[|queue| - 1]].position.value
      {
        LastIsMax(before, queue, max);
      }
      if id in downloads && !downloads[id].deleted {
        forall queue | InOrder(before, queue) && id !in queue ensures InOrder(Enqueue(before, id, max), queue + [id]) {
          EntersQueue(before, queue, id, max);
        }
        RowChangeKeeps(downloads, chunks, nextId, id, Enqueue(downloads, id, max)[id]);
        downloads := Enqueue(downloads, id, highest);
      }
    }

    method MarkDownloading(id: int)
      requires Valid()
      modifies this`downloads
      ensures Valid() && downloads == Tables.MarkDownloading(old(downloads), id)
      ensures OnlyRow(old(downloads), downloads, id)
      ensures id in downloads ==> downloads[id] == old(downloads)[id].(status := Downloading, position := None)
    {
      if id in downloads {
        downloads := downloads[id := downloads[id].(status := Downloading, position := None)];
      }
    }

    method SetQueuePosition(id: int, position: Option<int>)
      requires Valid()
      modifies this`downloads
      ensures Valid() && downloads == SetPosition(old(downloads), id, position)
      ensures OnlyRow(old(downloads), downloads, id)
      ensures id in downloads ==> downloads[id] == old(downloads)[id].(position := position)
    {
      if id in downloads { downloads := downloads[id := downloads[id].(position := position)]; }
    }

    method UpdateDownloadStatus(id: int, status: Status)
      requires Valid()
      modifies this`downloads
      ensures Valid() && downloads == UpdateStatus(old(downloads), id, status)
      ensures OnlyRow(old(downloads), downloads, id)
      ensures id in downloads ==> downloads[id] == old(downloads)[id].(status := status)
    {
      if id in downloads { downloads := downloads[id := downloads[id].(status := status)]; }
    }

    /** ReconcileInterrupted: live rows a previous process left downloading become paused; nothing else changes, and the
        queue waits in the order it had. */
    method ReconcileInterrupted()
      requires Valid()
      modifies this`downloads
      ensures Valid() && downloads == Tables.ReconcileInterrupted(old(downloads))
      ensures forall id :: id in downloads && !downloads[id].deleted ==> downloads[id].status != Downloading
      ensures downloads.Keys == old(downloads).Keys
      ensures forall id :: id in downloads ==>
                downloads[id] == if old(downloads)[id].status == Downloading && !old(downloads)[id].deleted
                                 then old(downloads)[id].(status := Paused) else old(downloads)[id]
      ensures forall queue :: InOrder(old(downloads), queue) ==> InOrder(downloads, queue)
    {
      forall queue | InOrder(downloads, queue) ensures InOrder(Tables.ReconcileInterrupted(downloads), queue) {
        InterruptedKeepsOrder(downloads, queue);
      }
      downloads := Tables.ReconcileInterrupted(downloads);
    }

    method SetScheduledAt(id: int, at: Option<string>)
      requires Valid()
      modifies this`downloads
      ensures Valid() && downloads == Tables.SetScheduledAt(old(downloads), id, at)
      ensures OnlyRow(old(downloads), downloads, id)
      ensures id in downloads ==> downloads[id] == old(downloads)[id].(scheduledAt := at)
    {
      if id in downloads { downloads := downloads[id := downloads[id].(scheduledAt := at)]; }
    }

    method UpdateDownloadFilename(id: int, filename: string)
      requires Valid()
      modifies this`downloads
      ensures Valid() && downloads == UpdateFilename(old(downloads), id, filename)
      ensures OnlyRow(old(downloads), downloads, id)
      ensures id in downloads ==> downloads[id] == old(downloads)[id].(filename := filename)
    {
      if id in downloads { downloads := downloads[id := downloads[id].(filename := filename)]; }
    }

    /** ShiftQueuePositions: from any state of the table, 1..N in the order the rows already had. */
    method ShiftQueuePositions() returns (ghost order: seq<int>)
      requires Valid()
      modifies this`downloads
      ensures Valid()
      ensures Listing(old(downloads), order) && InOrder(downloads, order)
      ensures Renumbered(old(downloads), downloads, order, |order|) && Compact(downloads, order)
      ensures forall queue :: InOrder(old(downloads), queue) ==> order == queue
    {
      var ids := SelectByPosition();
      order := ids;
      ghost var before := downloads;
      var i := 0;
      while i < |ids|
        invariant 0 <= i <= |ids| && Renumbered(before, downloads, ids, i)
        invariant forall id :: id in ids ==> id in downloads
      {
        RenumberNext(before, downloads, ids, i);
        downloads := downloads[ids[i] := downloads[ids[i]].(position := Some(i + 1))];
        i := i + 1;
      }
      RenumberedInOrder(before, downloads, ids);
      RenumberedMovesOnly(before, downloads, ids);
      PositionsKeep(before, downloads, chunks, nextId);
      forall k | 0 <= k < |order| ensures PositionOf(downloads, order[k]) == Some(k + 1) {
        assert ids[k] in before && downloads[ids[k]] == before[ids[k]].(position := Some(k + 1));
      }
      forall queue | InOrder(before, queue) ensures order == queue { ListingIsQueue(before, queue, order); }
    }

    /** MoveQueuePosition: the rows get the positions 1 to N in the order they had, except that this one changes places
        with the one delta places further on, or with the one at the end that it would have passed. */
    method MoveQueuePosition(id: int, delta: int) returns (ghost order: seq<int>, ghost moved: seq<int>)
      requires Valid()
      modifies this`downloads
      ensures Valid()
      ensures delta == 0 ==> downloads == old(downloads)
      ensures delta != 0 ==> Listing(old(downloads), order) && MovedBy(order, moved, id, delta)
      ensures delta != 0 ==> InOrder(downloads, moved)
      ensures delta != 0 ==> forall k :: 0 <= k < |moved| ==> PositionOf(downloads, moved[k]) == Some(k + 1)
      ensures delta != 0 ==> moved == Moved(order, id, delta) && Renumbered(old(downloads), downloads, moved, |moved|)
      ensures delta < 0 && order != [] && order[0] == id ==> moved == order
      ensures delta > 0 && order != [] && order[|order| - 1] == id ==> moved == order
      ensures delta != 0 ==> forall queue :: InOrder(old(downloads), queue) ==> order == queue
      ensures SameButPosition(old(downloads), downloads)
    {
      order, moved := [], [];
      if delta == 0 {
        return;
      }
      order := ShiftQueuePositions();
      RenumberedMovesOnly(old(downloads), downloads, order);
      ghost var compacted := downloads;
      SwapInQueue(id, delta, order);
      moved := Moved(order, id, delta);
      MovedDistinct(order, id, delta);
      MovedIsMovedBy(order, id, delta);
      RenumberedTwice(old(downloads), compacted, downloads, order, moved);
      forall k | 0 <= k < |moved| ensures PositionOf(downloads, moved[k]) == Some(k + 1) {
        assert moved[k] in old(downloads) && moved[k] in downloads.Keys;
      }
    }

    /** The second half of MoveQueuePosition, on compacted positions. */
    method SwapInQueue(id: int, delta: int, ghost order: seq<int>)
      requires Valid() && Compact(downloads, order) && delta != 0
      modifies this`downloads
      ensures Valid() && InOrder(downloads, Moved(order, id, delta))
      ensures Renumbered(old(downloads), downloads, Moved(order, id, delta), |Moved(order, id, delta)|)
      ensures SameButPosition(old(downloads), downloads)
    {
      CompactIsRenumbered(downloads, order);
      if !LiveQueued(downloads, id) || downloads[id].position.None? {
        assert id !in order by { if id in order { OrderedIsPositioned(downloads, order, id); } }
        return;
      }
      CompactIndex(downloads, order, id);
      var pos := downloads[id].position.value;
      var newPos := Clamp(pos + delta, |QueuedIds(downloads)|);
      if newPos == pos {
        MovedNowhere(order, id, delta);
        return;
      }
      SwapIsMoved(downloads, order, id, delta, pos, newPos);
      SwapMovesOnly(downloads, id, pos, newPos);
      PositionsKeep(downloads, SetPosition(TakePlace(downloads, id, pos, newPos), id, Some(newPos)), chunks, nextId);
      downloads := TakePlace(downloads, id, pos, newPos);
      downloads := SetPosition(downloads, id, Some(newPos));
    }

    // -------------------------------------------------------------- chunks

    /** The chunk rows one statement touches, one at a time, each firing the trigger. */
    method UpdateChunks(id: int, f: ChunkRow -> ChunkRow)
      requires forall c: ChunkRow :: f(c).download == c.download && f(c).index == c.index
      requires forall c: ChunkRow :: c.download != id ==> f(c) == c
      modifies this`downloads, this`chunks
      ensures chunks == Mapped(old(chunks), f)
      ensures (exists k :: 0 <= k < |chunks| && chunks[k].download == id) ==>
                downloads == Trigger(old(downloads), chunks, id)
      ensures (forall k :: 0 <= k < |chunks| ==> chunks[k].download != id) ==> downloads == old(downloads)
    {
      ghost var before, rows := chunks, downloads;
      var i := 0;
      while i < |chunks|
        invariant 0 <= i <= |chunks| == |before|
        invariant forall k :: 0 <= k < i ==> chunks[k] == f(before[k])
        invariant forall k :: i <= k < |chunks| ==> chunks[k] == before[k]
        invariant if exists k :: 0 <= k < i && chunks[k].download == id
                  then downloads == Trigger(rows, chunks, id) else downloads == rows
      {
        if chunks[i].download == id {
          chunks := chunks[i := f(chunks[i])];
          downloads := Trigger(downloads, chunks, id);
        }
        i := i + 1;
      }
      assert chunks == Mapped(before, f);
    }

    /** UpdateChunkProgress: one row, and the trigger. The chunk with that number of that download gets the size and the
        status, if there is one; the download's total moves by the difference; nothing else changes. */
    method UpdateChunkProgress(id: int, index: int, size: int, status: string)
      requires Valid()
      modifies this`downloads, this`chunks
      ensures Valid()
      ensures chunks == Mapped(old(chunks), c => ProgressChunk(c, id, index, size, status))
      ensures OnlyRow(old(downloads), downloads, id)
      ensures forall x :: x != id ==> ChunksOf(chunks, x) == ChunksOf(old(chunks), x)
      ensures var own := ChunksOf(old(chunks), id);
        if 0 <= index < |own| then
          && ChunksOf(chunks, id) == own[index := own[index].(downloaded := size, status := status)]
          && (id in downloads ==>
                downloads[id] == old(downloads)[id].(
                  downloadedSize := old(downloads)[id].downloadedSize - own[index].downloaded + size))
        else
          ChunksOf(chunks, id) == own && downloads == old(downloads)
    {
      ghost var before, rows := chunks, downloads;
      var f := (c: ChunkRow) => ProgressChunk(c, id, index, size, status);
      UpdateChunks(id, f);
      StatementKeeps(rows, before, nextId, downloads, chunks, f, id);
      forall x ensures x != id ==> ChunksOf(chunks, x) == ChunksOf(before, x) {
        ProgressOfOne(before, id, index, size, status, x);
      }
      ProgressOfOne(before, id, index, size, status, id);
      assert id in rows ==> downloads[id] == rows[id].(downloadedSize := SumFor(chunks, id));
    }

    /** UPDATE chunks SET downloaded_size = 0 for one download. */
    method ResetChunks(id: int)
      modifies this`downloads, this`chunks
      ensures chunks == Mapped(old(chunks), c => ResetChunk(c, id))
      ensures SumFor(chunks, id) == 0
      ensures downloads == old(downloads) || downloads == Trigger(old(downloads), chunks, id)
      ensures downloads == old(downloads) ==> id in downloads ==>
                downloads[id].downloadedSize == 0 || SumFor(old(chunks), id) == 0
    {
      ghost var before := chunks;
      var f := (c: ChunkRow) => ResetChunk(c, id);
      UpdateChunks(id, f);
      MappedKeeps(before, f, id);
      if forall k :: 0 <= k < |chunks| ==> chunks[k].download != id { NoChunksBefore(before, f, id); }
    }

    /** ResetProgress: an error for a missing or deleted row, otherwise no progress anywhere. */
    method ResetProgress(id: int, status: Status) returns (ok: bool)
      requires Valid()
      modifies this`downloads, this`chunks
      ensures Valid() && (ok <==> id in old(downloads) && !old(downloads)[id].deleted)
      ensures !ok ==> downloads == old(downloads) && chunks == old(chunks)
      ensures ok ==> downloads == ResetRow(old(downloads), id, status)
      ensures ok ==> chunks == Mapped(old(chunks), c => ResetChunk(c, id))
      ensures ok ==> OnlyReset(old(chunks), chunks, id) && OnlyRow(old(downloads), downloads, id)
      ensures ok ==> downloads[id] == old(downloads)[id].(downloadedSize := 0, status := status, position := None)
    {
      if id !in downloads || downloads[id].deleted {
        return false;
      }
      ghost var before, rows := chunks, downloads;
      downloads := ResetRow(downloads, id, status);
      ResetChunks(id);
      assert downloads == ResetRow(rows, id, status);
      ResetKeeps(rows, before, nextId, downloads, id);
      ResetIsOnly(before, id);
      return true;
    }

    /** DeleteWithFile: soft delete, and no progress left to resume from. */
    method DeleteWithFile(id: int)
      requires Valid()
      modifies this`downloads, this`chunks
      ensures Valid()
      ensures chunks == Mapped(old(chunks), c => ResetChunk(c, id)) && OnlyReset(old(chunks), chunks, id)
      ensures id in old(downloads) ==>
                downloads == old(downloads)[id := old(downloads)[id].(deleted := true, downloadedSize := 0)]
      ensures id !in old(downloads) ==> downloads == old(downloads)
    {
      ghost var before, rows := chunks, downloads;
      if id in downloads && !downloads[id].deleted {
        downloads := downloads[id := downloads[id].(deleted := true, downloadedSize := 0)];
      }
      ResetChunks(id);
      assert id in rows ==> downloads == rows[id := rows[id].(deleted := true, downloadedSize := 0)];
      ResetKeeps(rows, before, nextId, downloads, id);
      ResetIsOnly(before, id);
    }

    /** DeleteDownload: one row goes to history as it is, chunks included, and out of the queue; the others stay in
        order. */
    method DeleteDownload(id: int)
      requires Valid()
      modifies this`downloads
      ensures Valid() && downloads == SoftDelete(old(downloads), id)
      ensures id in downloads ==> downloads[id] == old(downloads)[id].(deleted := true)
      ensures forall x :: x != id ==> (x in downloads <==> x in old(downloads))
                                      && (x in downloads ==> downloads[x] == old(downloads)[x])
      ensures forall queue :: InOrder(old(downloads), queue) ==> InOrder(downloads, Without(queue, id))
    {
      forall queue | InOrder(downloads, queue) ensures InOrder(SoftDelete(downloads, id), Without(queue, id)) {
        DeletedKeepsOrder(downloads, queue, id);
      }
      downloads := SoftDelete(downloads, id);
    }

    /** RestoreDownload: a deleted row comes back paused, out of the queue and unscheduled; a live or missing one is
        left alone, and so is the queue. */
    method RestoreDownload(id: int)
      requires Valid()
      modifies this`downloads
      ensures Valid() && downloads == Restore(old(downloads), id)
      ensures OnlyRow(old(downloads), downloads, id)
      ensures id in old(downloads) && old(downloads)[id].deleted ==>
                downloads[id] == old(downloads)[id].(deleted := false, status := Paused, position := None,
                                                     scheduledAt := None)
      ensures id !in old(downloads) || !old(downloads)[id].deleted ==> downloads == old(downloads)
      ensures forall queue :: InOrder(old(downloads), queue) ==> InOrder(downloads, queue)
    {
      forall queue | InOrder(downloads, queue) ensures InOrder(Restore(downloads, id), queue) {
        RestoredKeepsOrder(downloads, queue, id);
      }
      downloads := Restore(downloads, id);
    }

    /** PurgeDownload and PurgeAllDeleted: the rows go, and their chunks cascade. */
    method PurgeDeleted(ids: set<int>)
      requires Valid()
      modifies this`downloads, this`chunks
      ensures Valid() && downloads == Purge(old(downloads), ids)
      ensures forall x :: x in downloads <==> x in old(downloads) && !(x in ids && old(downloads)[x].deleted)
      ensures forall x :: x in downloads ==>
                downloads[x] == old(downloads)[x] && ChunksOf(chunks, x) == ChunksOf(old(chunks), x)
      ensures forall c :: c in chunks <==> c in old(chunks) && c.download in downloads
    {
      PurgeKeeps(downloads, chunks, nextId, ids);
      ghost var keep := Purge(downloads, ids).Keys;
      forall x | x in keep ensures ChunksOf(Cascade(chunks, keep), x) == ChunksOf(chunks, x) {
        CascadeKeeps(chunks, keep, x);
      }
      downloads := Purge(downloads, ids);
      chunks := Cascade(chunks, downloads.Keys);
    }

    /** CreateDownloadWithChunks: a fresh id whose chunks are numbered 0..n-1 with the given bounds. */
    method CreateDownloadWithChunks(filename: string, now: int, starts: seq<int>, ends: seq<int>)
      returns (id: Option<int>)
      requires Valid()
      modifies this
      ensures Valid()
      ensures id.None? <==> |starts| == 0 || |starts| != |ends|
      ensures id.None? ==> downloads == old(downloads) && chunks == old(chunks)
      ensures id.Some? ==>
                && id.value !in old(downloads)
                && downloads == old(downloads)[id.value := Row(filename, Pending, None, None, false, now, 0)]
                && ChunksOf(chunks, id.value) == NewChunks(id.value, starts, ends)
                && forall x :: x != id.value ==> ChunksOf(chunks, x) == ChunksOf(old(chunks), x)
    {
      if |starts| == 0 || |starts| != |ends| {
        return None;
      }
      var fresh' := nextId;
      var row := Row(filename, Pending, None, None, false, now, 0);
      CreateKeeps(downloads, chunks, nextId, row, starts, ends);
      downloads := Insert(downloads, fresh', row);
      var i := 0;
      ghost var before := chunks;
      while i < |starts|
        invariant 0 <= i <= |starts| && nextId == fresh' && downloads == old(downloads)[fresh' := row]
        invariant chunks == before + NewChunks(fresh', starts[..i], ends[..i])
      {
        chunks := chunks + [ChunkRow(fresh', i, starts[i], ends[i], 0, "pending")];
        assert starts[..i + 1][..i] == starts[..i] && ends[..i + 1][..i] == ends[..i];
        i := i + 1;
      }
      assert starts[..i] == starts && ends[..i] == ends;
      nextId := nextId + 1;
      return Some(fresh');
    }
  }

  /** After any per-row UPDATE of one download's chunks, with the trigger fired, everything still agrees. */
  lemma StatementKeeps(rows: Rows, chunks: seq<ChunkRow>, nextId: int, rows': Rows, chunks': seq<ChunkRow>,
                       f: ChunkRow -> ChunkRow, id: int)
    requires Consistent(rows, chunks, nextId) && chunks' == Mapped(chunks, f)
    requires forall c: ChunkRow :: f(c).download == c.download && f(c).index == c.index
    requires forall c: ChunkRow :: c.download != id ==> f(c) == c
    requires || rows' == Trigger(rows, chunks', id)
             || (rows' == rows && forall k :: 0 <= k < |chunks'| ==> chunks'[k].download != id)
    ensures Consistent(rows', chunks', nextId)
  {
    forall x | x in rows' ensures rows'[x].downloadedSize == SumFor(chunks', x) && x < nextId {
      MappedKeeps(chunks, f, x);
      if x == id && rows' == rows && forall k :: 0 <= k < |chunks'| ==> chunks'[k].download != id {
        NoChunks(chunks', id);
        NoChunksBefore(chunks, f, id);
      }
    }
    NumberedKeeps(chunks, f);
  }

  lemma NoChunksBefore(chunks: seq<ChunkRow>, f: ChunkRow -> ChunkRow, id: int)
    requires forall c: ChunkRow :: f(c).download == c.download
    requires forall k :: 0 <= k < |chunks| ==> Mapped(chunks, f)[k].download != id
    ensures SumFor(chunks, id) == 0
  {
    forall k | 0 <= k < |chunks| ensures chunks[k].download != id { assert Mapped(chunks, f)[k] == f(chunks[k]); }
    NoChunks(chunks, id);
  }

  lemma NumberedKeeps(chunks: seq<ChunkRow>, f: ChunkRow -> ChunkRow)
    requires Numbered(chunks)
    requires forall c: ChunkRow :: f(c).download == c.download && f(c).index == c.index
    ensures Numbered(Mapped(chunks, f))
  {
    forall x, k | 0 <= k < |ChunksOf(Mapped(chunks, f), x)| ensures ChunksOf(Mapped(chunks, f), x)[k].index == k {
      MappedKeeps(chunks, f, x);
    }
  }

  lemma ResetKeeps(rows: Rows, chunks: seq<ChunkRow>, nextId: int, rows': Rows, id: int)
    requires Consistent(rows, chunks, nextId)
    requires rows'.Keys == rows.Keys && forall x :: x in rows && x != id ==> rows'[x] == rows[x]
    requires id in rows ==> rows'[id].downloadedSize == 0
    ensures Consistent(rows', Mapped(chunks, c => ResetChunk(c, id)), nextId)
  {
    var f := (c: ChunkRow) => ResetChunk(c, id);
    var chunks' := Mapped(chunks, f);
    forall x | x in rows' ensures rows'[x].downloadedSize == SumFor(chunks', x) && x < nextId {
      assert x in rows.Keys;
      MappedKeeps(chunks, f, x);
    }
    forall k | 0 <= k < |chunks'| ensures chunks'[k].download in rows' {
      assert chunks'[k] == f(chunks[k]) && chunks[k].download in rows.Keys;
    }
    NumberedKeeps(chunks, f);
    assert chunks' == Mapped(chunks, c => ResetChunk(c, id));
  }

  lemma PurgeKeeps(rows: Rows, chunks: seq<ChunkRow>, nextId: int, ids: set<int>)
    requires Consistent(rows, chunks, nextId)
    ensures Consistent(Purge(rows, ids), Cascade(chunks, Purge(rows, ids).Keys), nextId)
  {
    var rows' := Purge(rows, ids);
    var chunks' := Cascade(chunks, rows'.Keys);
    forall x | x in rows' ensures rows'[x].downloadedSize == SumFor(chunks', x) { CascadeKeeps(chunks, rows'.Keys, x); }
    forall k | 0 <= k < |chunks'| ensures chunks'[k].download in rows' { assert chunks'[k] in chunks'; }
    forall x, k | 0 <= k < |ChunksOf(chunks', x)| ensures ChunksOf(chunks', x)[k].index == k {
      if x in rows' { CascadeKeeps(chunks, rows'.Keys, x); } else { CascadeDrops(chunks, rows'.Keys, x); }
    }
  }

  lemma AddedChunks(chunks: seq<ChunkRow>, id: int, starts: seq<int>, ends: seq<int>, x: int)
    requires |starts| == |ends| && forall k :: 0 <= k < |chunks| ==> chunks[k].download != id
    ensures SumFor(chunks + NewChunks(id, starts, ends), x) == if x == id then 0 else SumFor(chunks, x)
    ensures ChunksOf(chunks + NewChunks(id, starts, ends), x) ==
            if x == id then NewChunks(id, starts, ends) else ChunksOf(chunks, x)
  {
    var added := NewChunks(id, starts, ends);
    SumAppend(chunks, added, x);
    if x != id { NoChunks(added, x); } else { NoChunks(chunks, id); AllChunks(added, id); }
  }

  lemma NoneYet(rows: Rows, chunks: seq<ChunkRow>, nextId: int)
    requires Consistent(rows, chunks, nextId)
    ensures nextId !in rows && forall k :: 0 <= k < |chunks| ==> chunks[k].download != nextId
  {
    forall k | 0 <= k < |chunks| ensures chunks[k].download != nextId { assert chunks[k].download in rows; }
  }

  lemma CreateKeepsSums(rows: Rows, chunks: seq<ChunkRow>, nextId: int, row: Row, starts: seq<int>, ends: seq<int>)
    requires Consistent(rows, chunks, nextId) && |starts| == |ends| && row.downloadedSize == 0
    ensures SumsAgree(Insert(rows, nextId, row), chunks + NewChunks(nextId, starts, ends))
  {
    NoneYet(rows, chunks, nextId);
    forall x | x in Insert(rows, nextId, row)
      ensures Insert(rows, nextId, row)[x].downloadedSize == SumFor(chunks + NewChunks(nextId, starts, ends), x)
    {
      AddedChunks(chunks, nextId, starts, ends, x);
    }
  }

  lemma CreateKeepsNumbers(rows: Rows, chunks: seq<ChunkRow>, nextId: int, starts: seq<int>, ends: seq<int>)
    requires Consistent(rows, chunks, nextId) && |starts| == |ends|
    ensures Numbered(chunks + NewChunks(nextId, starts, ends))
    ensures ChunksOf(chunks + NewChunks(nextId, starts, ends), nextId) == NewChunks(nextId, starts, ends)
    ensures forall x :: x != nextId ==> ChunksOf(chunks + NewChunks(nextId, starts, ends), x) == ChunksOf(chunks, x)
  {
    NoneYet(rows, chunks, nextId);
    forall x ensures ChunksOf(chunks + NewChunks(nextId, starts, ends), x) ==
                     if x == nextId then NewChunks(nextId, starts, ends) else ChunksOf(chunks, x)
    {
      AddedChunks(chunks, nextId, starts, ends, x);
    }
  }

  lemma CreateKeeps(rows: Rows, chunks: seq<ChunkRow>, nextId: int, row: Row, starts: seq<int>, ends: seq<int>)
    requires Consistent(rows, chunks, nextId) && |starts| == |ends| && row.downloadedSize == 0
    ensures nextId !in rows
    ensures Consistent(Insert(rows, nextId, row), chunks + NewChunks(nextId, starts, ends), nextId + 1)
    ensures ChunksOf(chunks + NewChunks(nextId, starts, ends), nextId) == NewChunks(nextId, starts, ends)
    ensures forall x :: x != nextId ==> ChunksOf(chunks + NewChunks(nextId, starts, ends), x) == ChunksOf(chunks, x)
  {
    NoneYet(rows, chunks, nextId);
    CreateKeepsSums(rows, chunks, nextId, row, starts, ends);
    CreateKeepsNumbers(rows, chunks, nextId, starts, ends);
  }
}
