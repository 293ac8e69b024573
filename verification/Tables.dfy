/** The rows of the downloads table as the queue sees them. Each function is one SQL statement; the table is a map
    from id to row. */
module Tables {
  import opened Wrappers

  datatype Status = Pending | Downloading | Paused | Completed | Failed | Cancelled | Queued | Scheduled

  datatype Row = Row(
    filename: string,
    status: Status,
    position: Option<int>,
    scheduledAt: Option<string>,
    deleted: bool,
    created: int,
    downloadedSize: int)

  type Rows = map<int, Row>

  /** The rows of `WHERE status = 'queued' AND deleted_at IS NULL`. */
  predicate LiveQueued(rows: Rows, id: int) {
    id in rows && rows[id].status == Queued && !rows[id].deleted
  }

  function QueuedIds(rows: Rows): (ids: set<int>)
    ensures forall id :: id in ids <==> LiveQueued(rows, id)
  {
    set id | id in rows && LiveQueued(rows, id)
  }

  lemma EmptyIfNone(ids: set<int>)
    requires forall id :: id !in ids
    ensures ids == {}
  {
    assert forall id :: id in ids <==> id in {};
  }

  lemma SomeId(ids: set<int>) returns (id: int)
    requires ids != {}
    ensures id in ids
  {
    if forall x :: x !in ids { EmptyIfNone(ids); }
    id :| id in ids;
  }

  predicate Distinct(ids: seq<int>) {
    forall i, j :: 0 <= i < j < |ids| ==> ids[i] != ids[j]
  }

  predicate Positioned(rows: Rows, id: int) {
    id in rows && rows[id].position.Some? && rows[id].position.value >= 1
  }

  /** `queue` lists exactly the live queued rows, each with a position of its own, lowest first. */
  ghost predicate InOrder(rows: Rows, queue: seq<int>) {
    && Distinct(queue)
    && (forall id :: id in queue <==> LiveQueued(rows, id))
    && (forall i :: 0 <= i < |queue| ==> Positioned(rows, queue[i]))
    && forall i, j :: 0 <= i < j < |queue| ==> rows[queue[i]].position.value < rows[queue[j]].position.value
  }

  /** The promise to the rest of the program, free of any listing: positions of live queued rows are there,
      positive, and pairwise distinct. */
  lemma QueuedRowsArePositioned(rows: Rows, queue: seq<int>, a: int, b: int)
    requires InOrder(rows, queue) && LiveQueued(rows, a) && LiveQueued(rows, b)
    ensures Positioned(rows, a) && Positioned(rows, b)
    ensures a != b ==> rows[a].position != rows[b].position
  {
    assert a in queue && b in queue;
    var i :| 0 <= i < |queue| && queue[i] == a;
    var j :| 0 <= j < |queue| && queue[j] == b;
    if i < j { assert rows[queue[i]].position.value < rows[queue[j]].position.value; }
    if j < i { assert rows[queue[j]].position.value < rows[queue[i]].position.value; }
  }

  lemma WaitingIsPositioned(rows: Rows, queue: seq<int>, id: int)
    ensures InOrder(rows, queue) && (id in queue || LiveQueued(rows, id)) ==>
              id in queue && LiveQueued(rows, id) && Positioned(rows, id)
  {
    if InOrder(rows, queue) && (id in queue || LiveQueued(rows, id)) {
      assert id in queue;
      var k :| 0 <= k < |queue| && queue[k] == id;
      assert Positioned(rows, queue[k]);
    }
  }

  // ---------------------------------------------------------------- statements

  function UpdateStatus(rows: Rows, id: int, status: Status): Rows {
    if id in rows then rows[id := rows[id].(status := status)] else rows
  }

  function SetPosition(rows: Rows, id: int, position: Option<int>): Rows {
    if id in rows then rows[id := rows[id].(position := position)] else rows
  }

  function SetScheduledAt(rows: Rows, id: int, at: Option<string>): Rows {
    if id in rows then rows[id := rows[id].(scheduledAt := at)] else rows
  }

  function UpdateFilename(rows: Rows, id: int, filename: string): Rows {
    if id in rows then rows[id := rows[id].(filename := filename)] else rows
  }

  function MarkDownloading(rows: Rows, id: int): Rows {
    if id in rows then rows[id := rows[id].(status := Downloading, position := None)] else rows
  }

  /** EnqueueDownload, given COALESCE(MAX(queue_position), 0) over the live queued rows. */
  function Enqueue(rows: Rows, id: int, max: int): Rows {
    if id in rows && !rows[id].deleted then rows[id := rows[id].(status := Queued, position := Some(max + 1))] else rows
  }

  function SoftDelete(rows: Rows, id: int): Rows {
    if id in rows then rows[id := rows[id].(deleted := true)] else rows
  }

  function Restore(rows: Rows, id: int): Rows {
    if id in rows && rows[id].deleted then
      rows[id := rows[id].(deleted := false, status := Paused, position := None, scheduledAt := None)]
    else rows
  }

  /** ResetProgress on the downloads table; a missing or deleted row is the error case and changes nothing. */
  function ResetRow(rows: Rows, id: int, status: Status): Rows {
    if id in rows && !rows[id].deleted then
      rows[id := rows[id].(downloadedSize := 0, status := status, position := None)]
    else rows
  }

  function Purge(rows: Rows, ids: set<int>): Rows {
    map id | id in rows && !(id in ids && rows[id].deleted) :: rows[id]
  }

  function ReconcileInterrupted(rows: Rows): Rows {
    map id | id in rows ::
      if rows[id].status == Downloading && !rows[id].deleted then rows[id].(status := Paused) else rows[id]
  }

  function Insert(rows: Rows, id: int, row: Row): Rows { rows[id := row] }

  /** A statement on one row: no row comes or goes, and the others are as they were. */
  predicate OnlyRow(before: Rows, after: Rows, id: int) {
    after.Keys == before.Keys && forall x :: x in before && x != id ==> after[x] == before[x]
  }

  // ---------------------------------------------------------------- what they do to the queue

  function Without(queue: seq<int>, id: int): (r: seq<int>)
    ensures forall x :: x in r <==> x in queue && x != id
    ensures id !in queue ==> r == queue
  {
    if queue == [] then []
    else if queue[0] == id then Without(queue[1..], id)
    else [queue[0]] + Without(queue[1..], id)
  }

  /** Any change to a row that was not in the queue and does not enter it. */
  lemma OutsideQueue(rows: Rows, queue: seq<int>, id: int, row: Row)
    requires InOrder(rows, queue) && id !in queue && !(row.status == Queued && !row.deleted)
    ensures InOrder(rows[id := row], queue)
  {
    var after := rows[id := row];
    forall x ensures x in queue <==> LiveQueued(after, x) {
      assert x in queue <==> LiveQueued(rows, x);
    }
    forall i | 0 <= i < |queue| ensures Positioned(after, queue[i]) && after[queue[i]] == rows[queue[i]] {
      assert Positioned(rows, queue[i]);
    }
  }

  /** Any change that leaves status, position and deletion of a row alone. */
  lemma InsideQueue(rows: Rows, queue: seq<int>, id: int, row: Row)
    requires InOrder(rows, queue) && id in rows
    requires row.status == rows[id].status && row.position == rows[id].position && row.deleted == rows[id].deleted
    ensures InOrder(rows[id := row], queue)
  {
    var after := rows[id := row];
    forall x ensures x in queue <==> LiveQueued(after, x) {
      assert x in queue <==> LiveQueued(rows, x);
    }
    forall i | 0 <= i < |queue|
      ensures Positioned(after, queue[i]) && after[queue[i]].position == rows[queue[i]].position
    {
      assert Positioned(rows, queue[i]);
    }
  }

  lemma {:induction false} WithoutIsSub(queue: seq<int>, id: int, i: nat, j: nat) returns (i': nat, j': nat)
    requires i < j < |Without(queue, id)|
    ensures i' < j' < |queue| && queue[i'] == Without(queue, id)[i] && queue[j'] == Without(queue, id)[j]
  {
    if queue[0] == id {
      i', j' := WithoutIsSub(queue[1..], id, i, j);
      i', j' := i' + 1, j' + 1;
    } else if i == 0 {
      assert Without(queue, id)[j] in queue[1..];
      var k :| 0 <= k < |queue[1..]| && queue[1..][k] == Without(queue, id)[j];
      i', j' := 0, k + 1;
    } else {
      i', j' := WithoutIsSub(queue[1..], id, i - 1, j - 1);
      i', j' := i' + 1, j' + 1;
    }
  }

  lemma RestInOrder(rows: Rows, queue: seq<int>, id: int, i: nat, j: nat)
    requires InOrder(rows, queue) && i < j < |Without(queue, id)|
    ensures var rest := Without(queue, id);
      && rest[i] != rest[j] && Positioned(rows, rest[i]) && Positioned(rows, rest[j])
      && rows[rest[i]].position.value < rows[rest[j]].position.value
  {
    var i', j' := WithoutIsSub(queue, id, i, j);
    assert Positioned(rows, queue[i']) && Positioned(rows, queue[j']);
  }

  /** A row that leaves the queue takes its place with it and disturbs nobody. */
  lemma LeavesQueue(rows: Rows, queue: seq<int>, id: int, row: Row)
    requires InOrder(rows, queue) && !(row.status == Queued && !row.deleted)
    ensures InOrder(rows[id := row], Without(queue, id))
  {
    var after, rest := rows[id := row], Without(queue, id);
    forall x ensures x in rest <==> LiveQueued(after, x) {
      assert x in queue <==> LiveQueued(rows, x);
    }
    forall i | 0 <= i < |rest| ensures Positioned(after, rest[i]) && rest[i] != id {
      assert rest[i] in rest;
      WaitingIsPositioned(rows, queue, rest[i]);
    }
    forall i, j | 0 <= i < j < |rest|
      ensures rest[i] != rest[j] && after[rest[i]].position.value < after[rest[j]].position.value
    {
      RestInOrder(rows, queue, id, i, j);
    }
  }

  /** A row that enters behind the highest position enters last. */
  lemma EntersQueue(rows: Rows, queue: seq<int>, id: int, max: int)
    requires InOrder(rows, queue) && id !in queue && id in rows && !rows[id].deleted
    requires max == if queue == [] then 0 else rows[queue[|queue| - 1]].position.value
    ensures InOrder(Enqueue(rows, id, max), queue + [id])
  {
    var after, longer := Enqueue(rows, id, max), queue + [id];
    forall x ensures x in longer <==> LiveQueued(after, x) {
      assert x in queue <==> LiveQueued(rows, x);
    }
    forall i | 0 <= i < |queue| ensures Positioned(after, queue[i]) && after[queue[i]] == rows[queue[i]] {
      assert Positioned(rows, queue[i]);
    }
    forall i | 0 <= i < |queue| ensures rows[queue[i]].position.value <= max { }
    if queue != [] { assert Positioned(rows, queue[|queue| - 1]); }
  }

  /** A row that comes back from history is not waiting. */
  lemma RestoredKeepsOrder(rows: Rows, queue: seq<int>, id: int)
    requires InOrder(rows, queue)
    ensures InOrder(Restore(rows, id), queue)
  {
    if id in rows && rows[id].deleted {
      WaitingIsPositioned(rows, queue, id);
      OutsideQueue(rows, queue, id, Restore(rows, id)[id]);
    }
  }

  lemma DeletedKeepsOrder(rows: Rows, queue: seq<int>, id: int)
    requires InOrder(rows, queue)
    ensures InOrder(SoftDelete(rows, id), Without(queue, id))
  {
    if id in rows {
      LeavesQueue(rows, queue, id, rows[id].(deleted := true));
    } else {
      WaitingIsPositioned(rows, queue, id);
    }
  }

  lemma InterruptedKeepsOrder(rows: Rows, queue: seq<int>)
    requires InOrder(rows, queue)
    ensures InOrder(ReconcileInterrupted(rows), queue)
  {
    var after := ReconcileInterrupted(rows);
    forall x ensures x in queue <==> LiveQueued(after, x) { assert x in queue <==> LiveQueued(rows, x); }
    forall i | 0 <= i < |queue| ensures Positioned(after, queue[i]) && after[queue[i]] == rows[queue[i]] {
      WaitingIsPositioned(rows, queue, queue[i]);
    }
  }
}
