/** What the queue queries and reorderings of StateManager mean: listings, renumbering, exchanges. */
module Storage {
  import opened Wrappers
  import opened Tables
  import opened ChunkTable

  /** ORDER BY queue_position ASC: a missing position sorts first. */
  predicate PositionLeq(a: Option<int>, b: Option<int>) {
    a.None? || (b.Some? && a.value <= b.value)
  }

  /** ORDER BY queue_position ASC NULLS LAST, created_at ASC: strictly earlier. */
  predicate Before(a: Row, b: Row) {
    match (a.position, b.position)
    case (Some(p), Some(q)) => p < q || (p == q && a.created < b.created)
    case (Some(_), None) => true
    case (None, Some(_)) => false
    case (None, None) => a.created < b.created
  }

  /** A result of SELECT id ... WHERE live queued ORDER BY queue_position; equal positions in any order. */
  ghost predicate Listing(rows: Rows, ids: seq<int>) {
    && Distinct(ids)
    && (forall id :: id in ids <==> LiveQueued(rows, id))
    && forall i, j :: 0 <= i < j < |ids| ==> PositionLeq(PositionOf(rows, ids[i]), PositionOf(rows, ids[j]))
  }

  function PositionOf(rows: Rows, id: int): Option<int> {
    if id in rows then rows[id].position else None
  }

  /** Positions 1..N along `ids`, nothing else changed. */
  ghost predicate Renumbered(rows: Rows, after: Rows, ids: seq<int>, n: nat)
    requires n <= |ids|
  {
    && after.Keys == rows.Keys
    && (forall i :: 0 <= i < n ==> ids[i] in rows && after[ids[i]] == rows[ids[i]].(position := Some(i + 1)))
    && (forall id :: id in rows && id !in ids[..n] ==> after[id] == rows[id])
  }

  function Clamp(p: int, n: int): int {
    if p < 1 then 1 else if p > n then n else p
  }

  function IndexOf(queue: seq<int>, id: int): (i: nat)
    requires id in queue
    ensures i < |queue| && queue[i] == id
  {
    if queue[0] == id then 0 else 1 + IndexOf(queue[1..], id)
  }

  /** MoveQueuePosition on the queue as a list: exchange with the row at the clamped target. */
  function Moved(queue: seq<int>, id: int, delta: int): seq<int> {
    if delta == 0 || id !in queue then queue
    else
      var i := IndexOf(queue, id);
      var target := Clamp(i + 1 + delta, |queue|) - 1;
      queue[i := queue[target]][target := id]
  }

  lemma {:induction false} IndexUnique(queue: seq<int>, i: nat)
    requires Distinct(queue) && i < |queue|
    ensures IndexOf(queue, queue[i]) == i
  {
    if i > 0 {
      assert queue[0] != queue[i];
      assert Distinct(queue[1..]);
      IndexUnique(queue[1..], i - 1);
    }
  }

  /** Where the moved row ends up, and who takes its place. */
  lemma MovedAt(queue: seq<int>, id: int, delta: int, i: nat, target: nat)
    requires Distinct(queue) && id in queue && delta != 0 && i == IndexOf(queue, id)
    requires target == Clamp(i + 1 + delta, |queue|) - 1
    ensures target < |queue| && Moved(queue, id, delta) == queue[i := queue[target]][target := queue[i]]
    ensures id in Moved(queue, id, delta) && IndexOf(Moved(queue, id, delta), id) == target
  {
    var once := Moved(queue, id, delta);
    MovedDistinct(queue, id, delta);
    assert once[target] == id;
    IndexUnique(once, target);
  }

  /** The rows at i and j have changed places, and every other row has kept its place. */
  predicate Exchanged(before: seq<int>, after: seq<int>, i: nat, j: nat) {
    && i < |before| && j < |before| && |after| == |before| && after[i] == before[j] && after[j] == before[i]
    && forall k :: 0 <= k < |before| && k != i && k != j ==> after[k] == before[k]
  }

  /** The row changes places with the one delta places further on, or, where the list ends before that, with the one at
      its end; a row that is not listed changes nothing. */
  predicate MovedBy(before: seq<int>, after: seq<int>, id: int, delta: int) {
    && (id !in before ==> after == before)
    && forall i :: 0 <= i < |before| && before[i] == id ==>
         if i + delta < 0 then Exchanged(before, after, i, 0)
         else if i + delta >= |before| then Exchanged(before, after, i, |before| - 1)
         else Exchanged(before, after, i, i + delta)
  }

  lemma MovedIsMovedBy(queue: seq<int>, id: int, delta: int)
    requires Distinct(queue) && delta != 0
    ensures MovedBy(queue, Moved(queue, id, delta), id, delta)
    ensures queue != [] && queue[0] == id && delta < 0 ==> Moved(queue, id, delta) == queue
    ensures queue != [] && queue[|queue| - 1] == id && delta > 0 ==> Moved(queue, id, delta) == queue
  {
    forall i | 0 <= i < |queue| && queue[i] == id
      ensures if i + delta < 0 then Exchanged(queue, Moved(queue, id, delta), i, 0)
              else if i + delta >= |queue| then Exchanged(queue, Moved(queue, id, delta), i, |queue| - 1)
              else Exchanged(queue, Moved(queue, id, delta), i, i + delta)
    {
      IndexUnique(queue, i);
    }
    if queue != [] {
      IndexUnique(queue, 0);
      IndexUnique(queue, |queue| - 1);
    }
  }

  /** Exchanging i with j and then j with k undoes itself exactly when k is i. */
  lemma SwappedTwice(queue: seq<int>, i: nat, j: nat, k: nat, once: seq<int>, twice: seq<int>)
    requires Distinct(queue) && i < |queue| && j < |queue| && k < |queue|
    requires once == queue[i := queue[j]][j := queue[i]] && twice == once[j := once[k]][k := once[j]]
    ensures twice == queue <==> k == i
  {
    assert twice[k] == queue[i];
    if k < i { assert queue[k] != queue[i]; }
    if i < k { assert queue[i] != queue[k]; }
  }

  /** Up then down (and, mirrored, down then up) restores the queue exactly when the first move was not stopped
      at the edge, or there is nobody to change places with. */
  lemma MoveThereAndBack(queue: seq<int>, id: int, delta: int)
    requires Distinct(queue) && id in queue && (delta == 1 || delta == -1)
    ensures Moved(Moved(queue, id, delta), id, -delta) == queue <==>
            |queue| == 1 || 1 <= IndexOf(queue, id) + 1 + delta <= |queue|
  {
    var i, once := IndexOf(queue, id), Moved(queue, id, delta);
    var j := Clamp(i + 1 + delta, |queue|) - 1;
    MovedDistinct(queue, id, delta);
    MovedAt(queue, id, delta, i, j);
    var k := Clamp(j + 1 - delta, |queue|) - 1;
    MovedAt(once, id, -delta, j, k);
    SwappedTwice(queue, i, j, k, once, Moved(once, id, -delta));
  }

  lemma MovedDistinct(queue: seq<int>, id: int, delta: int)
    requires Distinct(queue)
    ensures Distinct(Moved(queue, id, delta)) && |Moved(queue, id, delta)| == |queue|
    ensures forall x :: x in Moved(queue, id, delta) <==> x in queue
  {
    if delta != 0 && id in queue {
      var i := IndexOf(queue, id);
      var target := Clamp(i + 1 + delta, |queue|) - 1;
      SwapKeeps(queue, i, target);
      assert Moved(queue, id, delta) == queue[i := queue[target]][target := queue[i]];
    }
  }

  lemma SwapKeeps(queue: seq<int>, i: nat, j: nat)
    requires Distinct(queue) && i < |queue| && j < |queue|
    ensures Distinct(queue[i := queue[j]][j := queue[i]])
    ensures forall x :: x in queue[i := queue[j]][j := queue[i]] <==> x in queue
  {
    var s := queue[i := queue[j]][j := queue[i]];
    forall x ensures x in s <==> x in queue {
      if x in queue {
        var k :| 0 <= k < |queue| && queue[k] == x;
        assert s[if k == i then j else if k == j then i else k] == x;
      }
    }
  }

  /** When positions are in order there is only one listing. */
  lemma {:induction false} ListingIsQueue(rows: Rows, queue: seq<int>, ids: seq<int>)
    requires InOrder(rows, queue) && Listing(rows, ids)
    ensures ids == queue
  {
    SameSet(queue, ids);
    SortedUnique(rows, queue, ids, |queue|);
  }

  /** The queued rows at the end of ListDownloads: by position, missing ones last, then by age. */
  ghost predicate QueuedSuffix(rows: Rows, ids: seq<int>) {
    && Distinct(ids)
    && (forall id :: id in ids <==> LiveQueued(rows, id))
    && forall i, j :: 0 <= i < j < |ids| ==> InPlace(rows, ids[i], ids[j])
  }

  predicate InPlace(rows: Rows, earlier: int, later: int) {
    earlier in rows && later in rows && !Before(rows[later], rows[earlier])
  }

  /** When positions are in order, what ListDownloads shows at its end is the queue. */
  lemma QueuedSuffixIsQueue(rows: Rows, queue: seq<int>, ids: seq<int>)
    requires InOrder(rows, queue) && QueuedSuffix(rows, ids)
    ensures ids == queue
  {
    forall i, j | 0 <= i < j < |ids| ensures PositionLeq(PositionOf(rows, ids[i]), PositionOf(rows, ids[j])) {
      assert ids[i] in ids && ids[j] in ids && InPlace(rows, ids[i], ids[j]);
      WaitingIsPositioned(rows, queue, ids[i]);
      WaitingIsPositioned(rows, queue, ids[j]);
    }
    ListingIsQueue(rows, queue, ids);
  }

  lemma SetOfDistinct(a: seq<int>)
    requires Distinct(a)
    ensures |set x | x in a| == |a|
  {
    if a != [] {
      var rest := a[1..];
      SetOfDistinct(rest);
      assert (set x | x in a) == (set x | x in rest) + {a[0]};
      assert a[0] !in rest;
    }
  }

  lemma SameSet(a: seq<int>, b: seq<int>)
    requires Distinct(a) && Distinct(b) && forall x :: x in a <==> x in b
    ensures |a| == |b|
  {
    SetOfDistinct(a);
    SetOfDistinct(b);
    assert (set x | x in a) == (set x | x in b);
  }

  lemma QueueRises(rows: Rows, queue: seq<int>, k: nat, i: nat)
    requires InOrder(rows, queue) && k <= i < |queue|
    ensures Positioned(rows, queue[k]) && Positioned(rows, queue[i])
    ensures rows[queue[k]].position.value <= rows[queue[i]].position.value
    ensures rows[queue[k]].position == rows[queue[i]].position ==> k == i
  {
  }

  lemma {:induction false} SortedUnique(rows: Rows, queue: seq<int>, ids: seq<int>, n: nat)
    requires InOrder(rows, queue) && Listing(rows, ids) && |ids| == |queue| && n <= |queue|
    ensures forall m :: 0 <= m < n ==> ids[m] == queue[m]
  {
    if n > 0 {
      var k := n - 1;
      SortedUnique(rows, queue, ids, k);
      assert ids[k] in ids && LiveQueued(rows, ids[k]) && queue[k] in queue && LiveQueued(rows, queue[k]);
      assert ids[k] in queue && queue[k] in ids;
      var i :| 0 <= i < |queue| && queue[i] == ids[k];
      var j :| 0 <= j < |ids| && ids[j] == queue[k];
      assert i >= k && j >= k;
      QueueRises(rows, queue, k, i);
      assert PositionLeq(PositionOf(rows, ids[k]), PositionOf(rows, ids[j]));
    }
  }

  /** Renumbering a listing puts the table in that order. */
  lemma RenumberedInOrder(rows: Rows, after: Rows, ids: seq<int>)
    requires Distinct(ids) && (forall id :: id in ids <==> LiveQueued(rows, id))
    requires Renumbered(rows, after, ids, |ids|)
    ensures InOrder(after, ids)
  {
    assert ids[..|ids|] == ids;
    forall x ensures x in ids <==> LiveQueued(after, x) {
      assert x in ids <==> LiveQueued(rows, x);
      if x in ids {
        var i :| 0 <= i < |ids| && ids[i] == x;
        assert after[ids[i]] == rows[ids[i]].(position := Some(i + 1));
      }
    }
    forall i | 0 <= i < |ids| ensures Positioned(after, ids[i]) && after[ids[i]].position == Some(i + 1) {
      assert ids[i] in rows && after[ids[i]] == rows[ids[i]].(position := Some(i + 1));
    }
  }

  ghost predicate SameButPosition(rows: Rows, after: Rows) {
    && after.Keys == rows.Keys
    && forall id :: id in rows ==> after[id] == rows[id].(position := after[id].position)
  }

  lemma PositionsKeep(rows: Rows, after: Rows, chunks: seq<ChunkRow>, nextId: int)
    requires Consistent(rows, chunks, nextId) && SameButPosition(rows, after)
    ensures Consistent(after, chunks, nextId)
  {
    forall id | id in after ensures after[id].downloadedSize == SumFor(chunks, id) && id < nextId {
      assert id in rows.Keys;
      assert after[id] == rows[id].(position := after[id].position);
    }
    forall i | 0 <= i < |chunks| ensures chunks[i].download in after { assert chunks[i].download in rows.Keys; }
  }

  lemma RenumberedMovesOnly(rows: Rows, after: Rows, ids: seq<int>)
    requires Renumbered(rows, after, ids, |ids|)
    ensures SameButPosition(rows, after)
  {
    assert ids[..|ids|] == ids;
    forall id | id in rows ensures after[id] == rows[id].(position := after[id].position) {
      if id in ids {
        var i :| 0 <= i < |ids| && ids[i] == id;
        assert after[ids[i]] == rows[ids[i]].(position := Some(i + 1));
      }
    }
  }

  /** Of two renumberings of the same rows the second stands. */
  lemma RenumberedTwice(rows: Rows, mid: Rows, after: Rows, ids: seq<int>, ids': seq<int>)
    requires Renumbered(rows, mid, ids, |ids|) && Renumbered(mid, after, ids', |ids'|)
    requires forall x :: x in ids' <==> x in ids
    ensures Renumbered(rows, after, ids', |ids'|)
  {
    assert ids[..|ids|] == ids && ids'[..|ids'|] == ids';
    RenumberedMovesOnly(rows, mid, ids);
    forall i | 0 <= i < |ids'| ensures ids'[i] in rows && after[ids'[i]] == rows[ids'[i]].(position := Some(i + 1)) {
      var x := ids'[i];
      assert x in mid && after[x] == mid[x].(position := Some(i + 1));
      assert x in rows.Keys && mid[x] == rows[x].(position := mid[x].position);
    }
    forall x | x in rows && x !in ids' ensures after[x] == rows[x] { assert x in mid.Keys && mid[x] == rows[x]; }
  }

  lemma CompactIsRenumbered(rows: Rows, order: seq<int>)
    requires Compact(rows, order)
    ensures Renumbered(rows, rows, order, |order|)
  {
    assert order[..|order|] == order;
    forall i | 0 <= i < |order| ensures order[i] in rows && rows[order[i]] == rows[order[i]].(position := Some(i + 1)) {
      assert Positioned(rows, order[i]) && PositionOf(rows, order[i]) == Some(i + 1);
    }
  }

  lemma Untaken(before: Rows, rows: Rows, ids: seq<int>, i: nat)
    requires Distinct(ids) && i < |ids| && Renumbered(before, rows, ids, i) && ids[i] in before
    ensures ids[i] !in ids[..i] && rows[ids[i]] == before[ids[i]]
  {
    var id := ids[i];
    forall k | 0 <= k < i ensures ids[..i][k] != id { assert ids[k] != ids[i]; }
    assert id !in ids[..i];
    assert rows[id] == before[id];
  }

  lemma RenumberNext(before: Rows, rows: Rows, ids: seq<int>, i: nat)
    requires Distinct(ids) && i < |ids| && Renumbered(before, rows, ids, i) && ids[i] in rows
    ensures Renumbered(before, rows[ids[i] := rows[ids[i]].(position := Some(i + 1))], ids, i + 1)
  {
    var after := rows[ids[i] := rows[ids[i]].(position := Some(i + 1))];
    assert ids[i] in before.Keys;
    Untaken(before, rows, ids, i);
    forall k | 0 <= k < i + 1 ensures ids[k] in before && after[ids[k]] == before[ids[k]].(position := Some(k + 1)) {
      if k < i { assert ids[k] != ids[i]; }
    }
    forall id | id in before && id !in ids[..i + 1] ensures after[id] == before[id] {
      assert id !in ids[..i] by { assert ids[..i + 1] == ids[..i] + [ids[i]]; }
      assert id != ids[i] by { assert ids[i] == ids[..i + 1][i]; }
    }
  }

  // ---------------------------------------------------------------- the exchange in MoveQueuePosition

  /** UPDATE ... SET queue_position = pos WHERE queue_position = newPos AND id != ? among the live queued rows. */
  function TakePlace(rows: Rows, id: int, pos: int, newPos: int): Rows {
    map x | x in rows ::
      if x != id && LiveQueued(rows, x) && rows[x].position == Some(newPos) then rows[x].(position := Some(pos))
      else rows[x]
  }

  lemma SwapMovesOnly(rows: Rows, id: int, pos: int, newPos: int)
    requires id in rows
    ensures SameButPosition(rows, SetPosition(TakePlace(rows, id, pos, newPos), id, Some(newPos)))
  {
  }

  lemma MovedNowhere(order: seq<int>, id: int, delta: int)
    requires id in order && Clamp(IndexOf(order, id) + 1 + delta, |order|) == IndexOf(order, id) + 1
    ensures Moved(order, id, delta) == order
  {
  }

  lemma OrderedIsPositioned(rows: Rows, order: seq<int>, id: int)
    requires InOrder(rows, order) && id in order
    ensures LiveQueued(rows, id) && Positioned(rows, id)
  {
    var k :| 0 <= k < |order| && order[k] == id;
    assert Positioned(rows, order[k]);
  }

  /** Positions 1..N along the queue. */
  ghost predicate Compact(rows: Rows, order: seq<int>) {
    InOrder(rows, order) && forall k :: 0 <= k < |order| ==> PositionOf(rows, order[k]) == Some(k + 1)
  }

  lemma OrderedCount(rows: Rows, order: seq<int>)
    requires InOrder(rows, order)
    ensures |QueuedIds(rows)| == |order|
  {
    SetOfDistinct(order);
    assert QueuedIds(rows) == set x | x in order;
  }

  lemma CompactIndex(rows: Rows, order: seq<int>, id: int)
    requires Compact(rows, order) && id in order
    ensures PositionOf(rows, id) == Some(IndexOf(order, id) + 1)
    ensures |QueuedIds(rows)| == |order|
  {
    OrderedCount(rows, order);
  }

  /** Exchanging the places p and q of a compact queue, row by row. */
  lemma SwapRow(rows: Rows, order: seq<int>, p: nat, q: nat, k: nat)
    requires Compact(rows, order) && p < |order| && q < |order| && p != q && k < |order|
    ensures var after := SetPosition(TakePlace(rows, order[p], p + 1, q + 1), order[p], Some(q + 1));
            var swapped := order[p := order[q]][q := order[p]];
            swapped[k] in rows && after[swapped[k]] == rows[swapped[k]].(position := Some(k + 1))
  {
    var x := order[p := order[q]][q := order[p]][k];
    var j := if k == p then q else if k == q then p else k;
    assert x == order[j] && x in order && order[p] in order;
    assert PositionOf(rows, order[j]) == Some(j + 1) && PositionOf(rows, order[p]) == Some(p + 1);
    OrderedIsPositioned(rows, order, x);
    assert j != p ==> order[j] != order[p];
  }

  lemma SwapOther(rows: Rows, order: seq<int>, p: nat, q: nat, x: int)
    requires Compact(rows, order) && p < |order| && q < |order| && x in rows && x !in order
    ensures var after := SetPosition(TakePlace(rows, order[p], p + 1, q + 1), order[p], Some(q + 1));
            after[x] == rows[x]
  {
    assert !LiveQueued(rows, x);
    assert order[p] in order;
  }

  lemma SwapIsMoved(rows: Rows, order: seq<int>, id: int, delta: int, pos: int, newPos: int)
    requires Compact(rows, order) && id in order && delta != 0
    requires pos == IndexOf(order, id) + 1 && newPos == Clamp(pos + delta, |order|) && newPos != pos
    ensures var after := SetPosition(TakePlace(rows, id, pos, newPos), id, Some(newPos));
      && InOrder(after, Moved(order, id, delta))
      && Renumbered(rows, after, Moved(order, id, delta), |Moved(order, id, delta)|)
  {
    var p, q := pos - 1, newPos - 1;
    var after := SetPosition(TakePlace(rows, id, pos, newPos), id, Some(newPos));
    var moved := order[p := order[q]][q := order[p]];
    SwapKeeps(order, p, q);
    forall k | 0 <= k < |moved|
      ensures moved[k] in rows && after[moved[k]] == rows[moved[k]].(position := Some(k + 1))
    {
      SwapRow(rows, order, p, q, k);
    }
    assert moved[..|moved|] == moved;
    forall x | x in rows && x !in moved ensures after[x] == rows[x] { SwapOther(rows, order, p, q, x); }
    RenumberedInOrder(rows, after, moved);
  }

  /** COALESCE(MAX(queue_position), 0) over the live queued rows. */
  ghost predicate Highest(rows: Rows, max: int) {
    && (forall id :: LiveQueued(rows, id) && rows[id].position.Some? ==> rows[id].position.value <= max)
    && ((exists id :: LiveQueued(rows, id) && rows[id].position == Some(max))
        || (max == 0 && forall id :: LiveQueued(rows, id) ==> rows[id].position.None?))
  }

  /** With positions in order, the highest is the last one's. */
  lemma LastIsMax(rows: Rows, queue: seq<int>, max: int)
    requires InOrder(rows, queue) && Highest(rows, max)
    ensures max == if queue == [] then 0 else rows[queue[|queue| - 1]].position.value
  {
    if queue != [] {
      var last := |queue| - 1;
      assert Positioned(rows, queue[last]) && queue[last] in queue;
      var id :| LiveQueued(rows, id) && rows[id].position == Some(max);
      assert id in queue;
      var k :| 0 <= k < |queue| && queue[k] == id;
      QueueRises(rows, queue, k, last);
    } else {
      forall id ensures !LiveQueued(rows, id) { assert id in queue <==> LiveQueued(rows, id); }
    }
  }

  /** In an ordered table the row NextInQueue picks is the head of the queue. */
  lemma HeadIsNext(rows: Rows, queue: seq<int>, id: int)
    requires InOrder(rows, queue) && LiveQueued(rows, id)
    requires forall x :: LiveQueued(rows, x) ==> !Before(rows[x], rows[id])
    ensures queue != [] && queue[0] == id
  {
    WaitingIsPositioned(rows, queue, id);
    var k :| 0 <= k < |queue| && queue[k] == id;
    QueueRises(rows, queue, 0, k);
    assert queue[0] in queue;
    assert !Before(rows[queue[0]], rows[id]);
  }
}
