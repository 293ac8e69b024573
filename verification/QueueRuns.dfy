/** The queue over whole runs of the application, from whatever table a run may leave: overtaken deletes and process
    exits included. */
module QueueRuns {
  import opened Wrappers
  import opened Tables
  import opened Storage
  import opened Scheduler

  // ---------------------------------------------------------------- what the statements do to any table

  /** The row of NextInQueue; rows that tie in position and age may come in any order. */
  ghost predicate NextUp(rows: Rows, id: int) {
    LiveQueued(rows, id) && forall x :: LiveQueued(rows, x) ==> !Before(rows[x], rows[id])
  }

  /** One turn of drainQueue. */
  function Turn(s: Sched, id: int): Sched {
    if id in s.active then s.(rows := SetPosition(s.rows, id, None)) else Launch(s, id)
  }

  /** drainQueue, having seen some ids, meets `ids` and stops in t. */
  ghost predicate Drains(s: Sched, seen: set<int>, ids: seq<int>, t: Sched)
    decreases |ids|
  {
    if |s.active| >= s.limit || QueuedIds(s.rows) == {} then ids == [] && t == s
    else
      && ids != [] && NextUp(s.rows, ids[0])
      && if ids[0] in seen then |ids| == 1 && t == s
         else Drains(Turn(s, ids[0]), seen + {ids[0]}, ids[1..], t)
  }

  ghost predicate Drained(s: Sched, t: Sched) { exists ids :: Drains(s, {}, ids, t) }

  /** Manager.enqueue. */
  ghost predicate Appended(s: Sched, id: int, t: Sched) {
    if id !in s.rows || s.rows[id].deleted || (s.rows[id].status == Queued && s.rows[id].position.Some?) then t == s
    else exists max :: Highest(s.rows, max) && t == s.(rows := Enqueue(s.rows, id, max), queue := s.queue + [id])
  }

  ghost predicate Admitted(s: Sched, id: int, t: Sched) {
    if |s.active| < s.limit then t == Launch(s, id) else Appended(s, id, t)
  }

  /** MoveQueuePosition: every live queued row is numbered anew, the missing positions first. */
  ghost predicate Reordered(s: Sched, id: int, delta: int, ids: seq<int>, t: Sched) {
    && Listing(s.rows, ids) && Renumbered(s.rows, t.rows, Moved(ids, id, delta), |Moved(ids, id, delta)|)
    && t == s.(rows := t.rows, queue := Moved(ids, id, delta))
  }

  function Slotless(s: Sched, id: int): Sched {
    s.(active := s.active - {id}, rows := SetPosition(s.rows, id, None))
  }

  /** What one operation does to any table. */
  ghost predicate Step(s: Sched, op: Op, t: Sched) {
    match op
    case TryStartOp(id) =>
      if id in s.active || id !in s.rows || s.rows[id].deleted then t == s else Admitted(s, id, t)
    case EnqueueScheduledOp(id) =>
      var u := s.(rows := SetScheduledAt(s.rows, id, None));
      if id in s.active then t == u else Admitted(u, id, t)
    case OnDoneOp(id) => if id !in s.active then t == s else Drained(Slotless(s, id), t)
    case SetMaxOp(n) => Drained(s.(limit := if n < 1 then 1 else n), t)
    case DrainOp => Drained(s, t)
    case MoveOp(id, delta) => if delta == 0 then t == s else exists ids :: Reordered(s, id, delta, ids, t)
    case _ => Next(s, op, t)
  }

  /** The process exits between two operations, and the next one recovers: interrupted rows become paused, and the queue
      is drained into the slots of a new manager. */
  ghost predicate Recovered(s: Sched, limit: int, t: Sched) {
    Drained(Sched(ReconcileInterrupted(s.rows), s.queue, {}, limit, []), t)
  }

  datatype Event = Does(op: Op) | Restarts(limit: int)

  ghost predicate Happens(s: Sched, e: Event, t: Sched) {
    match e
    case Does(op) => Step(s, op, t)
    case Restarts(limit) => Recovered(s, limit, t)
  }

  // ---------------------------------------------------------------- what always holds

  /** A live queued row without a position: what an overtaken delete leaves. */
  predicate Loose(rows: Rows, id: int) { LiveQueued(rows, id) && rows[id].position.None? }

  function LooseIds(rows: Rows): (ids: set<int>)
    ensures forall id :: id in ids <==> Loose(rows, id)
  {
    set id | id in QueuedIds(rows) && Loose(rows, id)
  }

  predicate SamePlace(rows: Rows, a: int, b: int) {
    PositionOf(rows, a).Some? && PositionOf(rows, a) == PositionOf(rows, b)
  }

  predicate InFront(rows: Rows, a: int, b: int) {
    Positioned(rows, a) && Positioned(rows, b) && rows[a].position.value < rows[b].position.value
  }

  /** Live queued rows have no position, or a positive one of their own. */
  ghost predicate Apart(rows: Rows) {
    && (forall a :: LiveQueued(rows, a) ==> Loose(rows, a) || Positioned(rows, a))
    && forall a, b :: LiveQueued(rows, a) && LiveQueued(rows, b) && SamePlace(rows, a, b) ==> a == b
  }

  ghost predicate NoneRunsAndWaits(s: Sched) { forall id :: id in s.active ==> !LiveQueued(s.rows, id) }

  /** And nobody waits, loose or not, while a slot is free. */
  ghost predicate Settled(s: Sched) {
    Apart(s.rows) && NoneRunsAndWaits(s) && (|s.active| < s.limit ==> QueuedIds(s.rows) == {})
  }

  // ---------------------------------------------------------------- a settled table without loose rows is in order

  lemma {:induction false} LastOf(rows: Rows, ids: set<int>) returns (m: int)
    requires ids != {} && forall a :: a in ids ==> Positioned(rows, a)
    ensures m in ids && forall a :: a in ids ==> !InFront(rows, m, a)
    decreases |ids|
  {
    var first := SomeId(ids);
    m := first;
    var rest := ids - {first};
    if rest != {} {
      var n := LastOf(rows, rest);
      if InFront(rows, first, n) { m := n; }
    }
    forall a | a in ids ensures !InFront(rows, m, a) { assert a == first || a in rest; }
  }

  ghost predicate Rising(rows: Rows, ids: seq<int>) {
    && (forall i :: 0 <= i < |ids| ==> Positioned(rows, ids[i]))
    && forall i, j :: 0 <= i < j < |ids| ==> InFront(rows, ids[i], ids[j])
  }

  lemma {:induction false} Sorted(rows: Rows, ids: set<int>) returns (queue: seq<int>)
    requires forall a :: a in ids ==> Positioned(rows, a)
    requires forall a, b :: a in ids && b in ids && SamePlace(rows, a, b) ==> a == b
    ensures Rising(rows, queue) && forall a :: a in queue <==> a in ids
    decreases |ids|
  {
    if ids == {} {
      queue := [];
    } else {
      var last := LastOf(rows, ids);
      var rest := Sorted(rows, ids - {last});
      queue := rest + [last];
      forall i | 0 <= i < |rest| ensures InFront(rows, rest[i], last) {
        assert rest[i] in rest;
        assert !SamePlace(rows, rest[i], last);
      }
    }
  }

  lemma ApartIsOrdered(rows: Rows) returns (queue: seq<int>)
    requires Apart(rows) && LooseIds(rows) == {}
    ensures InOrder(rows, queue)
  {
    forall a | a in QueuedIds(rows) ensures Positioned(rows, a) { assert a !in LooseIds(rows); }
    queue := Sorted(rows, QueuedIds(rows));
    forall i, j | 0 <= i < j < |queue| ensures queue[i] != queue[j] { assert InFront(rows, queue[i], queue[j]); }
  }

  lemma OrderedIsApart(rows: Rows, queue: seq<int>)
    requires InOrder(rows, queue)
    ensures Apart(rows) && LooseIds(rows) == {}
  {
    forall a | LiveQueued(rows, a) ensures Positioned(rows, a) { WaitingIsPositioned(rows, queue, a); }
    forall a, b | LiveQueued(rows, a) && LiveQueued(rows, b) && SamePlace(rows, a, b) ensures a == b {
      QueuedRowsArePositioned(rows, queue, a, b);
    }
    EmptyIfNone(LooseIds(rows));
  }

  // ---------------------------------------------------------------- every operation keeps a settled table settled

  /** A row statement that puts nobody into the queue. */
  lemma RowSettles(s: Sched, id: int, row: Row, t: Sched)
    requires Settled(s) && t == s.(rows := s.rows[id := row], queue := t.queue)
    requires LiveQueued(t.rows, id) ==>
               LiveQueued(s.rows, id) && (row.position == s.rows[id].position || row.position == None)
    ensures Settled(t)
  {
    forall x | LiveQueued(t.rows, x) ensures LiveQueued(s.rows, x) {}
    if |s.active| < s.limit { EmptyIfNone(QueuedIds(t.rows)); }
  }

  lemma LaunchSettles(s: Sched, id: int)
    requires Apart(s.rows) && NoneRunsAndWaits(s)
    ensures Apart(Launch(s, id).rows) && NoneRunsAndWaits(Launch(s, id))
    ensures QueuedIds(Launch(s, id).rows) == QueuedIds(s.rows) - {id}
  {
    var t := Launch(s, id);
    forall x ensures LiveQueued(t.rows, x) <==> LiveQueued(s.rows, x) && x != id {}
  }

  lemma {:induction false} DrainSettles(s: Sched, seen: set<int>, ids: seq<int>, t: Sched)
    requires Apart(s.rows) && NoneRunsAndWaits(s) && seen <= s.active && Drains(s, seen, ids, t)
    ensures Settled(t)
    decreases |ids|
  {
    if ids != [] {
      LaunchSettles(s, ids[0]);
      DrainSettles(Launch(s, ids[0]), seen + {ids[0]}, ids[1..], t);
    }
  }

  lemma DrainedSettles(s: Sched, t: Sched)
    requires Apart(s.rows) && NoneRunsAndWaits(s) && Drained(s, t)
    ensures Settled(t)
  {
    var ids :| Drains(s, {}, ids, t);
    DrainSettles(s, {}, ids, t);
  }

  lemma EnqueueSettles(s: Sched, id: int, max: int, t: Sched)
    requires Settled(s) && |s.active| >= s.limit && id in s.rows && !s.rows[id].deleted && id !in s.active
    requires Highest(s.rows, max) && t == s.(rows := Enqueue(s.rows, id, max), queue := t.queue)
    ensures Settled(t) && Positioned(t.rows, id) && LiveQueued(t.rows, id)
    ensures forall x :: LiveQueued(s.rows, x) && x != id && !Loose(s.rows, x) ==> InFront(t.rows, x, id)
  {
    forall x | LiveQueued(t.rows, x) && x != id ensures LiveQueued(s.rows, x) && t.rows[x] == s.rows[x] {}
    assert max >= 0 by {
      if id' :| LiveQueued(s.rows, id') && s.rows[id'].position == Some(max) { assert !Loose(s.rows, id'); }
    }
  }

  lemma AdmitSettles(s: Sched, id: int, t: Sched)
    requires Settled(s) && id !in s.active && Admitted(s, id, t)
    ensures Settled(t)
  {
    if |s.active| < s.limit {
      LaunchSettles(s, id);
      EmptyIfNone(QueuedIds(t.rows));
    } else if t != s {
      var max :| Highest(s.rows, max) && t == s.(rows := Enqueue(s.rows, id, max), queue := s.queue + [id]);
      EnqueueSettles(s, id, max, t);
    }
  }

  lemma SlotlessIsApart(s: Sched, id: int)
    requires Settled(s) && id in s.active
    ensures Apart(Slotless(s, id).rows) && NoneRunsAndWaits(Slotless(s, id))
  {
    assert !LiveQueued(s.rows, id);
    forall x ensures LiveQueued(Slotless(s, id).rows, x) <==> LiveQueued(s.rows, x) {}
  }

  lemma ReorderSettles(s: Sched, id: int, delta: int, ids: seq<int>, t: Sched)
    requires Settled(s) && Reordered(s, id, delta, ids, t)
    ensures Settled(t) && InOrder(t.rows, t.queue) && LooseIds(t.rows) == {}
    ensures forall x :: LiveQueued(t.rows, x) <==> LiveQueued(s.rows, x)
  {
    MovedDistinct(ids, id, delta);
    RenumberedInOrder(s.rows, t.rows, t.queue);
    OrderedIsApart(t.rows, t.queue);
    forall x ensures LiveQueued(t.rows, x) <==> LiveQueued(s.rows, x) {
      assert x in t.queue <==> LiveQueued(t.rows, x);
    }
    if |s.active| < s.limit { EmptyIfNone(QueuedIds(t.rows)); }
  }

  /** A statement on rows, or Remove: everything but the manager's other calls and a Move. */
  predicate Statement(op: Op) {
    !op.TryStartOp? && !op.EnqueueScheduledOp? && !op.OnDoneOp? && !op.SetMaxOp? && !op.DrainOp? && !op.MoveOp?
  }

  lemma StatementSettles(s: Sched, op: Op, t: Sched)
    requires Settled(s) && Next(s, op, t) && Statement(op)
    ensures Settled(t)
  {
    if op.PurgeOp? {
      forall x | LiveQueued(t.rows, x) ensures LiveQueued(s.rows, x) && t.rows[x] == s.rows[x] {}
      if |s.active| < s.limit { EmptyIfNone(QueuedIds(t.rows)); }
    } else if t.rows != s.rows {
      assert t.rows == s.rows[op.id := t.rows[op.id]];
      RowSettles(s, op.id, t.rows[op.id], t);
    }
  }

  /** Every operation, an overtaken delete's among them, keeps live queued positions apart, keeps running downloads from
      waiting, and keeps everybody from waiting while a slot is free. */
  lemma StepSettles(s: Sched, op: Op, t: Sched)
    requires Settled(s) && Step(s, op, t)
    ensures Settled(t)
  {
    match op
    case TryStartOp(id) =>
      if t != s { AdmitSettles(s, id, t); }
    case EnqueueScheduledOp(id) =>
      var u := s.(rows := SetScheduledAt(s.rows, id, None));
      StatementSettles(s, ScheduleOp(id, None), u);
      if id !in s.active { AdmitSettles(u, id, t); }
    case OnDoneOp(id) =>
      if id in s.active { SlotlessIsApart(s, id); DrainedSettles(Slotless(s, id), t); }
    case SetMaxOp(n) => DrainedSettles(s.(limit := if n < 1 then 1 else n), t);
    case DrainOp => DrainedSettles(s, t);
    case MoveOp(id, delta) =>
      if delta != 0 { var ids :| Reordered(s, id, delta, ids, t); ReorderSettles(s, id, delta, ids, t); }
    case _ => StatementSettles(s, op, t);
  }

  lemma ReconciledIsApart(rows: Rows)
    requires Apart(rows)
    ensures Apart(ReconcileInterrupted(rows))
    ensures forall x :: LiveQueued(ReconcileInterrupted(rows), x) <==> LiveQueued(rows, x)
  {
    var after := ReconcileInterrupted(rows);
    forall x ensures LiveQueued(after, x) <==> LiveQueued(rows, x) {}
  }

  lemma {:induction false} DrainMarks(s: Sched, seen: set<int>, ids: seq<int>, t: Sched, id: int)
    requires Drains(s, seen, ids, t) && MarkedOnlyIfActive(s, id)
    ensures MarkedOnlyIfActive(t, id)
    decreases |ids|
  {
    if ids != [] && ids[0] !in seen { DrainMarks(Turn(s, ids[0]), seen + {ids[0]}, ids[1..], t, id); }
  }

  /** Recovery settles any table that a run can leave, and marks nothing as downloading that it has not just started. */
  lemma RecoverySettles(s: Sched, limit: int, t: Sched)
    requires Apart(s.rows) && Recovered(s, limit, t)
    ensures Settled(t) && LooseIds(t.rows) <= LooseIds(s.rows)
    ensures forall id :: MarkedOnlyIfActive(t, id)
  {
    ReconciledIsApart(s.rows);
    var u := Sched(ReconcileInterrupted(s.rows), s.queue, {}, limit, []);
    DrainedSettles(u, t);
    var ids :| Drains(u, {}, ids, t);
    forall id ensures MarkedOnlyIfActive(t, id) { DrainMarks(u, {}, ids, t, id); }
    forall id | id in LooseIds(t.rows) ensures id in LooseIds(s.rows) { DrainedKeeps(u, t, id); }
  }

  lemma EventSettles(s: Sched, e: Event, t: Sched)
    requires Settled(s) && Happens(s, e, t)
    ensures Settled(t)
  {
    match e
    case Does(op) => StepSettles(s, op, t);
    case Restarts(limit) => RecoverySettles(s, limit, t);
  }

  // ---------------------------------------------------------------- what a start writes

  /** The row of a download that has just been started, if it has one: downloading, out of the queue, otherwise as it
      was. */
  predicate Started(before: Rows, after: Rows, id: int) {
    && (id in after <==> id in before)
    && (id in after ==>
          && after[id].status == Downloading && after[id].position == None
          && after[id].filename == before[id].filename && after[id].scheduledAt == before[id].scheduledAt
          && after[id].deleted == before[id].deleted && after[id].created == before[id].created
          && after[id].downloadedSize == before[id].downloadedSize)
  }

  /** What admitting a download does to its row, and that it does nothing else. */
  lemma AdmittedRow(s: Sched, id: int, t: Sched)
    requires Admitted(s, id, t) && id !in s.active
    ensures OnlyRow(s.rows, t.rows, id) && t.active - {id} == s.active - {id}
    ensures id in t.rows ==> t.rows[id].scheduledAt == s.rows[id].scheduledAt
    ensures id in t.active ==> Started(s.rows, t.rows, id)
    ensures id !in t.active && id in t.rows && !t.rows[id].deleted ==>
              LiveQueued(t.rows, id) && t.rows[id].position.Some?
  {
  }

  lemma {:induction false} RunningIsLeft(s: Sched, seen: set<int>, ids: seq<int>, t: Sched, x: int)
    requires Drains(s, seen, ids, t) && x in s.active && !LiveQueued(s.rows, x)
    ensures x in t.active && (x in t.rows <==> x in s.rows) && (x in t.rows ==> t.rows[x] == s.rows[x])
    decreases |ids|
  {
    if ids != [] && ids[0] !in seen { RunningIsLeft(Turn(s, ids[0]), seen + {ids[0]}, ids[1..], t, x); }
  }

  /** A drain of any table marks exactly what it starts. */
  lemma {:induction false} DrainMarksStarts(s: Sched, seen: set<int>, ids: seq<int>, t: Sched, x: int)
    requires Drains(s, seen, ids, t) && x !in s.active && x in t.active
    ensures LiveQueued(s.rows, x) && Started(s.rows, t.rows, x)
    decreases |ids|
  {
    if ids != [] && ids[0] !in seen {
      var u, rest := Turn(s, ids[0]), ids[1..];
      if ids[0] == x {
        RunningIsLeft(u, seen + {x}, rest, t, x);
      } else {
        DrainMarksStarts(u, seen + {ids[0]}, rest, t, x);
      }
    }
  }

  /** A drain leaves the row of a download that does not run afterwards alone. */
  lemma {:induction false} IdleIsLeft(s: Sched, seen: set<int>, ids: seq<int>, t: Sched, x: int)
    requires Drains(s, seen, ids, t) && x !in t.active
    ensures x !in s.active && (x in t.rows <==> x in s.rows) && (x in t.rows ==> t.rows[x] == s.rows[x])
    decreases |ids|
  {
    if ids != [] && ids[0] !in seen { IdleIsLeft(Turn(s, ids[0]), seen + {ids[0]}, ids[1..], t, x); }
  }

  lemma DrainedMarksStarts(s: Sched, t: Sched, x: int)
    requires Drained(s, t) && x !in s.active && x in t.active
    ensures LiveQueued(s.rows, x) && Started(s.rows, t.rows, x)
  {
    var ids :| Drains(s, {}, ids, t);
    DrainMarksStarts(s, {}, ids, t, x);
  }

  /** Whatever an operation starts, from any table, it marks as downloading and takes out of the queue, and changes in
      nothing else; EnqueueScheduled has cleared its time. */
  lemma StartsAreMarked(s: Sched, op: Op, t: Sched, x: int)
    requires Step(s, op, t) && x !in s.active && x in t.active
    ensures Started(if op == EnqueueScheduledOp(x) then SetScheduledAt(s.rows, x, None) else s.rows, t.rows, x)
  {
    match op
    case OnDoneOp(id) => DrainedMarksStarts(Slotless(s, id), t, x);
    case SetMaxOp(n) => DrainedMarksStarts(s.(limit := if n < 1 then 1 else n), t, x);
    case DrainOp => DrainedMarksStarts(s, t, x);
    case _ =>
  }

  /** And so does recovery, of what the previous process left. */
  lemma RecoveryMarksStarts(s: Sched, limit: int, t: Sched, x: int)
    requires Recovered(s, limit, t) && x in t.active
    ensures LiveQueued(s.rows, x) && Started(s.rows, t.rows, x)
  {
    DrainedMarksStarts(Sched(ReconcileInterrupted(s.rows), s.queue, {}, limit, []), t, x);
  }

  // ---------------------------------------------------------------- who is loose, and until when

  lemma {:induction false} DrainedRows(s: Sched, seen: set<int>, ids: seq<int>, t: Sched, x: int)
    requires Apart(s.rows) && NoneRunsAndWaits(s) && seen <= s.active && Drains(s, seen, ids, t)
    ensures LiveQueued(t.rows, x) ==> LiveQueued(s.rows, x) && t.rows[x] == s.rows[x]
    decreases |ids|
  {
    if ids != [] {
      LaunchSettles(s, ids[0]);
      DrainedRows(Launch(s, ids[0]), seen + {ids[0]}, ids[1..], t, x);
    }
  }

  /** Whoever still waits after a drain waits where he waited before. */
  lemma DrainedKeeps(s: Sched, t: Sched, x: int)
    requires Apart(s.rows) && NoneRunsAndWaits(s) && Drained(s, t)
    ensures LiveQueued(t.rows, x) ==> LiveQueued(s.rows, x) && t.rows[x] == s.rows[x]
  {
    var ids :| Drains(s, {}, ids, t);
    DrainedRows(s, {}, ids, t, x);
  }

  /** What may become of the place of x: it keeps it, or loses it to a Remove, or comes in last. */
  ghost predicate Keeps(s: Sched, t: Sched, x: int) {
    LiveQueued(s.rows, x) && PositionOf(t.rows, x) == PositionOf(s.rows, x)
  }

  ghost predicate ComesLast(s: Sched, t: Sched, x: int) {
    && Positioned(t.rows, x) && (LiveQueued(s.rows, x) ==> Loose(s.rows, x))
    && forall y :: LiveQueued(s.rows, y) && y != x && !Loose(s.rows, y) ==> InFront(t.rows, y, x)
  }

  lemma AdmittedPlace(s: Sched, id: int, t: Sched, x: int)
    requires Settled(s) && id !in s.active && Admitted(s, id, t) && LiveQueued(t.rows, x)
    ensures Keeps(s, t, x) || (x == id && ComesLast(s, t, x))
    ensures x == id ==> !Loose(t.rows, x)
  {
    if |s.active| >= s.limit && t != s {
      var max :| Highest(s.rows, max) && t == s.(rows := Enqueue(s.rows, id, max), queue := s.queue + [id]);
      EnqueueSettles(s, id, max, t);
    }
  }

  predicate Reorders(op: Op) { op.MoveOp? && op.delta != 0 }

  lemma StatementPlace(s: Sched, op: Op, t: Sched, x: int)
    requires Settled(s) && Next(s, op, t) && Statement(op) && LiveQueued(t.rows, x)
    ensures Keeps(s, t, x) || (op == RemoveOp(x) && LiveQueued(s.rows, x) && Loose(t.rows, x))
    ensures op != SoftDeleteOp(x)
  {
  }

  lemma ScheduledPlace(s: Sched, id: int, t: Sched, x: int)
    requires Settled(s) && Step(s, EnqueueScheduledOp(id), t) && LiveQueued(t.rows, x)
    ensures Keeps(s, t, x) || (x == id && ComesLast(s, t, x))
    ensures x == id ==> !Loose(t.rows, x)
  {
    var u := s.(rows := SetScheduledAt(s.rows, id, None));
    StatementSettles(s, ScheduleOp(id, None), u);
    if id !in s.active { AdmittedPlace(u, id, t, x); }
  }

  lemma ManagerPlace(s: Sched, op: Op, t: Sched, x: int)
    requires Settled(s) && Step(s, op, t) && !Statement(op) && !op.MoveOp? && LiveQueued(t.rows, x)
    ensures Keeps(s, t, x) || (Starts(op, x) && ComesLast(s, t, x))
    ensures Starts(op, x) ==> !Loose(t.rows, x)
  {
    match op
    case TryStartOp(id) => if t != s { AdmittedPlace(s, id, t, x); }
    case EnqueueScheduledOp(id) => ScheduledPlace(s, id, t, x);
    case OnDoneOp(id) =>
      if id in s.active { SlotlessIsApart(s, id); DrainedKeeps(Slotless(s, id), t, x); }
    case SetMaxOp(n) => DrainedKeeps(s.(limit := if n < 1 then 1 else n), t, x);
    case DrainOp => DrainedKeeps(s, t, x);
  }

  predicate Starts(op: Op, id: int) { op == TryStartOp(id) || op == EnqueueScheduledOp(id) }

  /** Nobody loses a place: under every operation but a Move, whoever waits afterwards keeps the position he had, except
      that the row of a Remove has lost it, and that a newcomer comes in behind everybody. */
  lemma PlaceKept(s: Sched, op: Op, t: Sched, x: int)
    requires Settled(s) && Step(s, op, t) && !Reorders(op) && LiveQueued(t.rows, x)
    ensures || Keeps(s, t, x)
            || (Starts(op, x) && ComesLast(s, t, x))
            || (op == RemoveOp(x) && LiveQueued(s.rows, x) && Loose(t.rows, x))
  {
    if Statement(op) { StatementPlace(s, op, t, x); } else if !op.MoveOp? { ManagerPlace(s, op, t, x); }
  }

  /** A row is loose only if it was, or if this very operation is a Remove that found it waiting. Soft-deleting it,
      moving anybody, or starting or enqueueing it ends that. */
  lemma LooseOnlyByRemove(s: Sched, op: Op, t: Sched, x: int)
    requires Settled(s) && Step(s, op, t) && Loose(t.rows, x)
    ensures Loose(s.rows, x) || (op == RemoveOp(x) && LiveQueued(s.rows, x))
    ensures op != SoftDeleteOp(x) && !Starts(op, x) && !Reorders(op)
  {
    if Statement(op) {
      StatementPlace(s, op, t, x);
    } else if !op.MoveOp? {
      ManagerPlace(s, op, t, x);
    } else if op.delta != 0 {
      var ids :| Reordered(s, op.id, op.delta, ids, t);
      ReorderSettles(s, op.id, op.delta, ids, t);
    }
  }

  lemma RecoveredKeeps(s: Sched, limit: int, t: Sched, x: int)
    requires Settled(s) && Recovered(s, limit, t)
    ensures LiveQueued(t.rows, x) ==> Keeps(s, t, x)
  {
    ReconciledIsApart(s.rows);
    DrainedKeeps(Sched(ReconcileInterrupted(s.rows), s.queue, {}, limit, []), t, x);
  }

  // ---------------------------------------------------------------- whole runs

  ghost predicate Run(states: seq<Sched>, events: seq<Event>) {
    && |states| == |events| + 1
    && forall i :: 0 <= i < |events| ==> Happens(states[i], events[i], states[i + 1])
  }

  /** The deletes in flight after n events: rows taken out of the queue by a Remove and not soft-deleted since. */
  function InFlight(start: set<int>, events: seq<Event>, n: nat): set<int>
    requires n <= |events|
  {
    if n == 0 then start
    else
      var before := InFlight(start, events, n - 1);
      match events[n - 1]
      case Does(RemoveOp(id)) => before + {id}
      case Does(SoftDeleteOp(id)) => before - {id}
      case _ => before
  }

  /** The table as it will be once these rows are soft-deleted. */
  function Discarded(rows: Rows, gone: set<int>): Rows {
    map id | id in rows :: if id in gone then rows[id].(deleted := true) else rows[id]
  }

  /** All rows but these are in order. */
  ghost predicate OrderedBut(rows: Rows, gone: set<int>, queue: seq<int>) { InOrder(Discarded(rows, gone), queue) }

  lemma {:induction false} RunSettles(states: seq<Sched>, events: seq<Event>, n: nat)
    requires Run(states, events) && Settled(states[0]) && n < |states|
    ensures Settled(states[n])
    decreases n
  {
    if n > 0 {
      RunSettles(states, events, n - 1);
      EventSettles(states[n - 1], events[n - 1], states[n]);
    }
  }

  lemma LooseOnlyByEvent(s: Sched, e: Event, t: Sched, x: int)
    requires Settled(s) && Happens(s, e, t) && Loose(t.rows, x)
    ensures Loose(s.rows, x) || e == Does(RemoveOp(x))
    ensures e != Does(SoftDeleteOp(x))
  {
    match e
    case Does(op) => LooseOnlyByRemove(s, op, t, x);
    case Restarts(limit) => RecoveredKeeps(s, limit, t, x);
  }

  lemma {:induction false} RunLoose(states: seq<Sched>, events: seq<Event>, n: nat, x: int)
    requires Run(states, events) && Settled(states[0]) && n < |states| && Loose(states[n].rows, x)
    ensures x in InFlight(LooseIds(states[0].rows), events, n)
    decreases n
  {
    if n > 0 {
      RunSettles(states, events, n - 1);
      LooseOnlyByEvent(states[n - 1], events[n - 1], states[n], x);
      if Loose(states[n - 1].rows, x) { RunLoose(states, events, n - 1, x); }
    }
  }

  lemma OthersInOrder(rows: Rows, gone: set<int>) returns (queue: seq<int>)
    requires Apart(rows) && LooseIds(rows) <= gone
    ensures OrderedBut(rows, gone, queue)
  {
    var after := Discarded(rows, gone);
    forall x ensures LiveQueued(after, x) ==> LiveQueued(rows, x) && x !in gone && after[x] == rows[x] {}
    forall x ensures !Loose(after, x) { assert Loose(rows, x) ==> x in LooseIds(rows); }
    EmptyIfNone(LooseIds(after));
    queue := ApartIsOrdered(after);
  }

  lemma NothingDiscarded(rows: Rows)
    ensures Discarded(rows, {}) == rows
  {
  }

  /** The scheduler's invariant is a settled table without loose rows. */
  lemma SettledIsOrderedIff(s: Sched)
    ensures (exists queue :: Inv(s.(queue := queue))) <==> Settled(s) && LooseIds(s.rows) == {}
  {
    if queue :| Inv(s.(queue := queue)) {
      OrderedIsApart(s.rows, queue);
      forall id | id in s.active ensures !LiveQueued(s.rows, id) { WaitingIsPositioned(s.rows, queue, id); }
      if |s.active| < s.limit { EmptyIfNone(QueuedIds(s.rows)); }
    }
    if Settled(s) && LooseIds(s.rows) == {} {
      var queue := ApartIsOrdered(s.rows);
      OrderedIsInv(s, queue);
    }
  }

  lemma OrderedIsInv(s: Sched, queue: seq<int>)
    requires Settled(s) && InOrder(s.rows, queue)
    ensures Inv(s.(queue := queue))
  {
    forall id | id in s.active ensures id !in queue { assert id in queue <==> LiveQueued(s.rows, id); }
    if queue != [] { assert queue[0] in queue && queue[0] in QueuedIds(s.rows); }
  }

  /** After every run of the application, process exits and overtaken deletes included: all rows but those of the
      deletes in flight are in order, no running download waits, and nobody waits while a slot is free. When no delete
      is in flight the scheduler's invariant holds. */
  lemma RunKeeps(states: seq<Sched>, events: seq<Event>, n: nat) returns (queue: seq<int>)
    requires Run(states, events) && Settled(states[0]) && n < |states|
    ensures Settled(states[n])
    ensures OrderedBut(states[n].rows, InFlight(LooseIds(states[0].rows), events, n), queue)
    ensures InFlight(LooseIds(states[0].rows), events, n) == {} ==> Inv(states[n].(queue := queue))
  {
    RunSettles(states, events, n);
    var gone := InFlight(LooseIds(states[0].rows), events, n);
    forall x | x in LooseIds(states[n].rows) ensures x in gone { RunLoose(states, events, n, x); }
    queue := OthersInOrder(states[n].rows, gone);
    if gone == {} {
      NothingDiscarded(states[n].rows);
      OrderedIsInv(states[n], queue);
    }
  }

  /** As long as x waits, is not the row of a Remove, and nobody is moved, x keeps its position: whatever is started,
      added, deleted or recovered around it. */
  lemma {:induction false} RunKeepsPlace(states: seq<Sched>, events: seq<Event>, a: nat, b: nat, x: int)
    requires Run(states, events) && Settled(states[0]) && a <= b < |states|
    requires forall k :: a <= k <= b ==> LiveQueued(states[k].rows, x)
    requires forall k :: a <= k < b && events[k].Does? ==> !Reorders(events[k].op) && events[k].op != RemoveOp(x)
    requires !Loose(states[a].rows, x)
    ensures PositionOf(states[b].rows, x) == PositionOf(states[a].rows, x)
    decreases b
  {
    if a < b {
      RunKeepsPlace(states, events, a, b - 1, x);
      RunSettles(states, events, b - 1);
      match events[b - 1]
      case Does(op) => PlaceKept(states[b - 1], op, states[b], x);
      case Restarts(limit) => RecoveredKeeps(states[b - 1], limit, states[b], x);
    }
  }

  // ---------------------------------------------------------------- from a table in order, a step is the function's

  lemma {:induction false} OrderedDrainIsFill(s: Sched, seen: set<int>, ids: seq<int>, t: Sched)
    requires Ordered(s) && seen <= s.active && Drains(s, seen, ids, t)
    ensures t == Fill(s)
    decreases |ids|
  {
    if ids != [] {
      HeadIsNext(s.rows, s.queue, ids[0]);
      assert ids[0] in s.queue;
      FillStep(s);
      OrderedDrainIsFill(Launch(s, ids[0]), seen + {ids[0]}, ids[1..], t);
    } else if s.queue != [] {
      assert s.queue[0] in s.queue && s.queue[0] in QueuedIds(s.rows);
    }
  }

  lemma OrderedDrained(s: Sched, t: Sched)
    requires Ordered(s) && Drained(s, t)
    ensures t == Fill(s)
  {
    var ids :| Drains(s, {}, ids, t);
    OrderedDrainIsFill(s, {}, ids, t);
  }

  lemma OrderedAdmitted(s: Sched, id: int, t: Sched)
    requires Ordered(s) && id !in s.active && Admitted(s, id, t)
    ensures t == if |s.active| < s.limit then Launch(s, id) else Append(s, id)
  {
    if |s.active| >= s.limit && t != s {
      var max :| Highest(s.rows, max) && t == s.(rows := Enqueue(s.rows, id, max), queue := s.queue + [id]);
      LastIsMax(s.rows, s.queue, max);
      if s.queue != [] { WaitingIsPositioned(s.rows, s.queue, s.queue[|s.queue| - 1]); }
      assert Back(s) == max;
    } else if |s.active| >= s.limit && id in s.rows && !s.rows[id].deleted {
      WaitingIsPositioned(s.rows, s.queue, id);
    }
  }

  /** From a table in order, the manager's operations are the functions of the scheduler, whatever ties and maxima the
      statements come across. */
  lemma OrderedStepIsNext(s: Sched, op: Op, t: Sched)
    requires Ordered(s) && Step(s, op, t)
    ensures Next(s, op, t)
  {
    match op
    case TryStartOp(id) => if t != s { OrderedAdmitted(s, id, t); }
    case EnqueueScheduledOp(id) =>
      ScheduledAtKeeps(s, id, None);
      if id !in s.active { OrderedAdmitted(s.(rows := SetScheduledAt(s.rows, id, None)), id, t); }
    case OnDoneOp(id) => if id in s.active { ReleasedOrdered(s, id); OrderedDrained(Slotless(s, id), t); }
    case SetMaxOp(n) => OrderedDrained(s.(limit := if n < 1 then 1 else n), t);
    case DrainOp => OrderedDrained(s, t);
    case MoveOp(id, delta) => OrderedMove(s, id, delta, t);
    case _ =>
  }

  lemma OrderedMove(s: Sched, id: int, delta: int, t: Sched)
    requires Ordered(s) && Step(s, MoveOp(id, delta), t)
    ensures Next(s, MoveOp(id, delta), t)
  {
    if delta != 0 {
      var ids :| Reordered(s, id, delta, ids, t);
      ListingIsQueue(s.rows, s.queue, ids);
      MovedDistinct(ids, id, delta);
      RenumberedInOrder(s.rows, t.rows, t.queue);
      RenumberedMovesOnly(s.rows, t.rows, t.queue);
    }
  }

  /** Freeing a slot and draining is what OnDone does. */
  lemma FreedAndDrained(s: Sched, id: int, t: Sched)
    requires id in s.active && Drained(Slotless(s, id), t) && Balanced(Slotless(s, id), t)
    requires Undisturbed(Slotless(s, id).rows, t.rows)
    ensures ReleasedBy(s, id, t) && Step(s, OnDoneOp(id), t) && Undisturbed(s.rows, t.rows)
    ensures Ordered(s) ==> t == OnDone(s, id)
  {
    FreedThenBalanced(s, id, t);
    if Ordered(s) { OrderedStepIsNext(s, OnDoneOp(id), t); }
  }

  /** Whom the slot goes to is marked, and the row it was taken from has lost its position, and nothing else, unless it
      is started again. */
  lemma FreedRows(s: Sched, id: int, t: Sched)
    requires id in s.active && Drained(Slotless(s, id), t)
    ensures forall x :: x in t.active && x !in s.active ==> Started(s.rows, t.rows, x)
    ensures id !in t.active && id in t.rows ==> id in s.rows && t.rows[id] == s.rows[id].(position := None)
  {
    forall x | x in t.active && x !in s.active ensures Started(s.rows, t.rows, x) {
      DrainedMarksStarts(Slotless(s, id), t, x);
    }
    if id !in t.active {
      var ids :| Drains(Slotless(s, id), {}, ids, t);
      IdleIsLeft(Slotless(s, id), {}, ids, t, id);
    }
  }

  /** What an operation does to either invariant. */
  lemma StepKeepsQueue(s: Sched, op: Op, t: Sched)
    requires Step(s, op, t)
    ensures Inv(s) ==> Next(s, op, t) && (Inv(t) <==> Safe(s, op))
    ensures Settled(s) ==> Settled(t)
  {
    if Inv(s) {
      OrderedStepIsNext(s, op, t);
      NextKeeps(s, op, t);
    }
    if Settled(s) { StepSettles(s, op, t); }
  }

  // ---------------------------------------------------------------- drainQueue, turn by turn

  /** Having met `ids`, the drain that began in s goes on from `now`. */
  ghost predicate GoesOn(s: Sched, ids: seq<int>, now: Sched, seen: set<int>) {
    forall rest, t :: Drains(now, seen, rest, t) ==> Drains(s, {}, ids + rest, t)
  }

  lemma DrainBegins(s: Sched)
    ensures GoesOn(s, [], s, {})
  {
    forall rest, t | Drains(s, {}, rest, t) ensures Drains(s, {}, [] + rest, t) { assert [] + rest == rest; }
  }

  lemma DrainGoesOn(s: Sched, ids: seq<int>, now: Sched, seen: set<int>, id: int)
    requires GoesOn(s, ids, now, seen) && |now.active| < now.limit && NextUp(now.rows, id) && id !in seen
    ensures GoesOn(s, ids + [id], Turn(now, id), seen + {id})
  {
    forall rest, t | Drains(Turn(now, id), seen + {id}, rest, t) ensures Drains(s, {}, ids + [id] + rest, t) {
      assert ([id] + rest)[1..] == rest && id in QueuedIds(now.rows);
      assert Drains(now, seen, [id] + rest, t);
      assert ids + [id] + rest == ids + ([id] + rest);
    }
  }

  /** It stops when there is no slot or nobody waits, or at a row it has seen. */
  lemma DrainStops(s: Sched, ids: seq<int>, now: Sched, seen: set<int>)
    requires GoesOn(s, ids, now, seen)
    requires |now.active| >= now.limit || QueuedIds(now.rows) == {} || exists id :: NextUp(now.rows, id) && id in seen
    ensures Drained(s, now)
  {
    if |now.active| >= now.limit || QueuedIds(now.rows) == {} {
      assert Drains(now, seen, [], now);
    } else {
      var id :| NextUp(now.rows, id) && id in seen;
      assert Drains(now, seen, [id], now);
    }
  }

  // ---------------------------------------------------------------- nobody jumps the queue

  lemma {:induction false} DrainStartsInOrder(s: Sched, seen: set<int>, ids: seq<int>, t: Sched, x: int, y: int)
    requires Apart(s.rows) && NoneRunsAndWaits(s) && seen <= s.active && Drains(s, seen, ids, t)
    requires x !in s.active && x in t.active && LiveQueued(t.rows, y)
    ensures LiveQueued(s.rows, x) && LiveQueued(s.rows, y) && !Before(s.rows[y], s.rows[x])
    decreases |ids|
  {
    if ids != [] {
      var u := Launch(s, ids[0]);
      LaunchSettles(s, ids[0]);
      DrainedRows(s, seen, ids, t, y);
      if x != ids[0] { DrainStartsInOrder(u, seen + {ids[0]}, ids[1..], t, x, y); }
    }
  }

  lemma DrainedInOrder(s: Sched, t: Sched, x: int, y: int)
    requires Apart(s.rows) && NoneRunsAndWaits(s) && Drained(s, t)
    requires x !in s.active && x in t.active && LiveQueued(t.rows, y)
    ensures LiveQueued(s.rows, x) && LiveQueued(s.rows, y) && !Before(s.rows[y], s.rows[x])
  {
    var ids :| Drains(s, {}, ids, t);
    DrainStartsInOrder(s, {}, ids, t, x, y);
  }

  /** A download that does not come out of the queue is started only while nobody waits. */
  lemma StartsAlone(s: Sched, op: Op, t: Sched)
    requires Settled(s) && Step(s, op, t) && !op.OnDoneOp? && !op.SetMaxOp? && !op.DrainOp? && t.active != s.active
    ensures QueuedIds(t.rows) == {}
  {
    match op
    case TryStartOp(id) => LaunchSettles(s, id);
    case EnqueueScheduledOp(id) =>
      var u := s.(rows := SetScheduledAt(s.rows, id, None));
      StatementSettles(s, ScheduleOp(id, None), u);
      LaunchSettles(u, id);
    case _ =>
  }

  /** When an operation starts x and y is left waiting, x was waiting and y was not before it: positions decide, and a
      loose row is never preferred to one with a position. */
  lemma StartsInOrder(s: Sched, op: Op, t: Sched, x: int, y: int)
    requires Settled(s) && Step(s, op, t) && x !in s.active && x in t.active && LiveQueued(t.rows, y)
    ensures LiveQueued(s.rows, x) && LiveQueued(s.rows, y) && !Before(s.rows[y], s.rows[x])
    ensures Loose(s.rows, x) ==> Loose(s.rows, y)
  {
    match op
    case OnDoneOp(id) =>
      SlotlessIsApart(s, id);
      DrainedInOrder(Slotless(s, id), t, x, y);
    case SetMaxOp(n) => DrainedInOrder(s.(limit := if n < 1 then 1 else n), t, x, y);
    case DrainOp => DrainedInOrder(s, t, x, y);
    case _ => StartsAlone(s, op, t);
  }

  lemma {:induction false} DrainWithin(s: Sched, seen: set<int>, ids: seq<int>, t: Sched)
    requires Drains(s, seen, ids, t)
    ensures t.limit == s.limit && (|t.active| > |s.active| ==> |t.active| <= t.limit)
    ensures |s.active| <= |t.active|
    decreases |ids|
  {
    if ids != [] && ids[0] !in seen { DrainWithin(Turn(s, ids[0]), seen + {ids[0]}, ids[1..], t); }
  }

  /** From any table at all, the number of running downloads only grows to a value within the limit in force. */
  lemma WithinLimit(s: Sched, op: Op, t: Sched)
    requires Step(s, op, t) && |t.active| > |s.active|
    ensures |t.active| <= t.limit
  {
    match op
    case OnDoneOp(id) => var ids :| Drains(Slotless(s, id), {}, ids, t); DrainWithin(Slotless(s, id), {}, ids, t);
    case SetMaxOp(n) =>
      var u := s.(limit := if n < 1 then 1 else n);
      var ids :| Drains(u, {}, ids, t);
      DrainWithin(u, {}, ids, t);
    case DrainOp => var ids :| Drains(s, {}, ids, t); DrainWithin(s, {}, ids, t);
    case _ =>
  }

  /** A Move numbers the loose rows first: the one way past a waiting row. */
  lemma MoveMendsAhead(s: Sched, id: int, delta: int, t: Sched, x: int, y: int)
    requires Settled(s) && delta != 0 && Step(s, MoveOp(id, delta), t) && !LiveQueued(s.rows, id)
    requires Loose(s.rows, x) && LiveQueued(s.rows, y) && !Loose(s.rows, y)
    ensures LooseIds(t.rows) == {} && InFront(t.rows, x, y)
  {
    var ids :| Reordered(s, id, delta, ids, t);
    ReorderSettles(s, id, delta, ids, t);
    assert x in ids && y in ids;
    var i :| 0 <= i < |ids| && ids[i] == x;
    var j :| 0 <= j < |ids| && ids[j] == y;
    assert Moved(ids, id, delta) == ids;
    assert i < j;
    assert t.rows[ids[i]].position == Some(i + 1) && t.rows[ids[j]].position == Some(j + 1);
  }
}
