/** The queue manager as a function of its state: who runs, who waits and in what order. */
module Scheduler {
  import opened Basics
  import opened Wrappers
  import opened Tables
  import opened Storage

  /** `queue` lists the live queued rows by position; `started` logs the calls of startFn. */
  datatype Sched = Sched(rows: Rows, queue: seq<int>, active: set<int>, limit: int, started: seq<int>)

  /** The table is in order and no running download is also waiting. */
  ghost predicate Ordered(s: Sched) {
    InOrder(s.rows, s.queue) && forall id :: id in s.active ==> id !in s.queue
  }

  /** Work conservation: nobody waits while a slot is free. */
  predicate Conserved(s: Sched) {
    s.queue != [] ==> |s.active| >= s.limit
  }

  ghost predicate Inv(s: Sched) { Ordered(s) && Conserved(s) }

  // ---------------------------------------------------------------- operations of the manager

  /** Taking a slot for id and promoting its row. */
  function Launch(s: Sched, id: int): Sched {
    s.(rows := MarkDownloading(s.rows, id), queue := Without(s.queue, id),
       active := s.active + {id}, started := s.started + [id])
  }

  /** drainQueue: start the head of the queue while slots are free. */
  function Fill(s: Sched): Sched
    decreases |s.queue|
  {
    if s.queue == [] || |s.active| >= s.limit then s
    else
      var head := s.queue[0];
      Fill(s.(rows := MarkDownloading(s.rows, head), queue := s.queue[1..],
              active := s.active + {head}, started := s.started + [head]))
  }

  function Back(s: Sched): int {
    if s.queue == [] then 0
    else
      var last := s.queue[|s.queue| - 1];
      if last in s.rows && s.rows[last].position.Some? then s.rows[last].position.value else 0
  }

  /** Manager.enqueue: to the back, unless the row is gone or already waiting. */
  function Append(s: Sched, id: int): Sched {
    if id !in s.rows || s.rows[id].deleted then s
    else if s.rows[id].status == Queued && s.rows[id].position.Some? then s
    else s.(rows := Enqueue(s.rows, id, Back(s)), queue := s.queue + [id])
  }

  function TryStart(s: Sched, id: int): Sched {
    if id in s.active || id !in s.rows || s.rows[id].deleted then s
    else if |s.active| < s.limit then Launch(s, id)
    else Append(s, id)
  }

  function EnqueueScheduled(s: Sched, id: int): Sched {
    var t := s.(rows := SetScheduledAt(s.rows, id, None));
    if id in t.active then t
    else if |t.active| < t.limit then Launch(t, id)
    else Append(t, id)
  }

  function OnDone(s: Sched, id: int): Sched {
    if id !in s.active then s
    else Fill(s.(active := s.active - {id}, rows := SetPosition(s.rows, id, None)))
  }

  function SetMaxConcurrent(s: Sched, n: int): Sched {
    Fill(s.(limit := if n < 1 then 1 else n))
  }

  /** Remove: a waiting row loses its position; a running one keeps everything. */
  function Remove(s: Sched, id: int): Sched {
    if id in s.active then s else s.(rows := SetPosition(s.rows, id, None))
  }

  /** The soft delete of storage. */
  function Discard(s: Sched, id: int): Sched {
    s.(rows := SoftDelete(s.rows, id), queue := Without(s.queue, id))
  }

  // ---------------------------------------------------------------- everything the application does to this state

  datatype Op =
    | TryStartOp(id: int)
    | EnqueueScheduledOp(id: int)
    | OnDoneOp(id: int)
    | SetMaxOp(n: int)
    | DrainOp
    | RemoveOp(id: int)
    | SoftDeleteOp(id: int)
    | StatusOp(id: int, status: Status)
    | RestoreOp(id: int)
    | ResetOp(id: int, status: Status)
    | PurgeOp(ids: set<int>)
    | CreateOp(id: int, filename: string, created: int)
    | ScheduleOp(id: int, at: Option<string>)
    | ProgressOp(id: int, downloadedSize: int)
    | RenameOp(id: int, filename: string)
    | MoveOp(id: int, delta: int)

  /** What one operation may do. No caller in the application ever writes the status "queued" directly, and ids are
      never reused. */
  ghost predicate Next(s: Sched, op: Op, t: Sched) {
    match op
    case TryStartOp(id) => t == TryStart(s, id)
    case EnqueueScheduledOp(id) => t == EnqueueScheduled(s, id)
    case OnDoneOp(id) => t == OnDone(s, id)
    case SetMaxOp(n) => t == SetMaxConcurrent(s, n)
    case DrainOp => t == Fill(s)
    case RemoveOp(id) => t == Remove(s, id)
    case SoftDeleteOp(id) => t == Discard(s, id)
    case StatusOp(id, status) =>
      status != Queued && t == s.(rows := UpdateStatus(s.rows, id, status), queue := Without(s.queue, id))
    case RestoreOp(id) => t == s.(rows := Restore(s.rows, id))
    case ResetOp(id, status) =>
      && status != Queued
      && t == s.(rows := ResetRow(s.rows, id, status),
                 queue := if id in s.rows && !s.rows[id].deleted then Without(s.queue, id) else s.queue)
    case PurgeOp(ids) => t == s.(rows := Purge(s.rows, ids))
    case CreateOp(id, filename, created) =>
      id !in s.rows && t == s.(rows := Insert(s.rows, id, Row(filename, Pending, None, None, false, created, 0)))
    case ScheduleOp(id, at) => t == s.(rows := SetScheduledAt(s.rows, id, at))
    case ProgressOp(id, size) =>
      id in s.rows && t == s.(rows := s.rows[id := s.rows[id].(downloadedSize := size)])
    case RenameOp(id, filename) => t == s.(rows := UpdateFilename(s.rows, id, filename))
    case MoveOp(id, delta) =>
      && t == s.(rows := t.rows, queue := Moved(s.queue, id, delta))
      && InOrder(t.rows, t.queue) && SameButPosition(s.rows, t.rows)
  }

  /** Whether an operation is one the queue survives: only Remove can fail to be, when somebody has put the row back
      into the queue between the cancel and the Remove of a delete. */
  predicate Safe(s: Sched, op: Op) {
    op.RemoveOp? && op.id !in s.active ==> !LiveQueued(s.rows, op.id)
  }

  // ---------------------------------------------------------------- filling free slots

  lemma {:induction false} WithoutHead(queue: seq<int>)
    requires Distinct(queue) && queue != []
    ensures Without(queue, queue[0]) == queue[1..]
  {
    assert queue[0] !in queue[1..];
  }

  lemma LaunchOrdered(s: Sched, id: int)
    requires Ordered(s) && id !in s.active
    ensures Ordered(Launch(s, id))
  {
    if id in s.rows {
      LeavesQueue(s.rows, s.queue, id, s.rows[id].(status := Downloading, position := None));
    } else {
      assert !LiveQueued(s.rows, id);
    }
  }

  function FreeSlots(s: Sched): nat {
    var free := s.limit - |s.active|;
    if free < 0 then 0 else if free > |s.queue| then |s.queue| else free
  }

  function IdSet(ids: seq<int>): set<int> { set id | id in ids }

  lemma IdSetEmpty(q: seq<int>)
    ensures IdSet(q[..0]) == {}
  {
  }

  lemma IdSetHead(q: seq<int>, k: nat)
    requires 0 < k <= |q|
    ensures IdSet(q[..k]) == {q[0]} + IdSet(q[1..][..k - 1])
  {
    assert q[..k] == [q[0]] + q[1..][..k - 1];
    forall x ensures x in IdSet(q[..k]) <==> x in {q[0]} + IdSet(q[1..][..k - 1]) {
      assert x in q[..k] <==> x == q[0] || x in q[1..][..k - 1];
    }
  }

  lemma FillStep(s: Sched)
    requires Ordered(s) && s.queue != [] && |s.active| < s.limit
    ensures var t := Launch(s, s.queue[0]);
            && Fill(s) == Fill(t) && Ordered(t) && t.queue == s.queue[1..]
            && |t.active| == |s.active| + 1 && t.started == s.started + [s.queue[0]]
  {
    LaunchOrdered(s, s.queue[0]);
    WithoutHead(s.queue);
    assert s.queue[0] in s.queue;
  }

  lemma {:induction false} FillKeepsOrder(s: Sched)
    requires Ordered(s)
    ensures Ordered(Fill(s)) && Conserved(Fill(s)) && Fill(s).limit == s.limit
    decreases |s.queue|
  {
    if s.queue != [] && |s.active| < s.limit {
      FillStep(s);
      FillKeepsOrder(Launch(s, s.queue[0]));
    }
  }

  lemma HeadAndRest(q: seq<int>, k: nat)
    requires 0 < k <= |q|
    ensures q[1..][k - 1..] == q[k..] && [q[0]] + q[1..][..k - 1] == q[..k]
  {
  }

  lemma StartedChain(a: seq<int>, x: int, b: seq<int>)
    ensures (a + [x]) + b == a + ([x] + b)
  {
  }

  lemma {:induction false} FillQueue(s: Sched, k: nat)
    requires Ordered(s) && k == FreeSlots(s)
    ensures Fill(s).queue == s.queue[k..] && Fill(s).started == s.started + s.queue[..k]
    decreases |s.queue|
  {
    if s.queue != [] && |s.active| < s.limit {
      FillStep(s);
      var t := Launch(s, s.queue[0]);
      FillQueue(t, k - 1);
      HeadAndRest(s.queue, k);
      StartedChain(s.started, s.queue[0], t.queue[..k - 1]);
    }
  }

  lemma {:induction false} FillActive(s: Sched, k: nat)
    requires Ordered(s) && k == FreeSlots(s)
    ensures Fill(s).active == s.active + IdSet(s.queue[..k]) && |Fill(s).active| == |s.active| + k
    decreases |s.queue|
  {
    if s.queue != [] && |s.active| < s.limit {
      FillStep(s);
      var t := Launch(s, s.queue[0]);
      FillActive(t, k - 1);
      IdSetHead(s.queue, k);
    } else {
      IdSetEmpty(s.queue);
    }
  }

  /** drainQueue starts exactly the first min(free slots, N) downloads of the queue, in order and each once, and
      leaves the rest waiting in their order. */
  lemma FillStartsTheFirstFree(s: Sched)
    requires Ordered(s)
    ensures var k := FreeSlots(s);
            && Fill(s).queue == s.queue[k..]
            && Fill(s).started == s.started + s.queue[..k]
            && Fill(s).active == s.active + IdSet(s.queue[..k])
            && |Fill(s).active| == |s.active| + k
    ensures Ordered(Fill(s)) && Conserved(Fill(s)) && Fill(s).limit == s.limit
  {
    FillQueue(s, FreeSlots(s));
    FillActive(s, FreeSlots(s));
    FillKeepsOrder(s);
  }

  // ---------------------------------------------------------------- what every operation keeps

  lemma AppendKeeps(s: Sched, id: int)
    requires Ordered(s) && id !in s.active
    ensures Ordered(Append(s, id)) && Append(s, id).active == s.active
  {
    if id in s.rows && !s.rows[id].deleted && !(s.rows[id].status == Queued && s.rows[id].position.Some?) {
      WaitingIsPositioned(s.rows, s.queue, id);
      if s.queue != [] { assert Positioned(s.rows, s.queue[|s.queue| - 1]); }
      EntersQueue(s.rows, s.queue, id, Back(s));
    }
  }

  /** A row statement that takes the row out of the queue, or leaves it out. */
  lemma RowLeaves(s: Sched, id: int, row: Row)
    requires Inv(s) && !(row.status == Queued && !row.deleted)
    ensures Inv(s.(rows := s.rows[id := row], queue := Without(s.queue, id)))
  {
    LeavesQueue(s.rows, s.queue, id, row);
    if Without(s.queue, id) != [] { assert Without(s.queue, id)[0] in s.queue; }
  }

  lemma ScheduledAtKeeps(s: Sched, id: int, at: Option<string>)
    requires Ordered(s)
    ensures Ordered(s.(rows := SetScheduledAt(s.rows, id, at)))
  {
    if id in s.rows { InsideQueue(s.rows, s.queue, id, s.rows[id].(scheduledAt := at)); }
  }

  lemma NotQueuedHere(s: Sched, id: int)
    requires Ordered(s) && (id !in s.rows || s.rows[id].deleted || id in s.active)
    ensures id !in s.queue
  {
    WaitingIsPositioned(s.rows, s.queue, id);
  }

  lemma ManagerKeeps(s: Sched, op: Op, t: Sched)
    requires Inv(s) && Next(s, op, t)
    requires op.TryStartOp? || op.EnqueueScheduledOp? || op.OnDoneOp? || op.SetMaxOp? || op.DrainOp?
    ensures Inv(t)
  {
    match op
    case TryStartOp(id) =>
      if id !in s.active { LaunchOrdered(s, id); AppendKeeps(s, id); }
    case EnqueueScheduledOp(id) =>
      ScheduledAtKeeps(s, id, None);
      var u := s.(rows := SetScheduledAt(s.rows, id, None));
      if id !in u.active { LaunchOrdered(u, id); AppendKeeps(u, id); }
    case OnDoneOp(id) =>
      if id in s.active {
        ReleasedOrdered(s, id);
        FillStartsTheFirstFree(s.(active := s.active - {id}, rows := SetPosition(s.rows, id, None)));
      }
    case SetMaxOp(n) => FillStartsTheFirstFree(s.(limit := if n < 1 then 1 else n));
    case DrainOp => FillStartsTheFirstFree(s);
  }

  lemma ReleasedOrdered(s: Sched, id: int)
    requires Ordered(s) && id in s.active
    ensures Ordered(s.(active := s.active - {id}, rows := SetPosition(s.rows, id, None)))
  {
    NotQueuedHere(s, id);
    if id in s.rows {
      assert !LiveQueued(s.rows, id);
      OutsideQueue(s.rows, s.queue, id, s.rows[id].(position := None));
    }
  }

  lemma DiscardKeeps(s: Sched, id: int)
    requires Inv(s)
    ensures Inv(Discard(s, id))
  {
    if id in s.rows {
      RowLeaves(s, id, s.rows[id].(deleted := true));
    } else {
      NotQueuedHere(s, id);
    }
  }

  /** Remove keeps the order exactly when the row it clears is not waiting. */
  lemma RemoveKeepsIff(s: Sched, id: int)
    requires Inv(s)
    ensures Inv(Remove(s, id)) <==> Safe(s, RemoveOp(id))
  {
    if id !in s.active {
      if LiveQueued(s.rows, id) {
        WaitingIsPositioned(Remove(s, id).rows, s.queue, id);
      } else if id in s.rows {
        assert id !in s.queue;
        OutsideQueue(s.rows, s.queue, id, s.rows[id].(position := None));
      }
    }
  }

  lemma RestoreKeeps(s: Sched, id: int)
    requires Inv(s)
    ensures Inv(s.(rows := Restore(s.rows, id)))
  {
    if id in s.rows && s.rows[id].deleted {
      NotQueuedHere(s, id);
      OutsideQueue(s.rows, s.queue, id, Restore(s.rows, id)[id]);
    }
  }

  lemma PurgeKeepsOrder(s: Sched, ids: set<int>)
    requires Inv(s)
    ensures Inv(s.(rows := Purge(s.rows, ids)))
  {
    var after := Purge(s.rows, ids);
    forall x ensures x in s.queue <==> LiveQueued(after, x) { assert x in s.queue <==> LiveQueued(s.rows, x); }
    forall i | 0 <= i < |s.queue| ensures Positioned(after, s.queue[i]) && after[s.queue[i]] == s.rows[s.queue[i]] {
      assert Positioned(s.rows, s.queue[i]) && s.queue[i] in s.queue;
    }
  }

  lemma RowKeeps(s: Sched, op: Op, t: Sched)
    requires Inv(s) && Next(s, op, t)
    requires || op.StatusOp? || op.ResetOp? || op.CreateOp? || op.ScheduleOp?
             || op.ProgressOp? || op.RenameOp? || op.MoveOp?
    ensures Inv(t)
  {
    match op
    case StatusOp(id, status) =>
      if id in s.rows { RowLeaves(s, id, s.rows[id].(status := status)); } else { NotQueuedHere(s, id); }
    case ResetOp(id, status) =>
      if id in s.rows && !s.rows[id].deleted { RowLeaves(s, id, ResetRow(s.rows, id, status)[id]); }
    case CreateOp(id, filename, created) =>
      NotQueuedHere(s, id);
      OutsideQueue(s.rows, s.queue, id, Row(filename, Pending, None, None, false, created, 0));
    case ScheduleOp(id, at) => ScheduledAtKeeps(s, id, at);
    case ProgressOp(id, size) => InsideQueue(s.rows, s.queue, id, s.rows[id].(downloadedSize := size));
    case RenameOp(id, filename) =>
      if id in s.rows { InsideQueue(s.rows, s.queue, id, s.rows[id].(filename := filename)); }
    case MoveOp(id, delta) => MovedDistinct(s.queue, id, delta);
  }

  /** Every operation of the application keeps the queue in order and the work conserved, unless it is a Remove of a row
      that is waiting. */
  lemma NextKeeps(s: Sched, op: Op, t: Sched)
    requires Inv(s) && Next(s, op, t)
    ensures Inv(t) <==> Safe(s, op)
  {
    match op
    case RemoveOp(id) => RemoveKeepsIff(s, id);
    case SoftDeleteOp(id) => DiscardKeeps(s, id);
    case RestoreOp(id) => RestoreKeeps(s, id);
    case PurgeOp(ids) => PurgeKeepsOrder(s, ids);
    case StatusOp(_, _) => RowKeeps(s, op, t);
    case ResetOp(_, _) => RowKeeps(s, op, t);
    case CreateOp(_, _, _) => RowKeeps(s, op, t);
    case ScheduleOp(_, _) => RowKeeps(s, op, t);
    case ProgressOp(_, _) => RowKeeps(s, op, t);
    case RenameOp(_, _) => RowKeeps(s, op, t);
    case MoveOp(_, _) => RowKeeps(s, op, t);
    case _ => ManagerKeeps(s, op, t);
  }

  // ---------------------------------------------------------------- slots

  /** The calls of startFn made between two states. */
  function NewStarts(s: Sched, t: Sched): multiset<int>
    requires s.started <= t.started
  {
    multiset(t.started[|s.started|..])
  }

  /** The starts made between two states are exactly the ids that have become active, each once; nothing is released. */
  ghost predicate Balanced(s: Sched, t: Sched) {
    && s.started <= t.started
    && forall id :: Bit(id in t.active) == Bit(id in s.active) + NewStarts(s, t)[id]
  }

  /** What a call of OnDone may do to the slots: nothing if the id is not running, otherwise free it and hand slots
      out. */
  ghost predicate ReleasedBy(s: Sched, id: int, t: Sched) {
    && s.started <= t.started
    && if id in s.active then Balanced(s.(active := s.active - {id}), t) else t == s
  }

  /** Rows that were not waiting keep their status; no row comes or goes. */
  predicate Undisturbed(before: Rows, after: Rows) {
    && before.Keys == after.Keys
    && forall x :: x in before && !LiveQueued(before, x) ==>
         after[x].status == before[x].status && after[x].deleted == before[x].deleted
  }

  lemma NothingStarted(s: Sched, t: Sched)
    requires t.active == s.active && t.started == s.started
    ensures Balanced(s, t) && NewStarts(s, t) == multiset{}
  {
    assert t.started[|s.started|..] == [];
  }

  lemma OneStarted(s: Sched, t: Sched, id: int)
    requires id !in s.active && t.active == s.active + {id} && t.started == s.started + [id]
    ensures Balanced(s, t)
  {
    assert t.started[|s.started|..] == [id];
  }

  /** Starts made after a slot was freed make a release. */
  lemma FreedThenBalanced(s: Sched, id: int, t: Sched)
    requires id in s.active
    requires Balanced(s.(active := s.active - {id}, rows := SetPosition(s.rows, id, None)), t)
    ensures ReleasedBy(s, id, t)
  {
  }

  lemma BalancedChain(s: Sched, t: Sched, u: Sched)
    requires Balanced(s, t) && Balanced(t, u)
    ensures Balanced(s, u)
  {
    assert u.started[|s.started|..] == t.started[|s.started|..] + u.started[|t.started|..];
    assert NewStarts(s, u) == NewStarts(s, t) + NewStarts(t, u);
    forall id ensures Bit(id in u.active) == Bit(id in s.active) + NewStarts(s, u)[id] {
      assert Bit(id in t.active) == Bit(id in s.active) + NewStarts(s, t)[id];
      assert Bit(id in u.active) == Bit(id in t.active) + NewStarts(t, u)[id];
    }
  }

  // ---------------------------------------------------------------- a delete that is overtaken

  /** A due download is cancelled by the page and then, already listed as due, put into the queue. */
  lemma CancelledAndRescheduled(s: Sched, id: int) returns (a: Sched, b: Sched, b': Sched, c: Sched)
    requires Inv(s) && id in s.rows && s.rows[id].status == Scheduled && !s.rows[id].deleted
    requires id !in s.active && |s.active| >= s.limit
    ensures Next(s, StatusOp(id, Cancelled), a) && Next(a, StatusOp(id, Pending), b)
    ensures Next(b, ScheduleOp(id, None), b') && Next(b', EnqueueScheduledOp(id), c)
    ensures Inv(c) && LiveQueued(c.rows, id) && id !in c.active
  {
    assert id !in s.queue by { WaitingIsPositioned(s.rows, s.queue, id); }
    a := s.(rows := UpdateStatus(s.rows, id, Cancelled), queue := Without(s.queue, id));
    NextKeeps(s, StatusOp(id, Cancelled), a);
    b := a.(rows := UpdateStatus(a.rows, id, Pending), queue := Without(a.queue, id));
    NextKeeps(a, StatusOp(id, Pending), b);
    b' := b.(rows := SetScheduledAt(b.rows, id, None));
    NextKeeps(b, ScheduleOp(id, None), b');
    c := EnqueueScheduled(b', id);
    NextKeeps(b', EnqueueScheduledOp(id), c);
  }

  /** The minute scheduler has listed a due download, the page cancels it in order to delete it, the scheduler puts it
      into the queue, and only then does the page call Remove: a live queued row without a position. The soft delete
      that follows mends it. */
  lemma DeleteOvertaken(s: Sched, id: int)
    returns (a: Sched, b: Sched, b': Sched, c: Sched, d: Sched, e: Sched)
    requires Inv(s) && id in s.rows && s.rows[id].status == Scheduled && !s.rows[id].deleted
    requires id !in s.active && |s.active| >= s.limit
    ensures Next(s, StatusOp(id, Cancelled), a) && Next(a, StatusOp(id, Pending), b)
    ensures Next(b, ScheduleOp(id, None), b') && Next(b', EnqueueScheduledOp(id), c)
    ensures Next(c, RemoveOp(id), d) && Next(d, SoftDeleteOp(id), e)
    ensures LiveQueued(d.rows, id) && d.rows[id].position == None && forall queue :: !InOrder(d.rows, queue)
    ensures Inv(e)
  {
    a, b, b', c := CancelledAndRescheduled(s, id);
    d := Remove(c, id);
    RemoveKeepsOrderIff(c, id);
    e := Discard(d, id);
    DiscardMends(c, id);
  }

  /** The same at a concrete input: one slot, download 1 running in it, download 2 due. */
  function OneDue(): Sched {
    Sched(map[1 := Row("a", Downloading, None, None, false, 0, 0),
              2 := Row("b", Status.Scheduled, None, Some("10:00"), false, 0, 0)], [], {1}, 1, [1])
  }

  lemma OneDueInOrder()
    ensures Inv(OneDue())
  {
    forall x ensures !LiveQueued(OneDue().rows, x) {}
  }

  lemma OvertakenExample() returns (a: Sched, b: Sched, b': Sched, c: Sched, d: Sched, e: Sched)
    ensures Inv(OneDue())
    ensures Next(OneDue(), StatusOp(2, Cancelled), a) && Next(a, StatusOp(2, Pending), b)
    ensures Next(b, ScheduleOp(2, None), b') && Next(b', EnqueueScheduledOp(2), c)
    ensures Next(c, RemoveOp(2), d) && Next(d, SoftDeleteOp(2), e)
    ensures LiveQueued(d.rows, 2) && d.rows[2].position == None && forall queue :: !InOrder(d.rows, queue)
    ensures Inv(e)
  {
    OneDueInOrder();
    var s := OneDue();
    assert 2 in s.rows && s.rows[2].status == Status.Scheduled && 2 !in s.active && |s.active| >= s.limit;
    a, b, b', c, d, e := DeleteOvertaken(s, 2);
  }

  /** Whatever Remove did to the row, once it is soft-deleted the queue of the others is in order and conserved. */
  lemma DiscardMends(s: Sched, id: int)
    requires Inv(s)
    ensures Inv(Discard(Remove(s, id), id))
  {
    if id in s.rows {
      var row := s.rows[id].(position := if id in s.active then s.rows[id].position else None, deleted := true);
      assert Discard(Remove(s, id), id).rows == s.rows[id := row];
      RowLeaves(s, id, row);
    } else {
      NotQueuedHere(s, id);
    }
  }

  /** The drain at startup makes any ordered state one from which everything else is kept. */
  lemma FirstDrainEstablishes(s: Sched)
    requires Ordered(s)
    ensures Inv(Fill(s))
  {
    FillStartsTheFirstFree(s);
  }

  /** RecoverDownloads: whatever a previous process left running, the interrupted rows become paused and the first drain
      establishes the invariant, with nothing marked as downloading that was not just started. */
  lemma RecoveryEstablishes(s: Sched, id: int)
    requires Ordered(s) && s.active == {}
    ensures var t := Fill(s.(rows := ReconcileInterrupted(s.rows)));
      && Inv(t)
      && (id in t.rows && t.rows[id].status == Downloading && !t.rows[id].deleted ==> id in t.active)
  {
    InterruptedKeepsOrder(s.rows, s.queue);
    var u := s.(rows := ReconcileInterrupted(s.rows));
    FirstDrainEstablishes(u);
    FillMarksItsStarts(u, id);
  }

  predicate MarkedOnlyIfActive(s: Sched, id: int) {
    id in s.rows && s.rows[id].status == Downloading && !s.rows[id].deleted ==> id in s.active
  }

  lemma {:induction false} FillMarksItsStarts(s: Sched, id: int)
    requires Ordered(s) && MarkedOnlyIfActive(s, id)
    ensures MarkedOnlyIfActive(Fill(s), id)
    decreases |s.queue|
  {
    if s.queue != [] && |s.active| < s.limit {
      FillStep(s);
      FillMarksItsStarts(Launch(s, s.queue[0]), id);
    }
  }

  // ---------------------------------------------------------------- no queue jumping

  lemma StartsPrefix(u: Sched, t: Sched)
    requires t.started == u.started + u.queue[..FreeSlots(u)] && t.limit == u.limit
    requires |t.active| == |u.active| + FreeSlots(u)
    ensures u.started <= t.started
    ensures |t.started| - |u.started| <= |u.queue|
    ensures t.started[|u.started|..] == u.queue[..|t.started| - |u.started|]
    ensures |t.active| > |u.active| ==> |t.active| <= t.limit
  {
  }

  lemma FillStartsPrefix(u: Sched, t: Sched)
    requires Ordered(u) && t == Fill(u)
    ensures u.started <= t.started
    ensures |t.started| - |u.started| <= |u.queue|
    ensures t.started[|u.started|..] == u.queue[..|t.started| - |u.started|]
    ensures |t.active| > |u.active| ==> |t.active| <= t.limit
  {
    FillStartsTheFirstFree(u);
    StartsPrefix(u, t);
  }

  /** Whatever an operation starts is either the front of the queue, or one download while nobody waits; and the
      number of running downloads only ever grows to a value within the limit in force. */
  lemma NobodyJumpsTheQueue(s: Sched, op: Op, t: Sched)
    requires Inv(s) && Next(s, op, t)
    ensures s.started <= t.started
    ensures var fresh' := t.started[|s.started|..];
            || (|fresh'| <= |s.queue| && fresh' == s.queue[..|fresh'|])
            || (s.queue == [] && |fresh'| == 1)
    ensures |t.active| > |s.active| ==> |t.active| <= t.limit
  {
    match op
    case OnDoneOp(id) =>
      if id in s.active {
        ReleasedOrdered(s, id);
        FillStartsPrefix(s.(active := s.active - {id}, rows := SetPosition(s.rows, id, None)), t);
      }
    case SetMaxOp(n) =>
      FillStartsPrefix(s.(limit := if n < 1 then 1 else n), t);
    case DrainOp =>
      FillStartsPrefix(s, t);
    case _ => StartsAtMostOne(s, op, t);
  }

  lemma StartsAtMostOne(s: Sched, op: Op, t: Sched)
    requires Inv(s) && Next(s, op, t) && !op.OnDoneOp? && !op.SetMaxOp? && !op.DrainOp?
    ensures s.started <= t.started
    ensures t.started == s.started || (s.queue == [] && |t.started| == |s.started| + 1)
    ensures |t.active| > |s.active| ==> |t.active| <= t.limit
  {
  }

  /** Clearing a position keeps the table in order exactly when the row is not waiting. */
  lemma RemoveKeepsOrderIff(s: Sched, id: int)
    requires Ordered(s)
    ensures (exists queue :: InOrder(SetPosition(s.rows, id, None), queue)) <==> !LiveQueued(s.rows, id)
  {
    var after := SetPosition(s.rows, id, None);
    if LiveQueued(s.rows, id) {
      assert LiveQueued(after, id) && !Positioned(after, id);
      forall queue ensures !InOrder(after, queue) { WaitingIsPositioned(after, queue, id); }
    } else if id in s.rows {
      OutsideQueue(s.rows, s.queue, id, s.rows[id].(position := None));
      assert InOrder(after, s.queue);
    } else {
      assert InOrder(after, s.queue);
    }
  }
}
