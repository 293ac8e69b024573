/** The worker bookkeeping of the downloads page: dp.active, dp.pending and shuttingDown, updated in place. Every
    method is proved to take steps of the slot protocol, whatever order the table is in; `life` is the protocol state
    the fields stand for. When the scheduler's invariant holds, the methods keep it. */
module DownloadsPageModel {
  import opened Wrappers
  import opened Tables
  import opened Lifecycle
  import opened ManagerModel
  import QueueRuns
  import Scheduler
  import Storage

  /** How moving the finished file to its destination ended. */
  datatype Moved = InPlace | DestinationExists | MoveFailed

  /** What the row says, if there is one. */
  predicate Recorded(rows: Rows, id: int, status: Status) {
    id in rows ==> rows[id].status == status
  }

  /** UpdateDownloadStatus, or no write at all. */
  function Outcome(rows: Rows, id: int, status: Option<Status>): Rows {
    if status.Some? then UpdateStatus(rows, id, status.value) else rows
  }

  ghost predicate AllPaused(rows: Rows, ids: set<int>) { forall x :: x in ids ==> Recorded(rows, x, Paused) }

  lemma OneMorePaused(rows: Rows, ids: set<int>, id: int)
    requires AllPaused(rows, ids)
    ensures AllPaused(UpdateStatus(rows, id, Paused), ids + {id})
  {
    forall x | x in ids + {id} ensures Recorded(UpdateStatus(rows, id, Paused), x, Paused) {
      if x != id { assert Recorded(rows, x, Paused); }
    }
  }

  lemma StaysPaused(before: Rows, after: Rows, ids: set<int>)
    requires Scheduler.Undisturbed(before, after) && AllPaused(before, ids)
    ensures AllPaused(after, ids)
  {
    forall x | x in ids ensures Recorded(after, x, Paused) {
      if x in after.Keys { assert x in before && Recorded(before, x, Paused) && !LiveQueued(before, x); }
    }
  }

  /** A start made between two states is in the hands of a starting call. */
  lemma HolderOfNewStart(l: Life, m: Life, id: int)
    requires Lifecycle.Inv(l) && Next(l, Manage, m)
    ensures id in m.sched.active && id !in l.sched.active ==> id in m.starting
  {
    assert Scheduler.Balanced(l.sched, m.sched);
  }

  lemma MoveSettles(s: Scheduler.Sched, id: int, delta: int, order: seq<int>, t: Scheduler.Sched)
    requires QueueRuns.Settled(s) && QueueRuns.Reordered(s, id, delta, order, t)
    ensures Scheduler.Inv(t)
  {
    QueueRuns.ReorderSettles(s, id, delta, order, t);
    QueueRuns.OrderedIsInv(t, t.queue);
  }

  class DownloadsPage {
    const qm: Manager
    var active: set<int>
    /** Ids whose current worker's context has been cancelled. */
    var cancelled: set<int>
    var pending: set<int>
    var shuttingDown: bool
    ghost var life: Life

    /** The protocol state stands for the page's own fields. */
    ghost predicate Standing()
      reads this, qm, qm.state
    {
      && qm.Valid() && Lifecycle.Inv(life)
      && life.registered == active && life.pending == pending && life.closing == shuttingDown
    }

    /** And for the manager and the table. */
    ghost predicate Valid()
      reads this, qm, qm.state
    {
      Standing() && life.sched == qm.Model()
    }

    ghost predicate InQueueOrder()
      reads qm, qm.state
    {
      Scheduler.Inv(qm.Model())
    }

    ghost predicate QueueSettled()
      reads qm, qm.state
    {
      QueueRuns.Settled(qm.Model())
    }

    /** The page over a manager whose first drain has run. */
    constructor (qm: Manager, ghost life: Life)
      requires qm.Valid() && Init(life) && life.sched == qm.Model()
      ensures Valid() && this.qm == qm && this.life == life
    {
      this.qm := qm;
      this.life := life;
      active, cancelled, pending, shuttingDown := {}, {}, {}, false;
      InitOk(life);
    }

    /** An operation that starts nothing has changed the table. */
    ghost method Follow(op: Scheduler.Op)
      requires Standing() && QueueRuns.Step(life.sched, op, qm.Model())
      requires qm.Model().active == life.sched.active && qm.Model().started == life.sched.started
      modifies this`life
      ensures Valid() && life == old(life).(sched := qm.Model())
      ensures Scheduler.Inv(old(life.sched)) ==> (InQueueOrder() <==> Scheduler.Safe(old(life.sched), op))
      ensures QueueRuns.Settled(old(life.sched)) ==> QueueSettled()
    {
      ghost var before := life;
      life := life.(sched := qm.Model());
      Scheduler.NothingStarted(before.sched, life.sched);
      NextKeepsLife(before, Manage, life);
      QueueRuns.StepKeepsQueue(before.sched, op, life.sched);
    }

    /** UpdateDownloadStatus, never to "queued". */
    method MarkStatus(id: int, status: Status)
      requires Valid() && status != Queued
      modifies this`life, qm`queue, qm.state`downloads
      ensures Valid() && life == old(life).(sched := qm.Model())
      ensures QueueRuns.Step(old(qm.Model()), Scheduler.StatusOp(id, status), qm.Model())
      ensures qm.state.downloads == UpdateStatus(old(qm.state.downloads), id, status)
      ensures old(InQueueOrder()) ==> InQueueOrder()
      ensures old(QueueSettled()) ==> QueueSettled()
    {
      qm.state.UpdateDownloadStatus(id, status);
      qm.queue := Without(qm.queue, id);
      Follow(Scheduler.StatusOp(id, status));
    }

    /** One call of qm.OnDone by whoever owes it. */
    method CallOnDone(id: int)
      requires Valid() && id in life.owing
      modifies this`life, qm`active, qm`started, qm`queue, qm.state`downloads
      ensures Valid() && Next(old(life), Release(id), life)
      ensures Scheduler.Undisturbed(old(qm.state.downloads), qm.state.downloads)
      ensures old(InQueueOrder()) ==> InQueueOrder()
      ensures old(QueueSettled()) ==> QueueSettled()
    {
      ghost var before := life;
      qm.OnDone(id);
      life := AfterRelease(before, id, qm.Model());
      NextKeepsLife(before, Release(id), life);
      QueueRuns.StepKeepsQueue(before.sched, Scheduler.OnDoneOp(id), life.sched);
    }

    /** Recording an outcome, if there is one to record, then the one call of OnDone that goes with it. */
    method ReleaseAs(id: int, status: Option<Status>)
      requires Valid() && id in life.owing && status != Some(Queued)
      modifies this`life, qm`active, qm`started, qm`queue, qm.state`downloads
      ensures Valid() && life.calls == old(life).calls + multiset{id} && life.owing == old(life).owing - multiset{id}
      ensures life.finishing == old(life).finishing && life.running == old(life).running
      ensures Scheduler.Undisturbed(Outcome(old(qm.state.downloads), id, status), qm.state.downloads)
      ensures status.Some? ==> Recorded(qm.state.downloads, id, status.value)
      ensures old(InQueueOrder()) ==> InQueueOrder()
      ensures old(QueueSettled()) ==> QueueSettled()
    {
      if status.Some? { MarkStatus(id, status.value); }
      CallOnDone(id);
    }

    /** StartDownload under dp.mu: register a worker unless the page is shutting down. */
    method RegisterWorker(id: int) returns (registered: bool)
      requires Valid() && id in life.starting
      modifies this`active, this`cancelled, this`life
      ensures Valid() && Next(old(life), Register(id), life)
      ensures registered <==> !shuttingDown
      ensures registered ==> id !in old(active) && active == old(active) + {id} && cancelled == old(cancelled) - {id}
      ensures !registered ==> active == old(active) && cancelled == old(cancelled)
    {
      ghost var before := life;
      NeverAlreadyActive(life, id);
      if shuttingDown {
        registered := false;
        life := life.(starting := life.starting - multiset{id}, owing := life.owing + multiset{id});
      } else {
        assert id !in active; // the "already active" exit is never taken
        active := active + {id};
        cancelled := cancelled - {id};
        registered := true;
        life := life.(starting := life.starting - multiset{id}, registered := active,
                      running := life.running + multiset{id});
      }
      NextKeepsLife(before, Register(id), life);
    }

    /** StartDownload: give up on an unusable record, otherwise register and mark the row. The slot is kept exactly
        when it registers. */
    method StartDownload(id: int, usable: bool) returns (registered: bool)
      requires Valid() && id in life.starting
      modifies this`active, this`cancelled, this`life, qm`active, qm`started, qm`queue, qm.state`downloads
      ensures Valid() && (registered <==> usable && !shuttingDown)
      ensures registered ==> active == old(active) + {id} && cancelled == old(cancelled) - {id}
      ensures registered ==> life.running == old(life).running + multiset{id} && life.calls == old(life).calls
      ensures registered ==> qm.state.downloads == UpdateStatus(old(qm.state.downloads), id, Downloading)
      ensures !registered ==> active == old(active) && cancelled == old(cancelled)
      ensures !registered ==> life.running == old(life).running && life.calls == old(life).calls + multiset{id}
      ensures !usable ==> Recorded(qm.state.downloads, id, Failed)
      ensures usable && shuttingDown ==> Scheduler.Undisturbed(old(qm.state.downloads), qm.state.downloads)
      ensures old(InQueueOrder()) ==> InQueueOrder()
      ensures old(QueueSettled()) ==> QueueSettled()
    {
      if !usable {
        GiveUpOn(id);
        return false;
      }
      registered := RegisterWorker(id);
      if registered { MarkStatus(id, Downloading); } else { CallOnDone(id); }
    }

    method GiveUpOn(id: int)
      requires Valid() && id in life.starting
      modifies this`life, qm`active, qm`started, qm`queue, qm.state`downloads
      ensures Valid() && life.running == old(life).running && life.calls == old(life).calls + multiset{id}
      ensures Recorded(qm.state.downloads, id, Failed)
      ensures old(InQueueOrder()) ==> InQueueOrder()
      ensures old(QueueSettled()) ==> QueueSettled()
    {
      ghost var before := life;
      life := life.(starting := life.starting - multiset{id}, owing := life.owing + multiset{id});
      NextKeepsLife(before, GiveUp(id), life);
      ReleaseAs(id, Some(Failed));
    }

    /** The manager or the table has changed outside the page: a call of TryStart, EnqueueScheduled, SetMaxConcurrent or
        Drain, or a statement on rows. The calls of startFn it made are now starting. */
    ghost method Notice()
      requires Standing() && Scheduler.Balanced(life.sched, qm.Model())
      modifies this`life
      ensures Valid() && Next(old(life), Manage, life)
    {
      ghost var before := life;
      life := life.(sched := qm.Model(), starting := life.starting + Scheduler.NewStarts(life.sched, qm.Model()));
      NextKeepsLife(before, Manage, life);
    }

    /** Start has returned to its worker. */
    ghost method LeaveStart(id: int)
      requires Valid() && id in life.running
      modifies this`life
      ensures Valid() && Next(old(life), Stop(id), life)
    {
      ghost var before := life;
      life := life.(running := life.running - multiset{id}, leaving := life.leaving + multiset{id});
      NextKeepsLife(before, Stop(id), life);
    }

    /** The worker, back from Start, leaves dp.active. */
    method UnregisterWorker(id: int)
      requires Valid() && id in life.running
      modifies this`active, this`life
      ensures Valid() && active == old(active) - {id}
      ensures id in life.finishing && life.calls == old(life).calls && life.sched == old(life).sched
    {
      LeaveStart(id);
      ghost var before := life;
      active := active - {id};
      life := life.(leaving := life.leaving - multiset{id}, registered := active,
                    finishing := life.finishing + multiset{id});
      NextKeepsLife(before, Unregister(id), life);
    }

    /** An ending without a prompt: record the outcome, unless whoever cancelled the worker records it, and release the
        slot. */
    method Conclude(id: int, status: Option<Status>)
      requires Valid() && id in life.finishing && status != Some(Queued)
      modifies this`life, qm`active, qm`started, qm`queue, qm.state`downloads
      ensures Valid() && life.calls == old(life).calls + multiset{id}
      ensures life.finishing == old(life).finishing - multiset{id} && life.owing == old(life).owing
      ensures Scheduler.Undisturbed(Outcome(old(qm.state.downloads), id, status), qm.state.downloads)
      ensures status.Some? ==> Recorded(qm.state.downloads, id, status.value)
      ensures old(InQueueOrder()) ==> InQueueOrder()
      ensures old(QueueSettled()) ==> QueueSettled()
    {
      ghost var before := life;
      life := life.(finishing := life.finishing - multiset{id}, owing := life.owing + multiset{id});
      NextKeepsLife(before, Lifecycle.Settle(id), life);
      ReleaseAs(id, status);
    }

    /** finalize. A taken destination is left to a prompt, which takes over the slot, unless there is nobody to ask. */
    method Finalize(id: int, moved: Moved, window: bool) returns (asked: bool)
      requires Valid() && id in life.finishing
      modifies this`pending, this`life, qm`active, qm`started, qm`queue, qm.state`downloads
      ensures Valid() && (asked <==> moved == DestinationExists && !shuttingDown && window)
      ensures asked ==> pending == old(pending) + {id} && life.calls == old(life).calls
      ensures asked ==> qm.state.downloads == old(qm.state.downloads)
      ensures !asked ==> pending == old(pending) && life.calls == old(life).calls + multiset{id}
      ensures !asked ==> Recorded(qm.state.downloads, id,
                           if moved == InPlace then Completed else if moved == MoveFailed then Failed else Paused)
      ensures old(InQueueOrder()) ==> InQueueOrder()
      ensures old(QueueSettled()) ==> QueueSettled()
    {
      asked := false;
      match moved
      case InPlace => Conclude(id, Some(Completed));
      case MoveFailed => Conclude(id, Some(Failed));
      case DestinationExists =>
        asked := !shuttingDown && window;
        if asked { Ask(id); } else { Conclude(id, Some(Paused)); }
    }

    method Ask(id: int)
      requires Valid() && id in life.finishing && !shuttingDown
      modifies this`pending, this`life
      ensures Valid() && Next(old(life), Conflict(id, true), life) && pending == old(pending) + {id}
    {
      ghost var before := life;
      pending := pending + {id};
      life := life.(finishing := life.finishing - multiset{id}, pending := pending);
      NextKeepsLife(before, Conflict(id, true), life);
    }

    /** The rest of the worker's goroutine, from the return of Start on. */
    method FinishWorker(id: int, failed: bool, moved: Moved, window: bool) returns (asked: bool)
      requires Valid() && id in life.running
      modifies this`active, this`pending, this`life, qm`active, qm`started, qm`queue, qm.state`downloads
      ensures Valid() && active == old(active) - {id}
      ensures asked <==> id !in cancelled && !failed && moved == DestinationExists && !shuttingDown && window
      ensures pending == if asked then old(pending) + {id} else old(pending)
      ensures life.calls == if asked then old(life).calls else old(life).calls + multiset{id}
      ensures id in cancelled ==> Scheduler.Undisturbed(old(qm.state.downloads), qm.state.downloads)
      ensures id !in cancelled && failed ==> Recorded(qm.state.downloads, id, Failed)
      ensures id !in cancelled && !failed && !asked ==>
                Recorded(qm.state.downloads, id,
                         if moved == InPlace then Completed else if moved == MoveFailed then Failed else Paused)
      ensures old(InQueueOrder()) ==> InQueueOrder()
      ensures old(QueueSettled()) ==> QueueSettled()
    {
      UnregisterWorker(id);
      asked := false;
      if failed && id !in cancelled {
        Conclude(id, Some(Failed));
      } else if id in cancelled {
        Conclude(id, None);
      } else {
        asked := Finalize(id, moved, window);
      }
    }

    /** StartDownload and its worker, when nobody else meets them: the slot is released exactly once, unless a prompt
        has taken it over, and the worker is registered no longer. */
    method RunDownload(id: int, usable: bool, failed: bool, moved: Moved, window: bool) returns (asked: bool)
      requires Valid() && id in life.starting
      modifies this`active, this`cancelled, this`pending, this`life
      modifies qm`active, qm`started, qm`queue, qm.state`downloads
      ensures Valid() && active == old(active)
      ensures asked <==> usable && !failed && moved == DestinationExists && !shuttingDown && window
      ensures pending == if asked then old(pending) + {id} else old(pending)
      ensures life.calls == if asked then old(life).calls else old(life).calls + multiset{id}
      ensures !usable || (!shuttingDown && failed) ==> Recorded(qm.state.downloads, id, Failed)
      ensures usable && !shuttingDown && !failed && !asked ==>
                Recorded(qm.state.downloads, id,
                         if moved == InPlace then Completed else if moved == MoveFailed then Failed else Paused)
      ensures old(InQueueOrder()) ==> InQueueOrder()
      ensures old(QueueSettled()) ==> QueueSettled()
    {
      NeverAlreadyActive(life, id);
      var registered := StartDownload(id, usable);
      asked := false;
      if registered { asked := FinishWorker(id, failed, moved, window); }
    }

    /** ResumeDownload: the manager starts the download, or lines it up; a start is from now on in StartDownload's
        hands. */
    method ResumeDownload(id: int) returns (started: bool)
      requires Valid()
      modifies this`life, qm`active, qm`started, qm`queue, qm.state`downloads
      ensures Valid() && QueueRuns.Step(old(qm.Model()), Scheduler.TryStartOp(id), qm.Model())
      ensures started <==> id in qm.active
      ensures started && id !in old(qm.active) ==> id in life.starting
      ensures old(InQueueOrder()) ==> InQueueOrder()
      ensures old(QueueSettled()) ==> QueueSettled()
    {
      ghost var before := life;
      started := qm.TryStart(id);
      Notice();
      HolderOfNewStart(before, life, id);
      QueueRuns.StepKeepsQueue(before.sched, Scheduler.TryStartOp(id), life.sched);
    }

    /** MoveInQueue: whatever Remove left behind, afterwards the positions are 1 to N. */
    method MoveInQueue(id: int, delta: int) returns (ghost order: seq<int>, ghost moved: seq<int>)
      requires Valid()
      modifies this`life, qm`queue, qm.state`downloads
      ensures Valid() && life == old(life).(sched := qm.Model())
      ensures QueueRuns.Step(old(qm.Model()), Scheduler.MoveOp(id, delta), qm.Model())
      ensures delta != 0 ==> Storage.Listing(old(qm.state.downloads), order) && InOrder(qm.state.downloads, moved)
      ensures delta != 0 ==> Storage.MovedBy(order, moved, id, delta)
      ensures old(InQueueOrder()) ==> InQueueOrder()
      ensures old(QueueSettled()) ==> QueueSettled() && (delta != 0 ==> InQueueOrder())
    {
      ghost var before := life;
      order, moved := qm.state.MoveQueuePosition(id, delta);
      if delta != 0 {
        qm.queue := moved;
        assert QueueRuns.Reordered(before.sched, id, delta, order, qm.Model());
        if QueueRuns.Settled(before.sched) { MoveSettles(before.sched, id, delta, order, qm.Model()); }
      }
      Follow(Scheduler.MoveOp(id, delta));
    }

    /** A prompt button: whoever claims first settles the prompt and releases the slot; everybody else does nothing. */
    method AnswerPrompt(id: int, status: Status) returns (mine: bool)
      requires Valid() && status != Queued
      modifies this`pending, this`life, qm`active, qm`started, qm`queue, qm.state`downloads
      ensures Valid() && (mine <==> id in old(pending)) && pending == old(pending) - {id}
      ensures mine ==> life.calls == old(life).calls + multiset{id} && Recorded(qm.state.downloads, id, status)
      ensures !mine ==> life == old(life) && qm.state.downloads == old(qm.state.downloads)
      ensures old(InQueueOrder()) ==> InQueueOrder()
      ensures old(QueueSettled()) ==> QueueSettled()
    {
      mine := id in pending;
      if !mine {
        assert pending - {id} == pending;
        return;
      }
      ghost var before := life;
      pending := pending - {id};
      life := life.(pending := pending, owing := life.owing + multiset{id});
      NextKeepsLife(before, Claim(id), life);
      ReleaseAs(id, Some(status));
    }

    /** Shutdown up to the point where it waits for workers: stop accepting, cancel every worker, claim every prompt,
        release each once, and leave all of them paused. */
    method BeginShutdown()
      requires Valid()
      modifies this`cancelled, this`pending, this`shuttingDown, this`life
      modifies qm`active, qm`started, qm`queue, qm.state`downloads
      ensures Valid() && shuttingDown
      ensures old(shuttingDown) ==>
                life == old(life) && cancelled == old(cancelled) && qm.state.downloads == old(qm.state.downloads)
      ensures !old(shuttingDown) ==> pending == {} && cancelled == old(cancelled) + active
      ensures !old(shuttingDown) ==>
                life.calls == old(life).calls + multiset(old(pending)) && life.owing == old(life).owing
      ensures !old(shuttingDown) ==> AllPaused(qm.state.downloads, active + old(pending))
      ensures old(InQueueOrder()) ==> InQueueOrder()
      ensures old(QueueSettled()) ==> QueueSettled()
    {
      if shuttingDown {
        return;
      }
      var entries, claimed := CloseDown();
      PauseEntries(entries);
      ReleaseAll(claimed, entries);
      assert life.owing == old(life).owing + multiset(claimed) - multiset(claimed);
    }

    /** Shutdown under dp.mu, and the cancelling that follows. */
    method CloseDown() returns (entries: set<int>, claimed: set<int>)
      requires Valid() && !shuttingDown
      modifies this`cancelled, this`pending, this`shuttingDown, this`life
      ensures Valid() && Next(old(life), Lifecycle.Shutdown, life)
      ensures shuttingDown && pending == {} && cancelled == old(cancelled) + active
      ensures entries == active && claimed == old(pending)
    {
      ghost var before := life;
      entries, claimed := active, pending;
      shuttingDown := true;
      pending := {};
      life := life.(closing := true, pending := {}, owing := life.owing + multiset(life.pending));
      NextKeepsLife(before, Lifecycle.Shutdown, life);
      cancelled := cancelled + entries;
    }

    /** Shutdown's pass over the workers it has cancelled. */
    method PauseEntries(entries: set<int>)
      requires Valid()
      modifies this`life, qm`queue, qm.state`downloads
      ensures Valid() && life == old(life).(sched := life.sched)
      ensures AllPaused(qm.state.downloads, entries)
      ensures old(InQueueOrder()) ==> InQueueOrder()
      ensures old(QueueSettled()) ==> QueueSettled()
    {
      var left := entries;
      while left != {}
        invariant Valid() && left <= entries && life == old(life).(sched := life.sched)
        invariant AllPaused(qm.state.downloads, entries - left)
        invariant old(InQueueOrder()) ==> InQueueOrder()
        invariant old(QueueSettled()) ==> QueueSettled()
        decreases left
      {
        ghost var w := SomeId(left);
        var id :| id in left;
        OneMorePaused(qm.state.downloads, entries - left, id);
        MarkStatus(id, Paused);
        assert entries - left + {id} == entries - (left - {id});
        left := left - {id};
      }
    }

    /** One of the prompts it has claimed. */
    method ReleasePaused(id: int, ghost done: set<int>)
      requires Valid() && id in life.owing && AllPaused(qm.state.downloads, done)
      modifies this`life, qm`active, qm`started, qm`queue, qm.state`downloads
      ensures Valid() && life.calls == old(life).calls + multiset{id} && life.owing == old(life).owing - multiset{id}
      ensures AllPaused(qm.state.downloads, done + {id})
      ensures old(InQueueOrder()) ==> InQueueOrder()
      ensures old(QueueSettled()) ==> QueueSettled()
    {
      ghost var rows := qm.state.downloads;
      OneMorePaused(rows, done, id);
      ReleaseAs(id, Some(Paused));
      StaysPaused(UpdateStatus(rows, id, Paused), qm.state.downloads, done + {id});
    }

    /** Its pass over all of them. */
    method ReleaseAll(claimed: set<int>, ghost entries: set<int>)
      requires Valid() && multiset(claimed) <= life.owing && AllPaused(qm.state.downloads, entries)
      modifies this`life, qm`active, qm`started, qm`queue, qm.state`downloads
      ensures Valid() && life.calls == old(life).calls + multiset(claimed)
      ensures life.owing == old(life).owing - multiset(claimed)
      ensures AllPaused(qm.state.downloads, entries + claimed)
      ensures old(InQueueOrder()) ==> InQueueOrder()
      ensures old(QueueSettled()) ==> QueueSettled()
    {
      var left := claimed;
      ghost var done := entries;
      while left != {}
        invariant Valid() && left <= claimed && done == entries + (claimed - left)
        invariant Released(old(life).owing, life.owing, claimed, left)
        invariant life.calls + multiset(left) == old(life).calls + multiset(claimed)
        invariant AllPaused(qm.state.downloads, done)
        invariant old(InQueueOrder()) ==> InQueueOrder()
        invariant old(QueueSettled()) ==> QueueSettled()
        decreases left
      {
        ghost var w := SomeId(left);
        var id :| id in left;
        OneFewer(old(life).owing, life.owing, claimed, left, id);
        ReleasePaused(id, done);
        left, done := left - {id}, done + {id};
      }
    }

    /** cancelActive. */
    method CancelActive(id: int) returns (running: bool)
      requires Valid()
      modifies this`cancelled
      ensures Valid() && (running <==> id in active)
      ensures cancelled == if running then old(cancelled) + {id} else old(cancelled)
    {
      running := id in active;
      if running { cancelled := cancelled + {id}; }
    }

    /** PauseDownload: only a registered worker is paused; its slot stays with it. */
    method PauseDownload(id: int) returns (paused: bool)
      requires Valid()
      modifies this`cancelled, this`life, qm`queue, qm.state`downloads
      ensures Valid() && (paused <==> id in active) && life == old(life).(sched := qm.Model())
      ensures cancelled == if paused then old(cancelled) + {id} else old(cancelled)
      ensures qm.state.downloads
           == if paused then UpdateStatus(old(qm.state.downloads), id, Paused) else old(qm.state.downloads)
      ensures old(InQueueOrder()) ==> InQueueOrder()
      ensures old(QueueSettled()) ==> QueueSettled()
    {
      paused := CancelActive(id);
      if paused { MarkStatus(id, Paused); }
    }

    /** CancelDownload: the worker, if there is one, is cancelled; the row always is. */
    method CancelDownload(id: int)
      requires Valid()
      modifies this`cancelled, this`life, qm`queue, qm.state`downloads
      ensures Valid() && life == old(life).(sched := qm.Model())
      ensures cancelled == if id in active then old(cancelled) + {id} else old(cancelled)
      ensures QueueRuns.Step(old(qm.Model()), Scheduler.StatusOp(id, Cancelled), qm.Model())
      ensures qm.state.downloads == UpdateStatus(old(qm.state.downloads), id, Cancelled)
      ensures old(InQueueOrder()) ==> InQueueOrder()
      ensures old(QueueSettled()) ==> QueueSettled()
    {
      var _ := CancelActive(id);
      MarkStatus(id, Cancelled);
    }

    /** The second statement of DeleteDownload. The queue keeps its order exactly when the row is not waiting. */
    method RemoveFromQueue(id: int)
      requires Valid()
      modifies this`life, qm.state`downloads
      ensures Valid() && life == old(life).(sched := qm.Model())
      ensures QueueRuns.Step(old(qm.Model()), Scheduler.RemoveOp(id), qm.Model())
      ensures old(InQueueOrder()) ==> (InQueueOrder() <==> old(Scheduler.Safe(qm.Model(), Scheduler.RemoveOp(id))))
      ensures old(QueueSettled()) ==> QueueSettled()
    {
      qm.Remove(id);
      Follow(Scheduler.RemoveOp(id));
    }

    /** The third. */
    method SoftDeleteRow(id: int)
      requires Valid()
      modifies this`life, qm`queue, qm.state`downloads
      ensures Valid() && life == old(life).(sched := qm.Model())
      ensures QueueRuns.Step(old(qm.Model()), Scheduler.SoftDeleteOp(id), qm.Model())
      ensures old(InQueueOrder()) ==> InQueueOrder()
      ensures old(QueueSettled()) ==> QueueSettled()
    {
      qm.state.DeleteDownload(id);
      qm.queue := Without(qm.queue, id);
      Follow(Scheduler.SoftDeleteOp(id));
    }

    /** DeleteDownload when nothing comes between its statements: the row is cancelled, out of the queue and deleted,
        and the order of the others is kept. */
    method DeleteDownload(id: int)
      requires Valid()
      modifies this`cancelled, this`life, qm`queue, qm.state`downloads
      ensures Valid() && life == old(life).(sched := qm.Model())
      ensures cancelled == if id in active then old(cancelled) + {id} else old(cancelled)
      ensures id in qm.state.downloads ==> qm.state.downloads[id].deleted && qm.state.downloads[id].status == Cancelled
      ensures id in qm.state.downloads && id !in qm.active ==> qm.state.downloads[id].position == None
      ensures old(InQueueOrder()) ==> InQueueOrder()
      ensures old(QueueSettled()) ==> QueueSettled()
    {
      CancelDownload(id);
      RemoveFromQueue(id);
      SoftDeleteRow(id);
    }
  }

  /** Of the releases owed, those still left are owed, and the others are not. */
  predicate Released(owed: multiset<int>, owing: multiset<int>, claimed: set<int>, left: set<int>) {
    multiset(left) <= owing && owing - multiset(left) == owed - multiset(claimed)
  }

  lemma OneFewer(owed: multiset<int>, owing: multiset<int>, claimed: set<int>, left: set<int>, id: int)
    requires Released(owed, owing, claimed, left) && id in left
    ensures id in owing && Released(owed, owing - multiset{id}, claimed, left - {id})
    ensures multiset(left) == multiset(left - {id}) + multiset{id}
  {
    assert multiset(left) == multiset(left - {id}) + multiset{id};
  }

  ghost function AfterRelease(l: Life, id: int, sched: Scheduler.Sched): Life
    requires l.sched.started <= sched.started
  {
    l.(sched := sched, owing := l.owing - multiset{id}, starting := l.starting + Scheduler.NewStarts(l.sched, sched),
       calls := l.calls + multiset{id},
       effective := if id in l.sched.active then l.effective + multiset{id} else l.effective)
  }
}
