/** The queue Manager object: its map of running downloads, its limit, and the storage it shares. Every method is
    one critical section of the source's mutex. */
module ManagerModel {
  import opened Wrappers
  import opened Tables
  import opened QueueRuns
  import Scheduler
  import opened StateManagerModel

  class Manager {
    const state: StateManager
    var maxConcurrent: int
    var active: set<int>
    /** The ids handed to startFn, in order. */
    var started: seq<int>
    /** The live queued rows by position, whenever the table is in order. */
    ghost var queue: seq<int>

    ghost predicate Valid()
      reads this, state
    {
      state.Valid()
    }

    ghost function Model(): Scheduler.Sched
      reads this, state
    {
      Scheduler.Sched(state.downloads, queue, active, maxConcurrent, started)
    }

    constructor (state: StateManager, maxConcurrent: int, ghost queue: seq<int>)
      requires state.Valid()
      ensures Valid() && this.state == state
      ensures Model() == Scheduler.Sched(state.downloads, queue, {}, maxConcurrent, [])
    {
      this.state := state;
      this.maxConcurrent := maxConcurrent;
      this.queue := queue;
      active, started := {}, [];
    }

    /** Taking a slot: mark the id active, promote its row, hand it to startFn. */
    method Start(id: int)
      requires Valid()
      modifies this`active, this`started, this`queue, state`downloads
      ensures Valid() && Model() == Scheduler.Launch(old(Model()), id)
    {
      active := active + {id};
      state.MarkDownloading(id);
      started := started + [id];
      queue := Without(queue, id);
    }

    /** enqueue. */
    method Append(id: int)
      requires Valid()
      modifies this`queue, state`downloads
      ensures Valid() && Appended(old(Model()), id, Model())
    {
      if id !in state.downloads || state.downloads[id].deleted {
        return;
      }
      var rec := state.downloads[id];
      if rec.status == Queued && rec.position.Some? {
        return;
      }
      ghost var max := state.EnqueueDownload(id);
      queue := queue + [id];
    }

    /** A start if a slot is free, otherwise a place at the end of the queue. */
    method Admit(id: int) returns (isStarted: bool)
      requires Valid() && id !in active
      modifies this`active, this`started, this`queue, state`downloads
      ensures Valid() && Admitted(old(Model()), id, Model()) && Scheduler.Balanced(old(Model()), Model())
      ensures isStarted <==> id in active
      ensures isStarted <==> |old(active)| < maxConcurrent
    {
      ghost var before := Model();
      isStarted := |active| < maxConcurrent;
      if isStarted {
        Start(id);
        Scheduler.OneStarted(before, Model(), id);
      } else {
        Append(id);
        Scheduler.NothingStarted(before, Model());
      }
    }

    method TryStart(id: int) returns (isStarted: bool)
      requires Valid()
      modifies this`active, this`started, this`queue, state`downloads
      ensures Valid() && Scheduler.Balanced(old(Model()), Model())
      ensures Step(old(Model()), Scheduler.TryStartOp(id), Model())
      ensures old(Scheduler.Ordered(Model())) ==> Model() == Scheduler.TryStart(old(Model()), id)
      ensures isStarted <==> id in active
      ensures id in old(active) || id !in old(state.downloads) || old(state.downloads)[id].deleted ==>
                Model() == old(Model())
      ensures id !in old(active) && id in old(state.downloads) && !old(state.downloads)[id].deleted ==>
                (isStarted <==> |old(active)| < maxConcurrent)
      ensures isStarted && id !in old(active) ==> Started(old(state.downloads), state.downloads, id)
      ensures OnlyRow(old(state.downloads), state.downloads, id) && active - {id} == old(active) - {id}
      ensures !isStarted && id in state.downloads && !state.downloads[id].deleted ==>
                LiveQueued(state.downloads, id) && state.downloads[id].position.Some?
    {
      ghost var before := Model();
      Scheduler.NothingStarted(before, before);
      if id in active {
        return true;
      }
      if id !in state.downloads || state.downloads[id].deleted {
        return false;
      }
      isStarted := Admit(id);
      AdmittedRow(before, id, Model());
      if Scheduler.Ordered(before) { OrderedStepIsNext(before, Scheduler.TryStartOp(id), Model()); }
    }

    method EnqueueScheduled(id: int)
      requires Valid()
      modifies this`active, this`started, this`queue, state`downloads
      ensures Valid() && Scheduler.Balanced(old(Model()), Model())
      ensures Step(old(Model()), Scheduler.EnqueueScheduledOp(id), Model())
      ensures old(Scheduler.Ordered(Model())) ==> Model() == Scheduler.EnqueueScheduled(old(Model()), id)
      ensures id in active <==> id in old(active) || |old(active)| < maxConcurrent
      ensures id in active && id !in old(active) ==>
                Started(SetScheduledAt(old(state.downloads), id, None), state.downloads, id)
      ensures id in state.downloads ==> state.downloads[id].scheduledAt == None
      ensures OnlyRow(old(state.downloads), state.downloads, id) && active - {id} == old(active) - {id}
      ensures id !in active && id in state.downloads && !state.downloads[id].deleted ==>
                LiveQueued(state.downloads, id) && state.downloads[id].position.Some?
    {
      ghost var before := Model();
      state.SetScheduledAt(id, None);
      ghost var cleared := Model();
      Scheduler.NothingStarted(before, cleared);
      if id in active {
        return;
      }
      var _ := Admit(id);
      AdmittedRow(cleared, id, Model());
      Scheduler.BalancedChain(before, cleared, Model());
      if Scheduler.Ordered(before) { OrderedStepIsNext(before, Scheduler.EnqueueScheduledOp(id), Model()); }
    }

    /** The first half of OnDone. */
    method FreeSlot(id: int)
      requires Valid() && id in active
      modifies this`active, state`downloads
      ensures Valid() && Model() == Slotless(old(Model()), id)
    {
      active := active - {id};
      state.SetQueuePosition(id, None);
    }

    method OnDone(id: int)
      requires Valid()
      modifies this`active, this`started, this`queue, state`downloads
      ensures Valid() && Scheduler.ReleasedBy(old(Model()), id, Model())
      ensures Step(old(Model()), Scheduler.OnDoneOp(id), Model())
      ensures id in old(active) ==> forall x :: x in active && x !in old(active) ==>
                Started(old(state.downloads), state.downloads, x)
      ensures id in old(active) && id !in active && id in state.downloads ==>
                && id in old(state.downloads)
                && state.downloads[id] == old(state.downloads)[id].(position := None)
      ensures old(Scheduler.Ordered(Model())) ==> Model() == Scheduler.OnDone(old(Model()), id)
      ensures Scheduler.Undisturbed(old(state.downloads), state.downloads)
    {
      if id !in active {
        return;
      }
      ghost var before := Model();
      FreeSlot(id);
      DrainQueue();
      FreedAndDrained(before, id, Model());
      FreedRows(before, id, Model());
    }

    method SetMaxConcurrent(n: int)
      requires Valid()
      modifies this, state`downloads
      ensures Valid() && Scheduler.Balanced(old(Model()), Model())
      ensures Step(old(Model()), Scheduler.SetMaxOp(n), Model())
      ensures maxConcurrent >= 1 && (n >= 1 ==> maxConcurrent == n) && (n < 1 ==> maxConcurrent == 1)
      ensures forall x :: x in active && x !in old(active) ==> Started(old(state.downloads), state.downloads, x)
      ensures old(Scheduler.Ordered(Model())) ==> Model() == Scheduler.SetMaxConcurrent(old(Model()), n)
    {
      ghost var before := Model();
      maxConcurrent := if n < 1 then 1 else n;
      ghost var widened := Model();
      DrainQueue();
      assert Scheduler.Balanced(before, Model()) by { assert Scheduler.Balanced(widened, Model()); }
    }

    /** Remove: a waiting row loses its position; a running one keeps everything. */
    method Remove(id: int)
      requires Valid()
      modifies state`downloads
      ensures Valid() && Model() == Scheduler.Remove(old(Model()), id)
    {
      if id in active {
        return;
      }
      state.SetQueuePosition(id, None);
    }

    /** One turn of drainQueue with a row it had not seen: a row of a running download loses its position, any other is
        started. */
    method TakeNext(id: int)
      requires Valid() && LiveQueued(state.downloads, id)
      modifies this`active, this`started, this`queue, state`downloads
      ensures Valid() && Scheduler.Balanced(old(Model()), Model()) && id in active
      ensures state.downloads.Keys == old(state.downloads).Keys
      ensures forall x :: x in state.downloads && x != id ==> state.downloads[x] == old(state.downloads)[x]
      ensures Model() == Turn(old(Model()), id)
    {
      ghost var before := Model();
      if id in active {
        state.SetQueuePosition(id, None);
        Scheduler.NothingStarted(before, Model());
      } else {
        Start(id);
        Scheduler.OneStarted(before, Model(), id);
      }
    }

    /** drainQueue. It terminates from every state of the table, even when running downloads are still marked
        queued: each turn meets a live queued row it had not seen. It starts nothing twice and touches only rows that
        were waiting. From a table in order it is Fill. */
    method DrainQueue()
      requires Valid()
      modifies this`active, this`started, this`queue, state`downloads
      ensures Valid() && Scheduler.Balanced(old(Model()), Model())
      ensures Drained(old(Model()), Model())
      ensures forall x :: x in active && x !in old(active) ==> Started(old(state.downloads), state.downloads, x)
      ensures old(Scheduler.Ordered(Model())) ==> Model() == Scheduler.Fill(old(Model()))
      ensures Scheduler.Undisturbed(old(state.downloads), state.downloads)
    {
      var seen: set<int> := {};
      ghost var waiting, rows, first := QueuedIds(state.downloads), state.downloads, Model();
      ghost var met: seq<int> := [];
      Scheduler.NothingStarted(first, first);
      DrainBegins(first);
      while |active| < maxConcurrent
        invariant Valid() && seen <= waiting
        invariant GoesOn(first, met, Model(), seen)
        invariant Scheduler.Balanced(first, Model())
        invariant state.downloads.Keys == rows.Keys
        invariant forall x :: x in rows && x !in waiting ==> state.downloads[x] == rows[x]
        decreases waiting - seen
      {
        var next := state.NextInQueue();
        if next.None? {
          break;
        }
        var id := next.value;
        assert NextUp(state.downloads, id);
        if id in seen {
          break;
        }
        ghost var mid := Model();
        DrainGoesOn(first, met, mid, seen, id);
        seen, met := seen + {id}, met + [id];
        TakeNext(id);
        Scheduler.BalancedChain(first, mid, Model());
      }
      DrainStops(first, met, Model(), seen);
      forall x | x in active && x !in first.active ensures Started(first.rows, state.downloads, x) {
        DrainedMarksStarts(first, Model(), x);
      }
      if Scheduler.Ordered(first) { OrderedDrained(first, Model()); }
    }
  }
}
