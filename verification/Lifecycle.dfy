/** Who owns a queue slot: the protocol between the queue manager, the StartDownload calls, the download workers, the
    conflict prompts and Shutdown, one step per critical section. Nothing is asked of the table: the account of slots
    holds whatever order the rows are in. */
module Lifecycle {
  import opened Basics
  import opened Tables
  import opened Scheduler

  /** `starting`: calls of startFn that have not registered a worker yet. `registered`: the keys of dp.active.
      `running`: workers inside Downloader.Start. `leaving`: workers back from Start, still registered.
      `finishing`: workers out of dp.active that have not settled the outcome. `pending`: dp.pending, the prompts
      waiting for an answer. `owing`: whoever has decided to call OnDone and has not yet. `calls` and `effective`
      count the calls of OnDone and those that found their id running. */
  datatype Life = Life(
    sched: Sched,
    starting: multiset<int>,
    registered: set<int>,
    running: multiset<int>,
    leaving: multiset<int>,
    finishing: multiset<int>,
    pending: set<int>,
    owing: multiset<int>,
    closing: bool,
    calls: multiset<int>,
    effective: multiset<int>)

  datatype Step =
    | Manage
    | GiveUp(id: int)
    | Register(id: int)
    | Stop(id: int)
    | Unregister(id: int)
    | Settle(id: int)
    | Conflict(id: int, window: bool)
    | Claim(id: int)
    | Shutdown
    | Release(id: int)

  ghost predicate Next(l: Life, step: Step, m: Life) {
    match step
    case Manage => // any operation of the manager but OnDone, any statement on the rows
      Balanced(l.sched, m.sched) && m == l.(sched := m.sched, starting := l.starting + NewStarts(l.sched, m.sched))
    case GiveUp(id) => // the record, its chunks or its destination cannot be used
      id in l.starting && m == l.(starting := l.starting - multiset{id}, owing := l.owing + multiset{id})
    case Register(id) =>
      && id in l.starting
      && m == if l.closing || id in l.registered
              then l.(starting := l.starting - multiset{id}, owing := l.owing + multiset{id})
              else l.(starting := l.starting - multiset{id}, registered := l.registered + {id},
                      running := l.running + multiset{id})
    case Stop(id) =>
      id in l.running && m == l.(running := l.running - multiset{id}, leaving := l.leaving + multiset{id})
    case Unregister(id) =>
      && id in l.leaving
      && m == l.(leaving := l.leaving - multiset{id}, registered := l.registered - {id},
                 finishing := l.finishing + multiset{id})
    case Settle(id) => // failed, cancelled, or moved into place
      id in l.finishing && m == l.(finishing := l.finishing - multiset{id}, owing := l.owing + multiset{id})
    case Conflict(id, window) =>
      && id in l.finishing
      && m == if l.closing || !window
              then l.(finishing := l.finishing - multiset{id}, owing := l.owing + multiset{id})
              else l.(finishing := l.finishing - multiset{id}, pending := l.pending + {id})
    case Claim(id) =>
      m == if id in l.pending then l.(pending := l.pending - {id}, owing := l.owing + multiset{id}) else l
    case Shutdown =>
      m == if l.closing then l else l.(closing := true, pending := {}, owing := l.owing + multiset(l.pending))
    case Release(id) =>
      && id in l.owing && ReleasedBy(l.sched, id, m.sched)
      && m == l.(sched := m.sched, owing := l.owing - multiset{id},
                 starting := l.starting + NewStarts(l.sched, m.sched),
                 calls := l.calls + multiset{id},
                 effective := if id in l.sched.active then l.effective + multiset{id} else l.effective)
  }

  /** How many holders id has. */
  function Holders(l: Life, id: int): nat {
    l.starting[id] + l.running[id] + l.leaving[id] + l.finishing[id] + Bit(id in l.pending) + l.owing[id]
  }

  /** The account of one id. */
  predicate SlotOk(l: Life, id: int) {
    && Holders(l, id) == Bit(id in l.sched.active)
    && Bit(id in l.registered) == l.running[id] + l.leaving[id]
    && l.calls[id] == l.effective[id]
    && multiset(l.sched.started)[id] == Bit(id in l.sched.active) + l.effective[id]
  }

  ghost predicate Inv(l: Life) {
    (forall id :: SlotOk(l, id)) && (l.closing ==> l.pending == {})
  }

  lemma StartedSplits(s: Sched, t: Sched, id: int)
    requires s.started <= t.started
    ensures multiset(t.started)[id] == multiset(s.started)[id] + NewStarts(s, t)[id]
  {
    assert t.started == s.started + t.started[|s.started|..];
  }

  // ---------------------------------------------------------------- the invariant

  lemma ManageKeeps(l: Life, m: Life)
    requires Inv(l) && Next(l, Manage, m)
    ensures Inv(m)
  {
    forall id ensures SlotOk(m, id) {
      assert SlotOk(l, id);
      StartedSplits(l.sched, m.sched, id);
    }
  }

  /** Whoever is about to call OnDone holds a slot that is still marked running. */
  lemma HolderIsActive(l: Life, id: int)
    requires Inv(l) && Holders(l, id) > 0
    ensures id in l.sched.active
  {
    assert SlotOk(l, id);
  }

  lemma ReleaseKeeps(l: Life, id: int, m: Life)
    requires Inv(l) && Next(l, Release(id), m)
    ensures Inv(m)
  {
    HolderIsActive(l, id);
    forall x ensures SlotOk(m, x) {
      assert SlotOk(l, x);
      StartedSplits(l.sched, m.sched, x);
    }
  }

  /** The "already active" branch of StartDownload is unreachable: a starting call is never for an id that has a
      registered worker. */
  lemma NeverAlreadyActive(l: Life, id: int)
    requires Inv(l) && id in l.starting
    ensures id !in l.registered
  {
    assert SlotOk(l, id);
  }

  lemma RegisterKeeps(l: Life, id: int, m: Life)
    requires Inv(l) && Next(l, Register(id), m)
    ensures Inv(m)
  {
    NeverAlreadyActive(l, id);
    forall x ensures SlotOk(m, x) { assert SlotOk(l, x); }
  }

  lemma WorkerKeeps(l: Life, step: Step, m: Life)
    requires Inv(l) && Next(l, step, m) && (step.Stop? || step.Unregister?)
    ensures Inv(m)
  {
    assert SlotOk(l, step.id);
    forall x ensures SlotOk(m, x) { assert SlotOk(l, x); }
  }

  lemma EndingKeeps(l: Life, step: Step, m: Life)
    requires Inv(l) && Next(l, step, m) && (step.GiveUp? || step.Settle?)
    ensures Inv(m)
  {
    forall x ensures SlotOk(m, x) { assert SlotOk(l, x); }
  }

  lemma PromptKeeps(l: Life, step: Step, m: Life)
    requires Inv(l) && Next(l, step, m) && (step.Conflict? || step.Claim?)
    ensures Inv(m)
  {
    assert SlotOk(l, step.id);
    forall x ensures SlotOk(m, x) { assert SlotOk(l, x); }
  }

  lemma ShutdownKeeps(l: Life, m: Life)
    requires Inv(l) && Next(l, Shutdown, m)
    ensures Inv(m)
  {
    forall x ensures SlotOk(m, x) {
      assert SlotOk(l, x);
      assert multiset(l.pending)[x] == Bit(x in l.pending);
    }
  }

  lemma NextKeepsLife(l: Life, step: Step, m: Life)
    requires Inv(l) && Next(l, step, m)
    ensures Inv(m)
  {
    match step
    case Manage => ManageKeeps(l, m);
    case Release(id) => ReleaseKeeps(l, id, m);
    case Register(id) => RegisterKeeps(l, id, m);
    case Conflict(_, _) => PromptKeeps(l, step, m);
    case Claim(_) => PromptKeeps(l, step, m);
    case Shutdown => ShutdownKeeps(l, m);
    case Stop(_) => WorkerKeeps(l, step, m);
    case Unregister(_) => WorkerKeeps(l, step, m);
    case _ => EndingKeeps(l, step, m);
  }

  /** After RecoverDownloads: the first drain of the table as it was found has just handed out its slots. */
  ghost predicate Boots(boot: Sched, l: Life) {
    && boot.active == {} && boot.started == [] && Balanced(boot, l.sched)
    && l == Life(l.sched, multiset(l.sched.started), {}, multiset{}, multiset{}, multiset{}, {}, multiset{},
                 false, multiset{}, multiset{})
  }

  ghost predicate Init(l: Life) { exists boot :: Boots(boot, l) }

  lemma InitOk(l: Life)
    requires Init(l)
    ensures Inv(l)
  {
    var boot :| Boots(boot, l);
    assert l.sched.started[0..] == l.sched.started;
    forall id ensures SlotOk(l, id) {
      assert Bit(id in l.sched.active) == Bit(id in boot.active) + NewStarts(boot, l.sched)[id];
    }
  }

  ghost predicate Run(lives: seq<Life>, steps: seq<Step>) {
    && |lives| == |steps| + 1 && Init(lives[0])
    && forall i :: 0 <= i < |steps| ==> Next(lives[i], steps[i], lives[i + 1])
  }

  lemma {:induction false} RunKeeps(lives: seq<Life>, steps: seq<Step>, n: nat)
    requires Run(lives, steps) && n < |lives|
    ensures Inv(lives[n])
    decreases n
  {
    if n == 0 {
      InitOk(lives[0]);
    } else {
      RunKeeps(lives, steps, n - 1);
      NextKeepsLife(lives[n - 1], steps[n - 1], lives[n]);
    }
  }

  // ---------------------------------------------------------------- the theorems

  /** Slots are linear: at every moment of every run a running id has exactly one holder, in exactly one role, and an
      id that is not running has none. */
  lemma ExactlyOneHolder(lives: seq<Life>, steps: seq<Step>, n: nat, id: int)
    requires Run(lives, steps) && n < |lives|
    ensures var l := lives[n];
            l.starting[id] + l.running[id] + l.leaving[id] + l.finishing[id]
            + (if id in l.pending then 1 else 0) + l.owing[id] == if id in l.sched.active then 1 else 0
  {
    RunKeeps(lives, steps, n);
    assert SlotOk(lives[n], id);
  }

  /** At most one downloader is ever live for an id, and then it is the registered one; a call of StartDownload never
      finds its id registered already. */
  lemma OneLiveDownloader(lives: seq<Life>, steps: seq<Step>, n: nat, id: int)
    requires Run(lives, steps) && n < |lives|
    ensures lives[n].running[id] <= 1
    ensures id in lives[n].running ==> id in lives[n].registered && id in lives[n].sched.active
    ensures id in lives[n].starting ==> id !in lives[n].registered
  {
    RunKeeps(lives, steps, n);
    assert SlotOk(lives[n], id);
  }

  /** Release is exactly once: every call of OnDone finds its slot, whichever of dialog, error path and Shutdown
      makes it; and each id has been started once more than it has been released iff it is running now. */
  lemma ReleasedExactlyOnce(lives: seq<Life>, steps: seq<Step>, n: nat, id: int)
    requires Run(lives, steps) && n < |lives|
    ensures lives[n].calls[id] == lives[n].effective[id]
    ensures multiset(lives[n].sched.started)[id] ==
            lives[n].effective[id] + (if id in lives[n].sched.active then 1 else 0)
  {
    RunKeeps(lives, steps, n);
    assert SlotOk(lives[n], id);
  }

  /** When the last holder has let go, every start has been released: nothing leaks. */
  lemma NoSlotLeaks(lives: seq<Life>, steps: seq<Step>, n: nat)
    requires Run(lives, steps) && n < |lives| && forall id :: Holders(lives[n], id) == 0
    ensures lives[n].sched.active == {}
    ensures forall id :: multiset(lives[n].sched.started)[id] == lives[n].calls[id]
  {
    RunKeeps(lives, steps, n);
    var l := lives[n];
    forall id
      ensures id !in l.sched.active
      ensures multiset(l.sched.started)[id] == l.calls[id]
    {
      assert SlotOk(l, id) && Holders(l, id) == 0;
    }
    EmptyIfNone(l.sched.active);
  }

  /** Once Shutdown has begun, no prompt is left waiting and no new worker registers. */
  lemma {:induction false} ShutdownDrainsPrompts(lives: seq<Life>, steps: seq<Step>, a: nat, b: nat)
    requires Run(lives, steps) && a <= b < |lives| && lives[a].closing
    ensures lives[b].closing && lives[b].pending == {} && lives[b].registered <= lives[a].registered
    decreases b
  {
    RunKeeps(lives, steps, b);
    if a < b {
      ShutdownDrainsPrompts(lives, steps, a, b - 1);
      assert Next(lives[b - 1], steps[b - 1], lives[b]);
    }
  }
}
