/** What becomes of each call of the handoff controller, told by the turns alone: what the native host answered, and
    what the browser's cancel and erase returned. */
module HandoffFates {
  import opened HandoffTurns

  function CallOf(t: Turn): nat { t.call }

  predicate Happened(turns: seq<Turn>, t: Turn) { t in turns }

  /** The three places a call waits at, each passed at most once. */
  predicate Quiet(turns: seq<Turn>, c: nat) {
    && !Happened(turns, Answered(c, true)) && !Happened(turns, Answered(c, false))
    && !Happened(turns, CancelReturned(c, true)) && !Happened(turns, CancelReturned(c, false))
    && !Happened(turns, EraseReturned(c, true)) && !Happened(turns, EraseReturned(c, false))
  }

  /** An attempt of its own: preserved if the host refused; then cancelled if the browser's cancel returned, preserved
      if it threw; then completed if the erase returned, or not if it threw. */
  predicate AttemptTold(turns: seq<Turn>, c: nat, state: AttemptState) {
    && (state == BrowserPreserved <==> Happened(turns, Answered(c, false)))
    && (state !in {Created, BrowserPreserved} <==> Happened(turns, Answered(c, true)))
    && (state == AcceptedBrowserPreserved <==> Happened(turns, CancelReturned(c, false)))
    && (state in {Cancelled, AcceptedEraseFailed, Completed} <==> Happened(turns, CancelReturned(c, true)))
    && (state == AcceptedEraseFailed <==> Happened(turns, EraseReturned(c, false)))
    && (state == Completed <==> Happened(turns, EraseReturned(c, true)))
  }

  /** A duplicate: gone from the browser exactly if both its cancel and its erase returned. */
  predicate DuplicateTold(turns: seq<Turn>, c: nat, stage: Stage) {
    && !Happened(turns, Answered(c, true)) && !Happened(turns, Answered(c, false))
    && (stage == Cancelling <==>
          !Happened(turns, CancelReturned(c, true)) && !Happened(turns, CancelReturned(c, false)))
    && (stage == Erasing <==> Happened(turns, CancelReturned(c, true))
                              && !Happened(turns, EraseReturned(c, true)) && !Happened(turns, EraseReturned(c, false)))
    && (stage == Done(false) <==>
          Happened(turns, CancelReturned(c, true)) && Happened(turns, EraseReturned(c, true)))
    && (stage == Done(true) <==>
          Happened(turns, CancelReturned(c, false)) || Happened(turns, EraseReturned(c, false)))
    && (Happened(turns, EraseReturned(c, true)) || Happened(turns, EraseReturned(c, false)) ==>
          Happened(turns, CancelReturned(c, true)))
    && !(Happened(turns, CancelReturned(c, true)) && Happened(turns, CancelReturned(c, false)))
    && !(Happened(turns, EraseReturned(c, true)) && Happened(turns, EraseReturned(c, false)))
  }

  /** The browser reported this download to this call. */
  ghost predicate Reported(turns: seq<Turn>, c: nat, url: string, item: int, http: bool) {
    exists pruned, at :: Happened(turns, HandleCreated(c, url, item, http, pruned, at))
  }

  ghost predicate HostAnswered(turns: seq<Turn>, c: nat, success: bool) {
    exists pruned, at :: Happened(turns, InterceptAnswered(c, success, pruned, at))
  }

  /** A call stands where its turns have taken it. */
  ghost predicate Told(turns: seq<Turn>, calls: map<nat, Call>, c: nat) {
    if c !in calls then Quiet(turns, c) && !HostAnswered(turns, c, true) && !HostAnswered(turns, c, false)
    else
      match calls[c]
      case Intercepting(url) =>
        && Quiet(turns, c) && Happened(turns, InterceptFirefox(c, url))
        && !HostAnswered(turns, c, true) && !HostAnswered(turns, c, false)
      case Intercepted(url, success) =>
        && Quiet(turns, c) && Happened(turns, InterceptFirefox(c, url))
        && HostAnswered(turns, c, success) && !HostAnswered(turns, c, !success)
      case Ignored => Quiet(turns, c) && exists url, item :: Reported(turns, c, url, item, false)
      case Deduplicating(url, item, stage) =>
        DuplicateTold(turns, c, stage) && Reported(turns, c, url, item, true)
      case Attempt(url, item, state) =>
        AttemptTold(turns, c, state) && Reported(turns, c, url, item, true)
  }

  /** A turn of another call says nothing about this one. */
  lemma OtherTurn(turns: seq<Turn>, t: Turn, calls: map<nat, Call>, after: map<nat, Call>, c: nat)
    requires Told(turns, calls, c) && c != CallOf(t) && (c in after <==> c in calls)
    requires c in calls ==> after[c] == calls[c]
    ensures Told(turns + [t], after, c)
  {
    forall u ensures Happened(turns + [t], u) <==> Happened(turns, u) || u == t {}
    if c in calls { StillReported(turns, t, c); }
    NoAnswer(turns, t, c);
  }

  lemma StillReported(turns: seq<Turn>, t: Turn, c: nat)
    ensures forall url, item, http :: Reported(turns, c, url, item, http) ==> Reported(turns + [t], c, url, item, http)
  {
    forall url, item, http | Reported(turns, c, url, item, http) ensures Reported(turns + [t], c, url, item, http) {
      var pruned, at :| Happened(turns, HandleCreated(c, url, item, http, pruned, at));
      assert Happened(turns + [t], HandleCreated(c, url, item, http, pruned, at));
    }
  }

  lemma NoAnswer(turns: seq<Turn>, t: Turn, c: nat)
    requires t.InterceptAnswered? ==> t.call != c
    ensures forall success :: HostAnswered(turns + [t], c, success) <==> HostAnswered(turns, c, success)
  {
    forall success ensures HostAnswered(turns + [t], c, success) <==> HostAnswered(turns, c, success) {
      if HostAnswered(turns, c, success) {
        var pruned, at :| Happened(turns, InterceptAnswered(c, success, pruned, at));
        assert Happened(turns + [t], InterceptAnswered(c, success, pruned, at));
      }
      if HostAnswered(turns + [t], c, success) {
        var pruned, at :| Happened(turns + [t], InterceptAnswered(c, success, pruned, at));
        assert Happened(turns, InterceptAnswered(c, success, pruned, at));
      }
    }
  }

  /** The turns of a call take it where they say. */
  lemma OwnTurn(turns: seq<Turn>, t: Turn, s: State, window: int)
    requires Told(turns, s.calls, CallOf(t)) && Enabled(s, t)
    ensures Told(turns + [t], Next(s, window, t).calls, CallOf(t))
  {
    var c := CallOf(t);
    forall u ensures Happened(turns + [t], u) <==> Happened(turns, u) || u == t {}
    StillReported(turns, t, c);
    if t.InterceptAnswered? {
      assert Happened(turns + [t], InterceptAnswered(c, t.success, t.pruned, t.at));
      assert !HostAnswered(turns + [t], c, !t.success);
    } else {
      NoAnswer(turns, t, c);
    }
    if t.HandleCreated? {
      assert Happened(turns + [t], HandleCreated(c, t.url, t.item, t.http, t.pruned, t.at));
      assert Reported(turns + [t], c, t.url, t.item, t.http);
    }
  }

  lemma OthersStand(s: State, window: int, t: Turn, c: nat)
    requires Enabled(s, t) && c != CallOf(t)
    ensures c in Next(s, window, t).calls <==> c in s.calls
    ensures c in s.calls ==> Next(s, window, t).calls[c] == s.calls[c]
  {
  }

  lemma {:induction false} EveryCallTold(window: int, turns: seq<Turn>, c: nat)
    requires Runs(window, turns)
    ensures Told(turns, After(window, turns).calls, c)
    decreases |turns|
  {
    if turns != [] {
      var before, t := turns[..|turns| - 1], turns[|turns| - 1];
      var s := After(window, before);
      EveryCallTold(window, before, c);
      assert before + [t] == turns;
      if c == CallOf(t) {
        OwnTurn(before, t, s, window);
      } else {
        OthersStand(s, window, t, c);
        OtherTurn(before, t, s.calls, Next(s, window, t).calls, c);
      }
    }
  }

  /** Over every run of turns: what has become of an attempt is what the host, the cancel and the erase have returned.
      */
  lemma FateOfAttempt(window: int, turns: seq<Turn>, c: nat)
    requires Runs(window, turns) && c in After(window, turns).calls && After(window, turns).calls[c].Attempt?
    ensures AttemptTold(turns, c, After(window, turns).calls[c].state)
    ensures var a := After(window, turns).calls[c]; Reported(turns, c, a.url, a.item, true)
  {
    EveryCallTold(window, turns, c);
  }

  /** And of a duplicate. */
  lemma FateOfDuplicate(window: int, turns: seq<Turn>, c: nat)
    requires Runs(window, turns) && c in After(window, turns).calls && After(window, turns).calls[c].Deduplicating?
    ensures DuplicateTold(turns, c, After(window, turns).calls[c].stage)
    ensures var d := After(window, turns).calls[c]; Reported(turns, c, d.url, d.item, true)
  {
    EveryCallTold(window, turns, c);
  }

  // ---------------------------------------------------------------- the books, told by the turns

  ghost predicate Accepting(turns: seq<Turn>, c: nat) {
    Happened(turns, Answered(c, true)) || HostAnswered(turns, c, true)
  }

  ghost predicate Booked(s: State, c: nat) { exists k :: 0 <= k < |s.accepted| && s.accepted[k].call == c }

  ghost predicate Cancelled'(s: State, c: nat) { exists k :: 0 <= k < |s.cancels| && s.cancels[k].call == c }

  lemma LastBooked(s: State, t: State, a: Acceptance, c: nat)
    requires t.accepted == s.accepted + [a]
    ensures Booked(t, c) <==> Booked(s, c) || a.call == c
  {
    if Booked(s, c) {
      var k :| 0 <= k < |s.accepted| && s.accepted[k].call == c;
      assert t.accepted[k].call == c;
    }
    if a.call == c { assert t.accepted[|s.accepted|].call == c; }
    if Booked(t, c) {
      var k :| 0 <= k < |t.accepted| && t.accepted[k].call == c;
      assert k < |s.accepted| ==> s.accepted[k].call == c;
    }
  }

  lemma LastCancelled(s: State, t: State, a: Cancellation, c: nat)
    requires t.cancels == s.cancels + [a]
    ensures Cancelled'(t, c) <==> Cancelled'(s, c) || a.call == c
  {
    if Cancelled'(s, c) {
      var k :| 0 <= k < |s.cancels| && s.cancels[k].call == c;
      assert t.cancels[k].call == c;
    }
    if a.call == c { assert t.cancels[|s.cancels|].call == c; }
    if Cancelled'(t, c) {
      var k :| 0 <= k < |t.cancels| && t.cancels[k].call == c;
      assert k < |s.cancels| ==> s.cancels[k].call == c;
    }
  }

  /** What a turn adds to the books. */
  lemma TurnBooks(s: State, window: int, t: Turn, c: nat)
    requires Enabled(s, t)
    ensures var r := Next(s, window, t);
      && (Booked(r, c) <==>
            Booked(s, c) || t == Answered(c, true) || (t.InterceptAnswered? && t.call == c && t.success))
      && (Cancelled'(r, c) <==>
            || Cancelled'(s, c) || t == Answered(c, true)
            || (t.HandleCreated? && t.call == c && r.calls[c].Deduplicating?))
  {
    var r := Next(s, window, t);
    if t.Answered? && t.success {
      LastBooked(s, r, r.accepted[|s.accepted|], c);
      LastCancelled(s, r, r.cancels[|s.cancels|], c);
    } else if t.InterceptAnswered? && t.success {
      LastBooked(s, r, r.accepted[|s.accepted|], c);
    } else if t.HandleCreated? && r.calls[t.call].Deduplicating? {
      LastCancelled(s, r, r.cancels[|s.cancels|], c);
    }
  }

  /** The books hold an acceptance for exactly the calls the host accepted, and a cancel for exactly those and the
      duplicates. */
  lemma {:induction false} BooksTold(window: int, turns: seq<Turn>, c: nat)
    requires Runs(window, turns)
    ensures var s := After(window, turns);
      && (Booked(s, c) <==> Accepting(turns, c))
      && (Cancelled'(s, c) <==> Happened(turns, Answered(c, true)) || (c in s.calls && s.calls[c].Deduplicating?))
    decreases |turns|
  {
    if turns != [] {
      var before, t := turns[..|turns| - 1], turns[|turns| - 1];
      var s := After(window, before);
      BooksTold(window, before, c);
      assert before + [t] == turns;
      TurnBooks(s, window, t, c);
      if t.InterceptAnswered? && t.call == c {
        EveryCallTold(window, turns, c);
      } else {
        NoAnswer(before, t, c);
      }
      if c != CallOf(t) { OthersStand(s, window, t, c); }
    }
  }
}
