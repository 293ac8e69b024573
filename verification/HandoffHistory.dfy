/** The turns of the event loop refine the clock-stamped histories: what a run claims is what its history suppresses, so
    no run could have suppressed more. */
module HandoffHistory {
  import opened Handoff
  import T = HandoffTurns
  import HandoffMatching

  function Stamps(entries: seq<T.Entry>): (r: seq<int>)
    ensures |r| == |entries| && forall i :: 0 <= i < |r| ==> r[i] == entries[i].at
  {
    seq(|entries|, i requires 0 <= i < |entries| => entries[i].at)
  }

  ghost predicate Refines(book: T.Book, table: Table) {
    forall url :: SameStamps(book, table, url)
  }

  ghost predicate SameStamps(book: T.Book, table: Table, url: string) {
    Stamps(T.At(book, url)) == Entries(table, url)
  }

  /** The event a turn puts into the history, if it handles one. */
  function EventOf(s: T.State, t: T.Turn): seq<Event>
    requires T.Enabled(s, t)
  {
    match t
    case InterceptAnswered(call, success, pruned, at) =>
      if success then [Intercepted(s.calls[call].url, pruned, at)] else []
    case HandleCreated(call, url, item, http, pruned, at) =>
      if http then [Created(url, pruned, at)] else []
    case _ => []
  }

  function History(window: int, turns: seq<T.Turn>): seq<Event>
    requires T.Runs(window, turns)
  {
    if turns == [] then []
    else
      var before := turns[..|turns| - 1];
      History(window, before) + EventOf(T.After(window, before), turns[|turns| - 1])
  }

  lemma {:induction false} LiveStamps(entries: seq<T.Entry>, cutoff: int)
    ensures Stamps(T.LiveEntries(entries, cutoff)) == Live(Stamps(entries), cutoff)
  {
    if entries != [] {
      LiveStamps(entries[1..], cutoff);
      assert Stamps(entries)[1..] == Stamps(entries[1..]);
    }
  }

  lemma PruneRefines(s: T.State, table: Table, cutoff: int)
    requires Refines(s.book, table)
    ensures Refines(T.Prune(s, cutoff).book, Pruned(table, cutoff))
  {
    forall url ensures SameStamps(T.Prune(s, cutoff).book, Pruned(table, cutoff), url) {
      assert SameStamps(s.book, table, url);
      LiveStamps(T.At(s.book, url), cutoff);
    }
  }

  lemma PutRefines(book: T.Book, table: Table, url: string, entries: seq<T.Entry>)
    requires Refines(book, table)
    ensures Refines(T.Put(book, url, entries), Store(table, url, Stamps(entries)))
  {
    forall u ensures SameStamps(T.Put(book, url, entries), Store(table, url, Stamps(entries)), u) {
      assert SameStamps(book, table, u);
    }
  }

  lemma RememberRefines(s: T.State, table: Table, call: nat, url: string, at: int)
    requires Refines(s.book, table)
    ensures Refines(T.Remember(s, call, url, at).book, Store(table, url, Entries(table, url) + [at]))
  {
    var entries := T.At(s.book, url) + [T.Entry(at, |s.accepted|)];
    assert SameStamps(s.book, table, url);
    assert Stamps(entries) == Entries(table, url) + [at];
    PutRefines(s.book, table, url, entries);
  }

  lemma FilterRefines(s: T.State, table: Table, url: string, cutoff: int)
    requires Refines(s.book, table)
    ensures Refines(T.Filter(s, url, cutoff).book, Store(table, url, Live(Entries(table, url), cutoff)))
    ensures T.At(T.Filter(s, url, cutoff).book, url) != [] <==> Claimable(Entries(table, url), cutoff)
  {
    assert SameStamps(s.book, table, url);
    LiveStamps(T.At(s.book, url), cutoff);
    PutRefines(s.book, table, url, T.LiveEntries(T.At(s.book, url), cutoff));
  }

  lemma ClaimRefines(f: T.State, table: Table, call: nat, url: string, item: int)
    requires Refines(f.book, table) && T.At(f.book, url) != []
    ensures Entries(table, url) != []
    ensures Refines(T.Claim(f, call, url, item).book, Store(table, url, Entries(table, url)[1..]))
  {
    assert SameStamps(f.book, table, url);
    assert Stamps(T.At(f.book, url)[1..]) == Entries(table, url)[1..];
    PutRefines(f.book, table, url, T.At(f.book, url)[1..]);
  }

  lemma AgreesRefines(book: T.Book, a: Table, b: Table)
    requires Refines(book, a) && forall u :: Entries(a, u) == Entries(b, u)
    ensures Refines(book, b)
  {
    forall url ensures SameStamps(book, b, url) { assert SameStamps(book, a, url); }
  }

  lemma DecideRefines(p: T.State, kept: Table, window: int, call: nat, item: int, e: Event)
    requires Refines(p.book, kept) && e.Created?
    ensures Refines(T.Decide(T.Filter(p, e.url, e.at - window), call, e.url, item).book, Updated(kept, window, e))
    ensures T.At(T.Filter(p, e.url, e.at - window).book, e.url) != [] <==> Duplicate(kept, window, e)
  {
    var url, cutoff := e.url, e.at - window;
    var f, live := T.Filter(p, url, cutoff), Live(Entries(kept, url), cutoff);
    FilterRefines(p, kept, url, cutoff);
    if T.At(f.book, url) != [] {
      ClaimRefines(f, Store(kept, url, live), call, url, item);
      AgreesRefines(T.Claim(f, call, url, item).book, Store(Store(kept, url, live), url, live[1..]),
                    Updated(kept, window, e));
    } else {
      AgreesRefines(f.book, Store(kept, url, live), Updated(kept, window, e));
    }
  }

  lemma CreationRefines(s: T.State, r: T.State, window: int, table: Table, call: nat, item: int, e: Event)
    requires Refines(s.book, table) && e.Created?
    requires r == T.Decide(T.Forget(s, e.url, e.pruned - window, e.at - window), call, e.url, item)
    ensures Refines(r.book, Step(table, window, e))
  {
    PruneRefines(s, table, e.pruned - window);
    DecideRefines(T.Prune(s, e.pruned - window), Pruned(table, e.pruned - window), window, call, item, e);
  }

  lemma InterceptionRefines(s: T.State, r: T.State, window: int, table: Table, call: nat, e: Event)
    requires Refines(s.book, table) && e.Intercepted?
    requires r == T.Remember(T.Prune(s, e.pruned - window), call, e.url, e.at)
    ensures Refines(r.book, Step(table, window, e))
  {
    PruneRefines(s, table, e.pruned - window);
    RememberRefines(T.Prune(s, e.pruned - window), Pruned(table, e.pruned - window), call, e.url, e.at);
  }

  /** The table after the events a turn contributes. */
  function Handled(window: int, table: Table, events: seq<Event>): Table {
    if events == [] then table else Step(table, window, events[0])
  }

  lemma QuietTurn(s: T.State, window: int, t: T.Turn)
    requires T.Enabled(s, t) && EventOf(s, t) == []
    ensures T.Next(s, window, t).book == s.book
  {
  }

  lemma CreationTurn(s: T.State, window: int, t: T.Turn, table: Table)
    requires Refines(s.book, table) && T.Enabled(s, t) && t.HandleCreated? && t.http
    ensures Refines(T.Next(s, window, t).book, Step(table, window, Created(t.url, t.pruned, t.at)))
  {
    CreationRefines(s, T.Next(s, window, t), window, table, t.call, t.item, Created(t.url, t.pruned, t.at));
  }

  lemma InterceptionTurn(s: T.State, window: int, t: T.Turn, table: Table)
    requires Refines(s.book, table) && T.Enabled(s, t) && t.InterceptAnswered? && t.success
    ensures Refines(T.Next(s, window, t).book, Step(table, window, Intercepted(s.calls[t.call].url, t.pruned, t.at)))
  {
    InterceptionRefines(s, T.Next(s, window, t), window, table, t.call,
                        Intercepted(s.calls[t.call].url, t.pruned, t.at));
  }

  lemma TurnIsStep(s: T.State, window: int, t: T.Turn, table: Table)
    requires Refines(s.book, table) && T.Enabled(s, t)
    ensures Refines(T.Next(s, window, t).book, Handled(window, table, EventOf(s, t)))
  {
    if EventOf(s, t) == [] {
      QuietTurn(s, window, t);
    } else if t.HandleCreated? {
      CreationTurn(s, window, t, table);
    } else {
      InterceptionTurn(s, window, t, table);
    }
  }

  lemma AfterAppend(window: int, history: seq<Event>, more: seq<Event>)
    requires |more| <= 1
    ensures After(window, history + more) == Handled(window, After(window, history), more)
  {
    if more == [] {
      assert history + more == history;
    } else {
      assert (history + more)[..|history + more| - 1] == history;
    }
  }

  /** In every run the entries the controller holds are those of the table its history leads to. */
  lemma {:induction false} RunsRefine(window: int, turns: seq<T.Turn>)
    requires T.Runs(window, turns)
    ensures Refines(T.After(window, turns).book, After(window, History(window, turns)))
  {
    if turns == [] {
      forall url ensures SameStamps(T.After(window, turns).book, After(window, History(window, turns)), url) {}
    } else {
      var before := turns[..|turns| - 1];
      var s, t := T.After(window, before), turns[|turns| - 1];
      RunsRefine(window, before);
      TurnIsStep(s, window, t, After(window, History(window, before)));
      AfterAppend(window, History(window, before), EventOf(s, t));
    }
  }

  // ---------------------------------------------------------------- claims are suppressions

  /** The turn finds a duplicate of the URL. */
  predicate FindsDuplicate(s: T.State, window: int, t: T.Turn, url: string) {
    && t.HandleCreated? && t.http && t.url == url
    && T.At(T.Forget(s, url, t.pruned - window, t.at - window).book, url) != []
  }

  lemma KindStays(s: T.State, window: int, t: T.Turn, c: nat)
    requires T.Enabled(s, t) && c in s.calls
    ensures c in T.Next(s, window, t).calls
    ensures T.Next(s, window, t).calls[c].Deduplicating? <==> s.calls[c].Deduplicating?
  {
  }

  /** What a turn adds to the cancels. */
  lemma CancelsAdded(s: T.State, window: int, t: T.Turn, url: string)
    requires T.Enabled(s, t)
    ensures var r := T.Next(s, window, t);
      && s.cancels <= r.cancels && |r.cancels| <= |s.cancels| + 1
      && (FindsDuplicate(s, window, t, url) <==>
          (|r.cancels| > |s.cancels| && r.cancels[|s.cancels|].url == url && T.FoundDuplicate(r, |s.cancels|)))
  {
  }

  lemma EarlierClaimsStay(s: T.State, window: int, t: T.Turn, url: string, c: nat)
    requires T.Inv(s) && T.Enabled(s, t) && c < |s.cancels|
    ensures c in T.ClaimsOf(T.Next(s, window, t), url) <==> c in T.ClaimsOf(s, url)
  {
    assert T.PaidAt(s, c);
    KindStays(s, window, t, s.cancels[c].call);
    CancelsAdded(s, window, t, url);
  }

  lemma NewClaim(s: T.State, window: int, t: T.Turn, url: string, c: nat)
    requires T.Enabled(s, t) && c >= |s.cancels|
    ensures c in T.ClaimsOf(T.Next(s, window, t), url) <==> c == |s.cancels| && FindsDuplicate(s, window, t, url)
  {
    CancelsAdded(s, window, t, url);
  }

  lemma OneMore(a: set<nat>, b: set<nat>, n: nat, more: bool)
    requires forall c: nat :: c < n ==> (c in b <==> c in a)
    requires forall c: nat :: c >= n ==> (c in b <==> c == n && more) && c !in a
    ensures |b| == |a| + (if more then 1 else 0)
  {
    assert b == a + (if more then {n} else {});
  }

  lemma ClaimsStep(s: T.State, window: int, t: T.Turn, url: string)
    requires T.Inv(s) && T.Enabled(s, t)
    ensures |T.ClaimsOf(T.Next(s, window, t), url)|
         == |T.ClaimsOf(s, url)| + (if FindsDuplicate(s, window, t, url) then 1 else 0)
  {
    var a, b := T.ClaimsOf(s, url), T.ClaimsOf(T.Next(s, window, t), url);
    forall c: nat | c < |s.cancels| ensures c in b <==> c in a { EarlierClaimsStay(s, window, t, url, c); }
    forall c: nat | c >= |s.cancels| ensures c in b <==> c == |s.cancels| && FindsDuplicate(s, window, t, url) {
      NewClaim(s, window, t, url, c);
    }
    OneMore(a, b, |s.cancels|, FindsDuplicate(s, window, t, url));
  }

  /** The event, if there is one, is suppressed as a duplicate of the URL. */
  predicate Suppresses(window: int, table: Table, events: seq<Event>, url: string) {
    events != [] && events[0].url == url && Duplicate(Pruned(table, events[0].pruned - window), window, events[0])
  }

  lemma SuppressedLast(window: int, events: seq<Event>, url: string)
    requires events != []
    ensures var last := |events| - 1;
      (events[last].url == url && Suppressed(window, events, last))
        <==> Suppresses(window, After(window, events[..last]), [events[last]], url)
  {
  }

  lemma CountOne(window: int, events: seq<Event>, url: string)
    requires events != []
    ensures var last := |events| - 1;
      HandoffMatching.SuppressedCount(window, events, url)
        == HandoffMatching.SuppressedCount(window, events[..last], url)
         + (if Suppresses(window, After(window, events[..last]), [events[last]], url) then 1 else 0)
  {
    SuppressedLast(window, events, url);
    assert HandoffMatching.SuppressedCount(window, events, url)
        == HandoffMatching.SuppressedCount(window, events[..|events| - 1], url)
         + (if events[|events| - 1].url == url && Suppressed(window, events, |events| - 1) then 1 else 0);
  }

  lemma CountAppend(window: int, history: seq<Event>, more: seq<Event>, url: string)
    requires |more| <= 1
    ensures HandoffMatching.SuppressedCount(window, history + more, url)
         == HandoffMatching.SuppressedCount(window, history, url)
          + (if Suppresses(window, After(window, history), more, url) then 1 else 0)
  {
    if more == [] {
      assert history + more == history;
    } else {
      assert more == [more[0]];
      assert (history + more)[..|history + more| - 1] == history;
      CountOne(window, history + more, url);
    }
  }

  lemma DuplicateTurn(s: T.State, window: int, t: T.Turn, url: string, table: Table)
    requires Refines(s.book, table) && T.Enabled(s, t)
    ensures FindsDuplicate(s, window, t, url) <==> Suppresses(window, table, EventOf(s, t), url)
  {
    if t.HandleCreated? && t.http {
      PruneRefines(s, table, t.pruned - window);
      DecideRefines(T.Prune(s, t.pruned - window), Pruned(table, t.pruned - window), window, t.call, t.item,
                    EventOf(s, t)[0]);
    }
  }

  lemma RunClaimsStep(window: int, before: seq<T.Turn>, t: T.Turn, url: string)
    requires T.Runs(window, before) && T.Enabled(T.After(window, before), t)
    ensures var s, history := T.After(window, before), History(window, before);
      |T.ClaimsOf(T.Next(s, window, t), url)|
        == |T.ClaimsOf(s, url)| + (if Suppresses(window, After(window, history), EventOf(s, t), url) then 1 else 0)
  {
    T.RunsKeep(window, before);
    ClaimsStep(T.After(window, before), window, t, url);
    RunsRefine(window, before);
    DuplicateTurn(T.After(window, before), window, t, url, After(window, History(window, before)));
  }

  lemma {:induction false} ClaimsAreSuppressions(window: int, turns: seq<T.Turn>, url: string)
    requires T.Runs(window, turns)
    ensures |T.ClaimsOf(T.After(window, turns), url)|
         == HandoffMatching.SuppressedCount(window, History(window, turns), url)
  {
    if turns != [] {
      var before := turns[..|turns| - 1];
      var t := turns[|turns| - 1];
      ClaimsAreSuppressions(window, before, url);
      RunClaimsStep(window, before, t, url);
      CountAppend(window, History(window, before), EventOf(T.After(window, before), t), url);
    }
  }

  /** While the clock does not run backwards, no way of pairing a run's download events with earlier successful
      interceptions inside the window finds more duplicates than the controller did. */
  lemma NoRunFindsMore(window: int, turns: seq<T.Turn>, url: string, m: HandoffMatching.Pairing)
    requires T.Runs(window, turns) && Monotone(History(window, turns))
    requires HandoffMatching.Matching(window, History(window, turns), url, m)
    ensures HandoffMatching.Size(m) <= |T.ClaimsOf(T.After(window, turns), url)|
  {
    ClaimsAreSuppressions(window, turns, url);
    HandoffMatching.NoPairingIsLarger(window, History(window, turns), url, m);
  }
}
