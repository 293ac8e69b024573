/** De-duplication in the browser handoff controller: interceptions remembered per URL, pruned by age, and claimed
    oldest first by the download events that follow. */
module Handoff {

  /** `entries.filter(timestamp => timestamp >= cutoff)`. */
  function Live(entries: seq<int>, cutoff: int): seq<int> {
    if entries == [] then []
    else if entries[0] >= cutoff then [entries[0]] + Live(entries[1..], cutoff)
    else Live(entries[1..], cutoff)
  }

  lemma {:induction false} LiveMembers(entries: seq<int>, cutoff: int)
    ensures forall t :: t in Live(entries, cutoff) <==> t in entries && t >= cutoff
  {
    if entries != [] {
      LiveMembers(entries[1..], cutoff);
      assert entries == [entries[0]] + entries[1..];
    }
  }

  type Table = map<string, seq<int>>

  /** `intercepted.get(url) || []`. */
  function Entries(table: Table, url: string): seq<int> {
    if url in table then table[url] else []
  }

  /** Storing a list: the empty one is represented by no key at all. */
  function Store(table: Table, url: string, entries: seq<int>): (r: Table)
    ensures Entries(r, url) == entries
    ensures forall u :: u != url ==> Entries(r, u) == Entries(table, u)
  {
    if entries == [] then table - {url} else table[url := entries]
  }

  function Pruned(table: Table, cutoff: int): (r: Table)
    ensures forall u :: Entries(r, u) == Live(Entries(table, u), cutoff)
  {
    map u | u in table && Live(table[u], cutoff) != [] :: Live(table[u], cutoff)
  }

  /** claimIntercept: a claim succeeds when an entry is inside the window, and what it leaves for the URL. */
  predicate Claimable(entries: seq<int>, cutoff: int) {
    Live(entries, cutoff) != []
  }

  function Unclaimed(entries: seq<int>, cutoff: int): seq<int> {
    if Claimable(entries, cutoff) then Live(entries, cutoff)[1..] else []
  }

  /** The bookkeeping object. Clock readings are arguments: the source reads the clock once in prune and once more in
      rememberIntercept or claimIntercept. */
  class Controller {
    const dedupeWindow: int
    var intercepted: Table

    constructor (dedupeWindow: int)
      ensures intercepted == map[] && this.dedupeWindow == dedupeWindow
    {
      this.dedupeWindow := dedupeWindow;
      intercepted := map[];
    }

    /** prune, on the interceptions: afterwards only timestamps inside the window remain, and no empty lists. */
    method Prune(now: int)
      modifies this`intercepted
      ensures intercepted == Pruned(old(intercepted), now - dedupeWindow)
      ensures forall u :: u in intercepted ==>
                intercepted[u] != [] && forall t :: t in intercepted[u] ==> t >= now - dedupeWindow
    {
      var cutoff := now - dedupeWindow;
      var rest := intercepted.Keys;
      ghost var before := intercepted;
      while rest != {}
        invariant rest <= before.Keys && rest <= intercepted.Keys
        invariant forall u :: u in rest ==> intercepted[u] == before[u]
        invariant forall u :: u !in rest ==> (u in intercepted <==> u in before && Live(before[u], cutoff) != [])
        invariant forall u :: u !in rest && u in intercepted ==> intercepted[u] == Live(before[u], cutoff)
        decreases rest
      {
        ghost var w := SomeKey(rest);
        var url :| url in rest;
        var live := Live(intercepted[url], cutoff);
        if |live| > 0 {
          intercepted := intercepted[url := live];
        } else {
          intercepted := intercepted - {url};
        }
        rest := rest - {url};
      }
      assert intercepted == Pruned(before, cutoff);
      forall u | u in intercepted { LiveMembers(before[u], cutoff); }
    }

    method RememberIntercept(url: string, now: int)
      modifies this`intercepted
      ensures intercepted == Store(old(intercepted), url, Entries(old(intercepted), url) + [now])
    {
      var entries := if url in intercepted then intercepted[url] else [];
      entries := entries + [now];
      intercepted := intercepted[url := entries];
    }

    method ClaimIntercept(url: string, now: int) returns (claimed: bool)
      modifies this`intercepted
      ensures claimed == Claimable(Entries(old(intercepted), url), now - dedupeWindow)
      ensures intercepted == Store(old(intercepted), url, Unclaimed(Entries(old(intercepted), url), now - dedupeWindow))
    {
      var cutoff := now - dedupeWindow;
      var entries := Live(if url in intercepted then intercepted[url] else [], cutoff);
      if |entries| == 0 {
        intercepted := intercepted - {url};
        return false;
      }
      entries := entries[1..];
      if |entries| > 0 {
        intercepted := intercepted[url := entries];
      } else {
        intercepted := intercepted - {url};
      }
      return true;
    }

    /** What interceptFirefox does once the native host has answered. */
    method InterceptFirefox(url: string, success: bool, pruned: int, at: int)
      modifies this`intercepted
      ensures intercepted
           == if success then Step(old(intercepted), dedupeWindow, Intercepted(url, pruned, at)) else old(intercepted)
    {
      if success {
        Prune(pruned);
        RememberIntercept(url, at);
      }
    }

    /** What handleCreated does before it first waits. */
    method HandleCreated(url: string, http: bool, pruned: int, at: int) returns (duplicate: bool)
      modifies this`intercepted
      ensures intercepted
           == if http then Step(old(intercepted), dedupeWindow, Created(url, pruned, at)) else old(intercepted)
      ensures duplicate
         <==> http && Duplicate(Pruned(old(intercepted), pruned - dedupeWindow), dedupeWindow, Created(url, pruned, at))
    {
      if !http { return false; }
      Prune(pruned);
      duplicate := ClaimIntercept(url, at);
    }
  }

  lemma NoKeys(keys: set<string>)
    requires forall k :: k !in keys
    ensures keys == {}
  {
    assert forall k :: k in keys <==> k in {};
  }

  lemma SomeKey(keys: set<string>) returns (k: string)
    requires keys != {}
    ensures k in keys
  {
    if forall x :: x !in keys { NoKeys(keys); }
    k :| k in keys;
  }

  // ---------------------------------------------------------------- histories

  /** A successful interceptFirefox or a handleCreated, with its two clock readings. */
  datatype Event =
    | Intercepted(url: string, pruned: int, at: int)
    | Created(url: string, pruned: int, at: int)

  /** Time never runs backwards, within a call or between calls. */
  predicate Monotone(events: seq<Event>) {
    && (forall i :: 0 <= i < |events| ==> events[i].pruned <= events[i].at)
    && forall i, j :: 0 <= i < j < |events| ==> events[i].at <= events[j].pruned
  }

  /** What follows the pruning: the new table. */
  function Updated(kept: Table, window: int, e: Event): Table {
    match e
    case Intercepted(url, _, at) => Store(kept, url, Entries(kept, url) + [at])
    case Created(url, _, at) => Store(kept, url, Unclaimed(Entries(kept, url), at - window))
  }

  /** What follows the pruning: whether the event is suppressed as a duplicate. */
  predicate Duplicate(kept: Table, window: int, e: Event) {
    e.Created? && Claimable(Entries(kept, e.url), e.at - window)
  }

  /** What the controller does on one event. */
  function Step(table: Table, window: int, e: Event): Table {
    Updated(Pruned(table, e.pruned - window), window, e)
  }

  function After(window: int, events: seq<Event>): Table {
    if events == [] then map[] else Step(After(window, events[..|events| - 1]), window, events[|events| - 1])
  }

  /** Whether the n-th event was suppressed. */
  predicate Suppressed(window: int, events: seq<Event>, n: nat)
    requires n < |events|
  {
    Duplicate(Pruned(After(window, events[..n]), events[n].pruned - window), window, events[n])
  }

  // ---------------------------------------------------------------- a controller that forgets nothing

  /** Removing the first entry inside the window, if any; entries outside it stay for ever. */
  function Take(entries: seq<int>, cutoff: int): seq<int> {
    if entries == [] then []
    else if entries[0] >= cutoff then entries[1..]
    else [entries[0]] + Take(entries[1..], cutoff)
  }

  predicate InWindow(entries: seq<int>, cutoff: int) {
    exists t :: t in entries && t >= cutoff
  }

  function KeepAllStep(table: Table, window: int, e: Event): Table {
    match e
    case Intercepted(url, _, at) => Store(table, url, Entries(table, url) + [at])
    case Created(url, _, at) => Store(table, url, Take(Entries(table, url), at - window))
  }

  function KeepAll(window: int, events: seq<Event>): Table {
    if events == [] then map[] else KeepAllStep(KeepAll(window, events[..|events| - 1]), window, events[|events| - 1])
  }

  predicate KeepAllSuppressed(window: int, events: seq<Event>, n: nat)
    requires n < |events|
  {
    events[n].Created? && InWindow(Entries(KeepAll(window, events[..n]), events[n].url), events[n].at - window)
  }

  lemma {:induction false} LiveAppend(a: seq<int>, b: seq<int>, cutoff: int)
    ensures Live(a + b, cutoff) == Live(a, cutoff) + Live(b, cutoff)
  {
    if a == [] {
      assert a + b == b;
    } else {
      LiveAppend(a[1..], b, cutoff);
      assert (a + b)[1..] == a[1..] + b;
    }
  }

  lemma {:induction false} LiveTwice(a: seq<int>, c: int, d: int)
    requires c <= d
    ensures Live(Live(a, c), d) == Live(a, d)
  {
    if a != [] {
      LiveTwice(a[1..], c, d);
    }
  }

  lemma {:induction false} LiveOfTake(a: seq<int>, c: int)
    ensures Live(Take(a, c), c) == if Live(a, c) == [] then [] else Live(a, c)[1..]
  {
    if a != [] {
      if a[0] < c { LiveOfTake(a[1..], c); }
    }
  }

  /** From the cutoff on, the two lists cannot be told apart. */
  ghost predicate Alike(a: seq<int>, b: seq<int>, cutoff: int) {
    forall c :: c >= cutoff ==> Live(a, c) == Live(b, c)
  }

  ghost predicate SameSince(a: Table, b: Table, cutoff: int) {
    forall u :: Alike(Entries(a, u), Entries(b, u), cutoff)
  }

  lemma PruneUnseen(a: Table, b: Table, cutoff: int, since: int)
    requires SameSince(a, b, since) && since <= cutoff
    ensures SameSince(Pruned(a, cutoff), b, cutoff)
  {
    forall u ensures Alike(Entries(Pruned(a, cutoff), u), Entries(b, u), cutoff) {
      assert Alike(Entries(a, u), Entries(b, u), since);
      forall c | c >= cutoff ensures Live(Live(Entries(a, u), cutoff), c) == Live(Entries(b, u), c) {
        LiveTwice(Entries(a, u), cutoff, c);
      }
    }
  }

  lemma RememberUnseen(a: seq<int>, b: seq<int>, cutoff: int, at: int)
    requires Alike(a, b, cutoff)
    ensures Alike(a + [at], b + [at], cutoff)
  {
    forall c | c >= cutoff ensures Live(a + [at], c) == Live(b + [at], c) {
      LiveAppend(a, [at], c);
      LiveAppend(b, [at], c);
    }
  }

  lemma ClaimableWhen(entries: seq<int>, cutoff: int)
    ensures Claimable(entries, cutoff) <==> InWindow(entries, cutoff)
  {
    LiveMembers(entries, cutoff);
    var live := Live(entries, cutoff);
    if live != [] {
      assert live[0] in live;
      assert live[0] in entries && live[0] >= cutoff;
    }
  }

  lemma ClaimUnseen(a: seq<int>, b: seq<int>, cutoff: int)
    requires Alike(a, b, cutoff)
    ensures Alike(Unclaimed(a, cutoff), Take(b, cutoff), cutoff)
    ensures Claimable(a, cutoff) <==> InWindow(b, cutoff)
  {
    assert Live(a, cutoff) == Live(b, cutoff);
    LiveOfTake(b, cutoff);
    forall c | c >= cutoff ensures Live(Unclaimed(a, cutoff), c) == Live(Take(b, cutoff), c) {
      LiveTwice(Take(b, cutoff), cutoff, c);
    }
    ClaimableWhen(b, cutoff);
  }

  lemma StoreUnseen(a: Table, b: Table, url: string, x: seq<int>, y: seq<int>, cutoff: int)
    requires SameSince(a, b, cutoff) && Alike(x, y, cutoff)
    ensures SameSince(Store(a, url, x), Store(b, url, y), cutoff)
  {
    forall u ensures Alike(Entries(Store(a, url, x), u), Entries(Store(b, url, y), u), cutoff) {
      assert Alike(Entries(a, u), Entries(b, u), cutoff);
    }
  }

  lemma UpdateUnseen(kept: Table, b: Table, window: int, e: Event)
    requires SameSince(kept, b, e.at - window)
    ensures SameSince(Updated(kept, window, e), KeepAllStep(b, window, e), e.at - window)
  {
    var cutoff := e.at - window;
    var x, y := Entries(kept, e.url), Entries(b, e.url);
    assert Alike(x, y, cutoff);
    match e
    case Intercepted(url, _, at) =>
      RememberUnseen(x, y, cutoff, at);
      StoreUnseen(kept, b, url, x + [at], y + [at], cutoff);
    case Created(url, _, at) =>
      ClaimUnseen(x, y, cutoff);
      StoreUnseen(kept, b, url, Unclaimed(x, cutoff), Take(y, cutoff), cutoff);
  }

  lemma LaterUnseen(a: Table, b: Table, since: int, cutoff: int)
    requires SameSince(a, b, since) && since <= cutoff
    ensures SameSince(a, b, cutoff)
  {
    forall u ensures Alike(Entries(a, u), Entries(b, u), cutoff) {
      assert Alike(Entries(a, u), Entries(b, u), since);
    }
  }

  lemma StepUnseen(a: Table, b: Table, window: int, e: Event, since: int)
    requires SameSince(a, b, since) && since <= e.pruned - window && e.pruned <= e.at
    ensures SameSince(Step(a, window, e), KeepAllStep(b, window, e), e.at - window)
  {
    var kept := Pruned(a, e.pruned - window);
    PruneUnseen(a, b, e.pruned - window, since);
    LaterUnseen(kept, b, e.pruned - window, e.at - window);
    UpdateUnseen(kept, b, window, e);
  }

  lemma {:induction false} TablesUnseen(window: int, events: seq<Event>, since: int)
    requires Monotone(events) && (events != [] ==> events[|events| - 1].at - window <= since)
    ensures SameSince(After(window, events), KeepAll(window, events), since)
    decreases |events|
  {
    if events != [] {
      var last := |events| - 1;
      var a, b, e := After(window, events[..last]), KeepAll(window, events[..last]), events[last];
      TablesUnseen(window, events[..last], e.pruned - window);
      StepUnseen(a, b, window, e, e.pruned - window);
      LaterUnseen(Step(a, window, e), KeepAllStep(b, window, e), e.at - window, since);
    }
  }

  /** Pruning is invisible: with a monotone clock every event gets the answer a controller that keeps every
      interception for ever would give. */
  lemma PruningIsInvisible(window: int, events: seq<Event>, n: nat)
    requires Monotone(events) && n < |events|
    ensures Suppressed(window, events, n) <==> KeepAllSuppressed(window, events, n)
  {
    var a, b, e := After(window, events[..n]), KeepAll(window, events[..n]), events[n];
    var kept := Pruned(a, e.pruned - window);
    TablesUnseen(window, events[..n], e.pruned - window);
    PruneUnseen(a, b, e.pruned - window, e.pruned - window);
    LaterUnseen(kept, b, e.pruned - window, e.at - window);
    assert Alike(Entries(kept, e.url), Entries(b, e.url), e.at - window);
    ClaimUnseen(Entries(kept, e.url), Entries(b, e.url), e.at - window);
  }
}
