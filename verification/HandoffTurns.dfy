/** The browser handoff controller as the event loop runs it: calls wait for the native host, for a cancel or for an
    erase, and other calls take turns in between. Every acceptance gets a number; every interception remembered carries
    the number of its acceptance, and every cancelled browser download records the acceptance that pays for it. */
module HandoffTurns {
  import opened Basics

  datatype Entry = Entry(at: int, payer: nat)

  type Book = map<string, seq<Entry>>

  datatype AttemptState =
    | Created | BrowserPreserved | Accepted | Cancelled | AcceptedBrowserPreserved | AcceptedEraseFailed | Completed

  datatype Stage = Cancelling | Erasing | Done(preserved: bool)

  /** A call of interceptFirefox or handleCreated, and how far it has come. */
  datatype Call =
    | Intercepting(url: string)
    | Intercepted(url: string, success: bool)
    | Ignored
    | Deduplicating(url: string, item: int, stage: Stage)
    | Attempt(url: string, item: int, state: AttemptState)

  /** A success reported by the native host, and the call it was reported to. */
  datatype Acceptance = Acceptance(url: string, call: nat)

  /** adapter.cancel(item), made by a call and paid for by an acceptance. */
  datatype Cancellation = Cancellation(call: nat, url: string, item: int, payer: nat)

  datatype State = State(
    book: Book,
    calls: map<nat, Call>,
    accepted: seq<Acceptance>,
    cancels: seq<Cancellation>,
    expired: set<nat>)

  const INITIAL := State(map[], map[], [], [], {})

  /** One turn of the event loop. */
  datatype Turn =
    | InterceptFirefox(call: nat, url: string)
    | InterceptAnswered(call: nat, success: bool, pruned: int, at: int)
    | HandleCreated(call: nat, url: string, item: int, http: bool, pruned: int, at: int)
    | Answered(call: nat, success: bool)
    | CancelReturned(call: nat, ok: bool)
    | EraseReturned(call: nat, ok: bool)

  function At(book: Book, url: string): seq<Entry> {
    if url in book then book[url] else []
  }

  function Put(book: Book, url: string, entries: seq<Entry>): (r: Book)
    ensures At(r, url) == entries && forall u :: u != url ==> At(r, u) == At(book, u)
  {
    if entries == [] then book - {url} else book[url := entries]
  }

  function LiveEntries(entries: seq<Entry>, cutoff: int): seq<Entry> {
    if entries == [] then []
    else if entries[0].at >= cutoff then [entries[0]] + LiveEntries(entries[1..], cutoff)
    else LiveEntries(entries[1..], cutoff)
  }

  function Aged(entries: seq<Entry>, cutoff: int): set<nat> {
    set e | e in entries && e.at < cutoff :: e.payer
  }

  function AllAged(book: Book, cutoff: int): set<nat> {
    set u, e | u in book && e in book[u] && e.at < cutoff :: e.payer
  }

  /** prune. */
  function Prune(s: State, cutoff: int): State {
    s.(book := map u | u in s.book && LiveEntries(s.book[u], cutoff) != [] :: LiveEntries(s.book[u], cutoff),
       expired := s.expired + AllAged(s.book, cutoff))
  }

  /** The filter at the start of claimIntercept. */
  function Filter(s: State, url: string, cutoff: int): State {
    s.(book := Put(s.book, url, LiveEntries(At(s.book, url), cutoff)),
       expired := s.expired + Aged(At(s.book, url), cutoff))
  }

  /** prune, and then the filter for one URL by a later clock reading. */
  function Forget(s: State, url: string, cutoff: int, later: int): State {
    Filter(Prune(s, cutoff), url, later)
  }

  function SetCall(s: State, call: nat, c: Call): State {
    s.(calls := s.calls[call := c])
  }

  /** An interception accepted by the native host is remembered. */
  function Remember(s: State, call: nat, url: string, at: int): State {
    s.(book := Put(s.book, url, At(s.book, url) + [Entry(at, |s.accepted|)]),
       accepted := s.accepted + [Acceptance(url, call)],
       calls := s.calls[call := Intercepted(url, true)])
  }

  /** The shift in claimIntercept, and the cancel it leads to in the same turn. */
  function Claim(s: State, call: nat, url: string, item: int): State
    requires At(s.book, url) != []
  {
    s.(book := Put(s.book, url, At(s.book, url)[1..]),
       cancels := s.cancels + [Cancellation(call, url, item, At(s.book, url)[0].payer)],
       calls := s.calls[call := Deduplicating(url, item, Cancelling)])
  }

  /** handleCreated once the aged entries are gone: claim the oldest interception, or start an attempt of its own. */
  function Decide(s: State, call: nat, url: string, item: int): State {
    if At(s.book, url) != [] then Claim(s, call, url, item) else SetCall(s, call, Attempt(url, item, Created))
  }

  /** The native host accepts the download itself, and the cancel follows in the same turn. */
  function Accept(s: State, call: nat, url: string, item: int): State {
    s.(accepted := s.accepted + [Acceptance(url, call)],
       cancels := s.cancels + [Cancellation(call, url, item, |s.accepted|)],
       calls := s.calls[call := Attempt(url, item, Accepted)])
  }

  predicate Waiting(s: State, call: nat, state: AttemptState) {
    call in s.calls && s.calls[call].Attempt? && s.calls[call].state == state
  }

  predicate WaitingDuplicate(s: State, call: nat, stage: Stage) {
    call in s.calls && s.calls[call].Deduplicating? && s.calls[call].stage == stage
  }

  predicate Enabled(s: State, t: Turn) {
    match t
    case InterceptFirefox(call, _) => call !in s.calls
    case InterceptAnswered(call, _, _, _) => call in s.calls && s.calls[call].Intercepting?
    case HandleCreated(call, _, _, _, _, _) => call !in s.calls
    case Answered(call, _) => Waiting(s, call, Created)
    case CancelReturned(call, _) => Waiting(s, call, Accepted) || WaitingDuplicate(s, call, Cancelling)
    case EraseReturned(call, _) => Waiting(s, call, Cancelled) || WaitingDuplicate(s, call, Erasing)
  }

  function Next(s: State, window: int, t: Turn): State
    requires Enabled(s, t)
  {
    match t
    case InterceptFirefox(call, url) => SetCall(s, call, Intercepting(url))
    case InterceptAnswered(call, success, pruned, at) =>
      var url := s.calls[call].url;
      if success then Remember(Prune(s, pruned - window), call, url, at)
      else SetCall(s, call, Intercepted(url, false))
    case HandleCreated(call, url, item, http, pruned, at) =>
      if !http then SetCall(s, call, Ignored)
      else
        Decide(Forget(s, url, pruned - window, at - window), call, url, item)
    case Answered(call, success) =>
      var c := s.calls[call];
      if success then Accept(s, call, c.url, c.item)
      else SetCall(s, call, c.(state := BrowserPreserved))
    case CancelReturned(call, ok) =>
      var c := s.calls[call];
      if c.Attempt? then SetCall(s, call, c.(state := if ok then Cancelled else AcceptedBrowserPreserved))
      else SetCall(s, call, c.(stage := if ok then Erasing else Done(true)))
    case EraseReturned(call, ok) =>
      var c := s.calls[call];
      if c.Attempt? then SetCall(s, call, c.(state := if ok then Completed else AcceptedEraseFailed))
      else SetCall(s, call, c.(stage := Done(!ok)))
  }

  /** From the controller's creation, these turns can happen in this order. */
  predicate Runs(window: int, turns: seq<Turn>)
    decreases |turns|, 0
  {
    turns == []
    || (Runs(window, turns[..|turns| - 1]) && Enabled(After(window, turns[..|turns| - 1]), turns[|turns| - 1]))
  }

  function After(window: int, turns: seq<Turn>): State
    requires Runs(window, turns)
    decreases |turns|, 1
  {
    if turns == [] then INITIAL else Next(After(window, turns[..|turns| - 1]), window, turns[|turns| - 1])
  }

  // ---------------------------------------------------------------- the invariant

  /** The acceptance answered an interception. */
  predicate ByInterception(s: State, k: nat) {
    k < |s.accepted| && s.accepted[k].call in s.calls && s.calls[s.accepted[k].call].Intercepted?
  }

  predicate DistinctPayers(entries: seq<Entry>) {
    forall i, j :: 0 <= i < j < |entries| ==> entries[i].payer != entries[j].payer
  }

  /** Acceptance k is remembered and not yet claimed. */
  ghost predicate Remembered(s: State, k: nat) {
    k < |s.accepted| && exists e :: e in At(s.book, s.accepted[k].url) && e.payer == k
  }

  ghost predicate Spent(s: State, k: nat) {
    exists c :: 0 <= c < |s.cancels| && s.cancels[c].payer == k
  }

  ghost predicate EntryKept(s: State, url: string, e: Entry) {
    ByInterception(s, e.payer) && s.accepted[e.payer].url == url && !Spent(s, e.payer) && e.payer !in s.expired
  }

  /** A URL's entries stand for different acceptances of it, neither spent nor expired. */
  ghost predicate UrlKept(s: State, url: string) {
    && DistinctPayers(At(s.book, url))
    && forall e :: e in At(s.book, url) ==> EntryKept(s, url, e)
  }

  ghost predicate ExpiredKept(s: State, k: nat) {
    k in s.expired ==> ByInterception(s, k) && !Spent(s, k)
  }

  /** Each cancellation is paid for by an acceptance of its URL: its own, or an interception's if the call found a
      duplicate. */
  predicate Paid(s: State, c: Cancellation) {
    && c.payer < |s.accepted| && s.accepted[c.payer].url == c.url
    && c.call in s.calls
    && match s.calls[c.call]
       case Deduplicating(url, item, _) => c.url == url && c.item == item && ByInterception(s, c.payer)
       case Attempt(url, item, state) =>
         c.url == url && c.item == item && state !in {Created, BrowserPreserved} && s.accepted[c.payer].call == c.call
       case _ => false
  }

  predicate PaidAt(s: State, c: nat) {
    c < |s.cancels| ==> Paid(s, s.cancels[c])
  }

  ghost predicate CancelsDiffer(s: State) {
    forall c, d :: 0 <= c < d < |s.cancels| ==>
      s.cancels[c].payer != s.cancels[d].payer && s.cancels[c].call != s.cancels[d].call
  }

  /** No acceptance is lost. */
  ghost predicate Accounted(s: State, k: nat) {
    k < |s.accepted| ==> Remembered(s, k) || k in s.expired || Spent(s, k)
  }

  ghost predicate Inv(s: State) {
    && (forall url :: UrlKept(s, url))
    && (forall k :: ExpiredKept(s, k))
    && (forall c :: PaidAt(s, c))
    && CancelsDiffer(s)
    && forall k :: Accounted(s, k)
  }

  // ---------------------------------------------------------------- every turn keeps it

  lemma {:induction false} LiveMembers(entries: seq<Entry>, cutoff: int)
    ensures forall e :: e in LiveEntries(entries, cutoff) <==> e in entries && e.at >= cutoff
  {
    if entries != [] {
      LiveMembers(entries[1..], cutoff);
      assert entries == [entries[0]] + entries[1..];
    }
  }

  lemma {:induction false} LiveDistinct(entries: seq<Entry>, cutoff: int)
    requires DistinctPayers(entries)
    ensures DistinctPayers(LiveEntries(entries, cutoff))
  {
    if entries != [] {
      var rest := LiveEntries(entries[1..], cutoff);
      LiveDistinct(entries[1..], cutoff);
      LiveMembers(entries[1..], cutoff);
      forall j | 0 <= j < |rest| ensures rest[j].payer != entries[0].payer {
        assert rest[j] in entries[1..];
      }
    }
  }

  lemma SamePayer(entries: seq<Entry>, e: Entry, f: Entry)
    requires DistinctPayers(entries) && e in entries && f in entries && e.payer == f.payer
    ensures e == f
  {
  }

  /** More acceptances, more cancels, and calls of interceptFirefox still answered. */
  ghost predicate Grows(s: State, r: State) {
    && s.accepted <= r.accepted && s.cancels <= r.cancels
    && forall c :: c in s.calls && s.calls[c].Intercepted? ==> c in r.calls && r.calls[c].Intercepted?
  }

  lemma GrowsKeeps(s: State, r: State)
    requires Grows(s, r)
    ensures forall k: nat :: ByInterception(s, k) ==> ByInterception(r, k) && s.accepted[k] == r.accepted[k]
    ensures forall k :: Spent(s, k) ==> Spent(r, k)
  {
    forall k | Spent(s, k) ensures Spent(r, k) {
      var c :| 0 <= c < |s.cancels| && s.cancels[c].payer == k;
      assert r.cancels[c].payer == k;
    }
  }

  /** A payment stays good as long as its call is the same, or moves on the way calls do. */
  lemma PaidStays(s: State, r: State, c: Cancellation)
    requires Grows(s, r) && Paid(s, c)
    requires c.call in r.calls && (r.calls[c.call] == s.calls[c.call] || Moves(s.calls[c.call], r.calls[c.call]))
    ensures Paid(r, c)
  {
    GrowsKeeps(s, r);
  }

  /** A call moves on without a new acceptance or cancel. */
  predicate Moves(before: Call, after: Call) {
    match before
    case Intercepting(_) => after.Intercepted?
    case Deduplicating(url, item, _) => after.Deduplicating? && after.url == url && after.item == item
    case Attempt(url, item, state) =>
      after.Attempt? && after.url == url && after.item == item
      && (state == Created || after.state !in {Created, BrowserPreserved})
    case _ => false
  }

  /** Dropping the aged entries of some URLs and writing their payers off as expired. */
  ghost predicate Forgets(s: State, r: State, aged: set<nat>, cutoff: int) {
    && r == s.(book := r.book, expired := s.expired + aged)
    && (forall u :: At(r.book, u) == At(s.book, u) || At(r.book, u) == LiveEntries(At(s.book, u), cutoff))
    && (forall k :: k in aged ==> exists u, e :: e in At(s.book, u) && e.payer == k && e !in At(r.book, u))
    && forall u, e :: e in At(s.book, u) && e !in At(r.book, u) ==> e.payer in aged
  }

  lemma ForgetKeepsUrl(s: State, r: State, aged: set<nat>, cutoff: int, url: string)
    requires Inv(s) && Forgets(s, r, aged, cutoff)
    ensures UrlKept(r, url)
  {
    assert UrlKept(s, url);
    LiveDistinct(At(s.book, url), cutoff);
    LiveMembers(At(s.book, url), cutoff);
    forall e | e in At(r.book, url) ensures EntryKept(r, url, e) {
      assert EntryKept(s, url, e);
      if e.payer in aged {
        var v, f :| f in At(s.book, v) && f.payer == e.payer && f !in At(r.book, v);
        assert UrlKept(s, v) && EntryKept(s, v, f);
        SamePayer(At(s.book, url), e, f);
        assert false;
      }
    }
  }

  lemma ForgetKeeps(s: State, r: State, aged: set<nat>, cutoff: int)
    requires Inv(s) && Forgets(s, r, aged, cutoff)
    ensures Inv(r)
  {
    forall url ensures UrlKept(r, url) { ForgetKeepsUrl(s, r, aged, cutoff, url); }
    forall c: nat ensures PaidAt(r, c) { assert PaidAt(s, c); }
    forall k: nat ensures ExpiredKept(r, k) {
      assert ExpiredKept(s, k);
      if k in aged {
        var u, e :| e in At(s.book, u) && e.payer == k && e !in At(r.book, u);
        assert UrlKept(s, u) && EntryKept(s, u, e);
      }
    }
    forall k: nat ensures Accounted(r, k) {
      assert Accounted(s, k);
      if Remembered(s, k) {
        var e :| e in At(s.book, s.accepted[k].url) && e.payer == k;
        assert e in At(r.book, s.accepted[k].url) || k in aged;
      }
    }
  }

  lemma PruneKeeps(s: State, cutoff: int)
    requires Inv(s)
    ensures Inv(Prune(s, cutoff))
  {
    var r := Prune(s, cutoff);
    forall u ensures At(r.book, u) == LiveEntries(At(s.book, u), cutoff)
                     && forall e :: e in At(r.book, u) <==> e in At(s.book, u) && e.at >= cutoff {
      LiveMembers(At(s.book, u), cutoff);
    }
    forall k | k in AllAged(s.book, cutoff)
      ensures exists u, e :: e in At(s.book, u) && e.payer == k && e !in At(r.book, u)
    {
      var u, e :| u in s.book && e in s.book[u] && e.at < cutoff && e.payer == k;
      assert e in At(s.book, u) && e !in At(r.book, u);
    }
    ForgetKeeps(s, r, AllAged(s.book, cutoff), cutoff);
  }

  lemma FilterKeeps(s: State, url: string, cutoff: int)
    requires Inv(s)
    ensures Inv(Filter(s, url, cutoff))
  {
    LiveMembers(At(s.book, url), cutoff);
    ForgetKeeps(s, Filter(s, url, cutoff), Aged(At(s.book, url), cutoff), cutoff);
  }

  lemma SetCallKeeps(s: State, call: nat, c: Call)
    requires Inv(s) && (call !in s.calls || Moves(s.calls[call], c))
    ensures Inv(SetCall(s, call, c))
  {
    var r := SetCall(s, call, c);
    GrowsKeeps(s, r);
    forall k ensures Spent(r, k) <==> Spent(s, k) {}
    forall url ensures UrlKept(r, url) {
      assert UrlKept(s, url);
      forall e | e in At(r.book, url) ensures EntryKept(r, url, e) { assert EntryKept(s, url, e); }
    }
    forall k: nat ensures ExpiredKept(r, k) { assert ExpiredKept(s, k); }
    forall i: nat ensures PaidAt(r, i) {
      assert PaidAt(s, i);
      if i < |s.cancels| { PaidStays(s, r, s.cancels[i]); }
    }
    forall k: nat ensures Accounted(r, k) {
      assert Accounted(s, k);
      assert Remembered(s, k) ==> Remembered(r, k);
    }
  }

  lemma UnspentNumber(s: State)
    requires Inv(s)
    ensures !Spent(s, |s.accepted|)
  {
    forall c | 0 <= c < |s.cancels| ensures s.cancels[c].payer != |s.accepted| { assert PaidAt(s, c); }
  }

  lemma RememberKeepsUrl(s: State, call: nat, at: int, url: string)
    requires Inv(s) && call in s.calls && s.calls[call].Intercepting?
    ensures UrlKept(Remember(s, call, s.calls[call].url, at), url)
  {
    var r, n := Remember(s, call, s.calls[call].url, at), |s.accepted|;
    assert UrlKept(s, url);
    assert ExpiredKept(s, n);
    GrowsKeeps(s, r);
    UnspentNumber(s);
    forall e | e in At(s.book, url) ensures e.payer < n && EntryKept(r, url, e) { assert EntryKept(s, url, e); }
    forall e | e in At(r.book, url) ensures EntryKept(r, url, e) {
      assert e in At(s.book, url) || e == Entry(at, n);
    }
    forall i | 0 <= i < |At(s.book, url)| ensures At(s.book, url)[i].payer < n {
      assert At(s.book, url)[i] in At(s.book, url);
    }
  }

  lemma RememberKeeps(s: State, call: nat, at: int)
    requires Inv(s) && call in s.calls && s.calls[call].Intercepting?
    ensures Inv(Remember(s, call, s.calls[call].url, at))
  {
    var url := s.calls[call].url;
    var r := Remember(s, call, url, at);
    GrowsKeeps(s, r);
    forall u ensures UrlKept(r, u) { RememberKeepsUrl(s, call, at, u); }
    forall k: nat ensures ExpiredKept(r, k) { assert ExpiredKept(s, k); }
    forall i: nat ensures PaidAt(r, i) {
      assert PaidAt(s, i);
      if i < |s.cancels| { PaidStays(s, r, s.cancels[i]); }
    }
    assert Entry(at, |s.accepted|) in At(r.book, url);
    forall k: nat ensures Accounted(r, k) {
      assert Accounted(s, k);
      if k < |s.accepted| && Remembered(s, k) {
        var e :| e in At(s.book, s.accepted[k].url) && e.payer == k;
        assert e in At(r.book, s.accepted[k].url);
      }
    }
  }

  lemma ClaimSpends(s: State, call: nat, url: string, item: int, k: nat)
    requires At(s.book, url) != []
    ensures Spent(Claim(s, call, url, item), k) <==> Spent(s, k) || k == At(s.book, url)[0].payer
  {
    var r := Claim(s, call, url, item);
    assert r.cancels[|s.cancels|].payer == At(s.book, url)[0].payer;
    if Spent(s, k) {
      var c :| 0 <= c < |s.cancels| && s.cancels[c].payer == k;
      assert r.cancels[c].payer == k;
    }
  }

  lemma ClaimKeepsUrl(s: State, call: nat, url: string, item: int, u: string)
    requires Inv(s) && call !in s.calls && At(s.book, url) != []
    ensures UrlKept(Claim(s, call, url, item), u)
  {
    var r, old_, first := Claim(s, call, url, item), At(s.book, u), At(s.book, url)[0];
    assert UrlKept(s, u) && UrlKept(s, url);
    assert first in At(s.book, url) && EntryKept(s, url, first);
    GrowsKeeps(s, r);
    forall e | e in At(r.book, u) ensures EntryKept(r, u, e) {
      assert e in old_ && EntryKept(s, u, e);
      if u == url {
        var j :| 0 <= j < |At(r.book, url)| && At(r.book, url)[j] == e;
        assert old_[j + 1] == e && old_[0] == first;
      }
      ClaimSpends(s, call, url, item, e.payer);
    }
  }

  lemma ClaimKeepsCancels(s: State, call: nat, url: string, item: int)
    requires Inv(s) && call !in s.calls && At(s.book, url) != []
    ensures var r := Claim(s, call, url, item); CancelsDiffer(r) && forall c: nat :: PaidAt(r, c)
  {
    var r, first := Claim(s, call, url, item), At(s.book, url)[0];
    assert UrlKept(s, url);
    assert first in At(s.book, url) && EntryKept(s, url, first);
    GrowsKeeps(s, r);
    forall i | 0 <= i < |s.cancels|
      ensures PaidAt(r, i) && s.cancels[i].call != call && s.cancels[i].payer != first.payer
    {
      assert PaidAt(s, i);
      PaidStays(s, r, s.cancels[i]);
    }
    assert PaidAt(r, |s.cancels|);
  }

  lemma ClaimKeepsNumbers(s: State, call: nat, url: string, item: int, k: nat)
    requires Inv(s) && call !in s.calls && At(s.book, url) != []
    ensures var r := Claim(s, call, url, item); ExpiredKept(r, k) && Accounted(r, k)
  {
    var r, first := Claim(s, call, url, item), At(s.book, url)[0];
    assert ExpiredKept(s, k) && Accounted(s, k) && UrlKept(s, url);
    assert first in At(s.book, url) && EntryKept(s, url, first);
    GrowsKeeps(s, r);
    ClaimSpends(s, call, url, item, k);
    if k < |s.accepted| && Remembered(s, k) && k != first.payer {
      var e :| e in At(s.book, s.accepted[k].url) && e.payer == k;
      assert At(s.book, url) == [first] + At(r.book, url);
      assert e in At(r.book, s.accepted[k].url);
    }
  }

  lemma ClaimKeeps(s: State, call: nat, url: string, item: int)
    requires Inv(s) && call !in s.calls && At(s.book, url) != []
    ensures Inv(Claim(s, call, url, item))
  {
    var r := Claim(s, call, url, item);
    ClaimKeepsCancels(s, call, url, item);
    forall u ensures UrlKept(r, u) { ClaimKeepsUrl(s, call, url, item, u); }
    forall k: nat ensures ExpiredKept(r, k) && Accounted(r, k) { ClaimKeepsNumbers(s, call, url, item, k); }
  }

  lemma AcceptSpends(s: State, call: nat, url: string, item: int, k: nat)
    ensures Spent(Accept(s, call, url, item), k) <==> Spent(s, k) || k == |s.accepted|
  {
    var r := Accept(s, call, url, item);
    assert r.cancels[|s.cancels|].payer == |s.accepted|;
    if Spent(s, k) {
      var c :| 0 <= c < |s.cancels| && s.cancels[c].payer == k;
      assert r.cancels[c].payer == k;
    }
  }

  lemma AcceptKeepsCancels(s: State, call: nat)
    requires Inv(s) && Waiting(s, call, Created)
    ensures var r := Accept(s, call, s.calls[call].url, s.calls[call].item);
      CancelsDiffer(r) && forall c: nat :: PaidAt(r, c)
  {
    var r := Accept(s, call, s.calls[call].url, s.calls[call].item);
    forall i | 0 <= i < |s.cancels|
      ensures PaidAt(r, i) && s.cancels[i].call != call && s.cancels[i].payer != |s.accepted|
    {
      assert PaidAt(s, i);
      PaidStays(s, r, s.cancels[i]);
    }
    assert PaidAt(r, |s.cancels|);
  }

  lemma AcceptKeeps(s: State, call: nat)
    requires Inv(s) && Waiting(s, call, Created)
    ensures Inv(Accept(s, call, s.calls[call].url, s.calls[call].item))
  {
    var url, item := s.calls[call].url, s.calls[call].item;
    var r := Accept(s, call, url, item);
    GrowsKeeps(s, r);
    AcceptKeepsCancels(s, call);
    forall u ensures UrlKept(r, u) {
      assert UrlKept(s, u);
      forall e | e in At(r.book, u) ensures EntryKept(r, u, e) {
        assert EntryKept(s, u, e);
        AcceptSpends(s, call, url, item, e.payer);
      }
    }
    forall k: nat ensures ExpiredKept(r, k) && Accounted(r, k) {
      assert ExpiredKept(s, k) && Accounted(s, k);
      AcceptSpends(s, call, url, item, k);
    }
  }

  lemma DecideKeeps(s: State, call: nat, url: string, item: int)
    requires Inv(s) && call !in s.calls
    ensures Inv(Decide(s, call, url, item))
  {
    if At(s.book, url) != [] {
      ClaimKeeps(s, call, url, item);
    } else {
      SetCallKeeps(s, call, Attempt(url, item, Created));
    }
  }

  lemma BothForgetKeep(s: State, url: string, cutoff: int, later: int)
    requires Inv(s)
    ensures Inv(Forget(s, url, cutoff, later)) && Forget(s, url, cutoff, later).calls == s.calls
  {
    PruneKeeps(s, cutoff);
    FilterKeeps(Prune(s, cutoff), url, later);
  }

  /** Stated of any state the turn may lead to. */
  lemma HandleHttpKeeps(s: State, call: nat, url: string, item: int, cutoff: int, later: int, f: State, r: State)
    requires Inv(s) && call !in s.calls
    requires f == Forget(s, url, cutoff, later) && r == Decide(f, call, url, item)
    ensures Inv(r)
  {
    BothForgetKeep(s, url, cutoff, later);
    DecideKeeps(f, call, url, item);
  }

  lemma HandleCreatedKeeps(s: State, window: int, t: Turn)
    requires Inv(s) && t.HandleCreated? && t.http && Enabled(s, t)
    ensures Inv(Next(s, window, t))
  {
    HandleHttpKeeps(s, t.call, t.url, t.item, t.pruned - window, t.at - window,
                    Forget(s, t.url, t.pruned - window, t.at - window), Next(s, window, t));
  }

  lemma InterceptionKeeps(s: State, window: int, t: Turn)
    requires Inv(s) && (t.InterceptFirefox? || t.InterceptAnswered?) && Enabled(s, t)
    ensures Inv(Next(s, window, t))
  {
    match t
    case InterceptFirefox(call, url) => SetCallKeeps(s, call, Intercepting(url));
    case InterceptAnswered(call, success, pruned, at) =>
      if success {
        PruneKeeps(s, pruned - window);
        RememberKeeps(Prune(s, pruned - window), call, at);
      } else {
        SetCallKeeps(s, call, Intercepted(s.calls[call].url, false));
      }
  }

  lemma AnsweredKeeps(s: State, window: int, t: Turn)
    requires Inv(s) && t.Answered? && Enabled(s, t)
    ensures Inv(Next(s, window, t))
  {
    if t.success {
      AcceptKeeps(s, t.call);
    } else {
      SetCallKeeps(s, t.call, s.calls[t.call].(state := BrowserPreserved));
    }
  }

  lemma ReturnedKeeps(s: State, window: int, t: Turn)
    requires Inv(s) && (t.CancelReturned? || t.EraseReturned?) && Enabled(s, t)
    ensures Inv(Next(s, window, t))
  {
    var c := Next(s, window, t).calls[t.call];
    assert Next(s, window, t) == SetCall(s, t.call, c);
    SetCallKeeps(s, t.call, c);
  }

  lemma NextKeeps(s: State, window: int, t: Turn)
    requires Inv(s) && Enabled(s, t)
    ensures Inv(Next(s, window, t))
  {
    match t
    case InterceptFirefox(_, _) => InterceptionKeeps(s, window, t);
    case InterceptAnswered(_, _, _, _) => InterceptionKeeps(s, window, t);
    case HandleCreated(call, _, _, http, _, _) =>
      if http { HandleCreatedKeeps(s, window, t); } else { SetCallKeeps(s, call, Ignored); }
    case Answered(_, _) => AnsweredKeeps(s, window, t);
    case CancelReturned(_, _) => ReturnedKeeps(s, window, t);
    case EraseReturned(_, _) => ReturnedKeeps(s, window, t);
  }

  lemma {:induction false} RunsKeep(window: int, turns: seq<Turn>)
    requires Runs(window, turns)
    ensures Inv(After(window, turns))
  {
    if turns != [] {
      RunsKeep(window, turns[..|turns| - 1]);
      NextKeeps(After(window, turns[..|turns| - 1]), window, turns[|turns| - 1]);
    }
  }

  // ---------------------------------------------------------------- what follows in every run

  ghost predicate Reachable(s: State, window: int) {
    exists turns :: Runs(window, turns) && After(window, turns) == s
  }

  lemma ReachableInv(s: State, window: int)
    requires Reachable(s, window)
    ensures Inv(s)
  {
    var turns :| Runs(window, turns) && After(window, turns) == s;
    RunsKeep(window, turns);
  }

  /** Over all interleavings: every cancelled browser download is paid for by an acceptance of its URL, no acceptance
      pays twice, and no call cancels twice. */
  lemma EveryCancelIsPaidFor(s: State, window: int)
    requires Reachable(s, window)
    ensures forall c :: 0 <= c < |s.cancels| ==>
              s.cancels[c].payer < |s.accepted| && s.accepted[s.cancels[c].payer].url == s.cancels[c].url
    ensures forall c, d :: 0 <= c < d < |s.cancels| ==>
              s.cancels[c].payer != s.cancels[d].payer && s.cancels[c].call != s.cancels[d].call
  {
    ReachableInv(s, window);
    forall c | 0 <= c < |s.cancels| ensures Paid(s, s.cancels[c]) { assert PaidAt(s, c); }
  }

  /** A download the browser was left to finish because the native host did not take it was never cancelled. */
  lemma PreservedIsNotCancelled(s: State, window: int, c: nat)
    requires Reachable(s, window) && c < |s.cancels| && s.cancels[c].call in s.calls
    ensures s.calls[s.cancels[c].call].Attempt?
        ==> s.calls[s.cancels[c].call].state !in {Created, BrowserPreserved}
    ensures s.calls[s.cancels[c].call].Attempt? || s.calls[s.cancels[c].call].Deduplicating?
  {
    ReachableInv(s, window);
    assert PaidAt(s, c);
  }

  /** Every acceptance has exactly one fate; a download's own acceptance always pays at once. */
  lemma ExactlyOneFate(s: State, window: int, k: nat)
    requires Reachable(s, window) && k < |s.accepted|
    ensures Remembered(s, k) || k in s.expired || Spent(s, k)
    ensures !(Remembered(s, k) && k in s.expired) && !(Remembered(s, k) && Spent(s, k))
    ensures !(k in s.expired && Spent(s, k))
    ensures !ByInterception(s, k) ==> Spent(s, k)
  {
    ReachableInv(s, window);
    assert Accounted(s, k);
    FatesDiffer(s, k);
  }

  lemma FatesDiffer(s: State, k: nat)
    requires Inv(s)
    ensures Remembered(s, k) ==> ByInterception(s, k) && !Spent(s, k) && k !in s.expired
    ensures k in s.expired ==> ByInterception(s, k) && !Spent(s, k)
  {
    assert ExpiredKept(s, k);
    if Remembered(s, k) {
      var url := s.accepted[k].url;
      var e :| e in At(s.book, url) && e.payer == k;
      assert UrlKept(s, url) && EntryKept(s, url, e);
    }
  }

  // ---------------------------------------------------------------- counting

  lemma {:induction false} ImageSize(a: set<nat>, f: nat -> nat)
    requires forall x, y :: x in a && y in a && f(x) == f(y) ==> x == y
    ensures |set x | x in a :: f(x)| == |a|
  {
    var image := set x | x in a :: f(x);
    if a == {} {
      assert image == {};
    } else {
      var x :| x in a;
      ImageSize(a - {x}, f);
      assert image == (set y | y in a - {x} :: f(y)) + {f(x)};
    }
  }

  function AcceptancesOf(s: State, url: string): set<nat> {
    set k | 0 <= k < |s.accepted| && s.accepted[k].url == url
  }

  function InterceptionsOf(s: State, url: string): set<nat> {
    set k | 0 <= k < |s.accepted| && s.accepted[k].url == url && ByInterception(s, k)
  }

  function CancelsOf(s: State, url: string): set<nat> {
    set c | 0 <= c < |s.cancels| && s.cancels[c].url == url
  }

  predicate FoundDuplicate(s: State, c: nat) {
    c < |s.cancels| && s.cancels[c].call in s.calls && s.calls[s.cancels[c].call].Deduplicating?
  }

  /** The cancels of claimIntercept's branch. */
  function ClaimsOf(s: State, url: string): set<nat> {
    set c | 0 <= c < |s.cancels| && s.cancels[c].url == url && FoundDuplicate(s, c)
  }

  function ExpiredOf(s: State, url: string): set<nat> {
    set k | k in s.expired && k < |s.accepted| && s.accepted[k].url == url
  }

  function PayerOf(s: State): nat -> nat {
    (c: nat) => if c < |s.cancels| then s.cancels[c].payer else 0
  }

  /** Never more cancelled downloads of a URL than the native host has accepted of it. */
  lemma CancelsAtMostAcceptances(s: State, window: int, url: string)
    requires Reachable(s, window)
    ensures |CancelsOf(s, url)| <= |AcceptancesOf(s, url)|
  {
    EveryCancelIsPaidFor(s, window);
    ImageSize(CancelsOf(s, url), PayerOf(s));
    SubsetSize(set c | c in CancelsOf(s, url) :: PayerOf(s)(c), AcceptancesOf(s, url));
  }

  lemma ClaimsPaidByInterceptions(s: State, url: string)
    requires Inv(s)
    ensures (set c | c in ClaimsOf(s, url) :: PayerOf(s)(c)) == set k | k in InterceptionsOf(s, url) && Spent(s, k)
  {
    var payers := set c | c in ClaimsOf(s, url) :: PayerOf(s)(c);
    forall k | k in payers ensures k in InterceptionsOf(s, url) && Spent(s, k) {
      var c :| c in ClaimsOf(s, url) && PayerOf(s)(c) == k;
      assert PaidAt(s, c);
    }
    forall k | k in InterceptionsOf(s, url) && Spent(s, k) ensures k in payers {
      var c :| 0 <= c < |s.cancels| && s.cancels[c].payer == k;
      assert PaidAt(s, c);
      assert c in ClaimsOf(s, url) && PayerOf(s)(c) == k;
    }
  }

  /** The acceptances remembered for a URL. */
  function PayersOf(entries: seq<Entry>): set<nat> {
    set e | e in entries :: e.payer
  }

  lemma {:induction false} PayersCount(entries: seq<Entry>)
    requires DistinctPayers(entries)
    ensures |PayersOf(entries)| == |entries|
  {
    if entries == [] {
      assert PayersOf(entries) == {};
    } else {
      PayersCount(entries[1..]);
      assert entries == [entries[0]] + entries[1..];
      assert PayersOf(entries) == PayersOf(entries[1..]) + {entries[0].payer};
      assert entries[0].payer !in PayersOf(entries[1..]);
    }
  }

  lemma EntriesCount(s: State, url: string)
    requires Inv(s)
    ensures |set k | k in InterceptionsOf(s, url) && Remembered(s, k)| == |At(s.book, url)|
  {
    assert UrlKept(s, url);
    PayersCount(At(s.book, url));
    var kept := set k | k in InterceptionsOf(s, url) && Remembered(s, k);
    forall k: nat ensures k in kept <==> k in PayersOf(At(s.book, url)) {
      FatesDiffer(s, k);
      if k in PayersOf(At(s.book, url)) {
        var e :| e in At(s.book, url) && e.payer == k;
        assert EntryKept(s, url, e);
      }
    }
    assert kept == PayersOf(At(s.book, url));
  }

  /** Conservation: each successful interception of a URL is claimed once, still remembered, or expired. */
  lemma InterceptionsAreConserved(s: State, window: int, url: string)
    requires Reachable(s, window)
    ensures |InterceptionsOf(s, url)| == |ClaimsOf(s, url)| + |At(s.book, url)| + |ExpiredOf(s, url)|
  {
    ReachableInv(s, window);
    EntriesCount(s, url);
    ClaimsPaidByInterceptions(s, url);
    assert |ClaimsOf(s, url)| == |set k | k in InterceptionsOf(s, url) && Spent(s, k)| by {
      forall c, d | c in ClaimsOf(s, url) && d in ClaimsOf(s, url) && PayerOf(s)(c) == PayerOf(s)(d) ensures c == d {}
      ImageSize(ClaimsOf(s, url), PayerOf(s));
    }
    FatesPartition(s, url);
  }

  lemma FatesPartition(s: State, url: string)
    requires Inv(s)
    ensures |InterceptionsOf(s, url)|
         == |set k | k in InterceptionsOf(s, url) && Spent(s, k)|
          + |set k | k in InterceptionsOf(s, url) && Remembered(s, k)| + |ExpiredOf(s, url)|
  {
    var all, expired := InterceptionsOf(s, url), ExpiredOf(s, url);
    var spent := set k | k in all && Spent(s, k);
    var kept := set k | k in all && Remembered(s, k);
    forall k | k in all ensures k in spent || k in kept || k in expired { assert Accounted(s, k); }
    forall k | k in expired ensures k in all && k !in spent && k !in kept { FatesDiffer(s, k); }
    forall k | k in kept ensures k !in spent { FatesDiffer(s, k); }
    ThreeParts(all, spent, kept, expired);
  }

  lemma ThreeParts(all: set<nat>, a: set<nat>, b: set<nat>, c: set<nat>)
    requires a <= all && b <= all && c <= all && a !! b && a !! c && b !! c
    requires forall k :: k in all ==> k in a || k in b || k in c
    ensures |all| == |a| + |b| + |c|
  {
    assert all == a + b + c;
    assert |a + b + c| == |a + b| + |c|;
  }
}
