/** Claiming the oldest interception first suppresses as many duplicate download events as any other way of pairing
    them could. */
module HandoffMatching {
  import opened Basics
  import opened Wrappers
  import opened Handoff

  /** For each event, the earlier event it is paired with, if any. */
  type Pairing = seq<Option<nat>>

  ghost function Used(m: Pairing): set<nat> {
    set k | 0 <= k < |m| && m[k].Some? :: m[k].value
  }

  function Size(m: Pairing): nat {
    if m == [] then 0 else Size(m[..|m| - 1]) + (if m[|m| - 1].Some? then 1 else 0)
  }

  predicate IsInterception(events: seq<Event>, url: string, i: nat) {
    i < |events| && events[i].Intercepted? && events[i].url == url
  }

  /** Download event c may be paired with interception i: same URL, earlier, and inside the window. */
  predicate Compatible(window: int, events: seq<Event>, url: string, c: nat, i: nat) {
    && c < |events| && events[c].Created? && events[c].url == url
    && i < c && IsInterception(events, url, i) && events[i].at >= events[c].at - window
  }

  /** A matching of the URL's download events to earlier successful interceptions. */
  ghost predicate Matching(window: int, events: seq<Event>, url: string, m: Pairing) {
    && |m| == |events|
    && (forall c :: 0 <= c < |m| && m[c].Some? ==> Compatible(window, events, url, c, m[c].value))
    && forall c, d :: 0 <= c < d < |m| && m[c].Some? && m[d].Some? ==> m[c].value != m[d].value
  }

  /** How many of the URL's events the controller suppressed. */
  function SuppressedCount(window: int, events: seq<Event>, url: string): nat {
    if events == [] then 0
    else
      var last := |events| - 1;
      SuppressedCount(window, events[..last], url)
        + (if events[last].url == url && Suppressed(window, events, last) then 1 else 0)
  }

  /** The times of the interceptions a pairing has left free, oldest first. */
  ghost function Free(events: seq<Event>, url: string, used: set<nat>): seq<int> {
    if events == [] then []
    else
      var last := |events| - 1;
      Free(events[..last], url, used)
        + (if IsInterception(events, url, last) && last !in used then [events[last].at] else [])
  }

  // ---------------------------------------------------------------- free interceptions

  lemma FreeStep(events: seq<Event>, url: string, used: set<nat>)
    requires events != []
    ensures var last := |events| - 1;
      Free(events, url, used)
        == if IsInterception(events, url, last) && last !in used
           then Free(events[..last], url, used) + [events[last].at]
           else Free(events[..last], url, used)
  {
    assert Free(events[..|events| - 1], url, used) + [] == Free(events[..|events| - 1], url, used);
  }

  lemma {:induction false} FreeSame(events: seq<Event>, url: string, a: set<nat>, b: set<nat>)
    requires forall i :: 0 <= i < |events| ==> (i in a <==> i in b)
    ensures Free(events, url, a) == Free(events, url, b)
  {
    if events != [] { FreeSame(events[..|events| - 1], url, a, b); }
  }

  lemma UsingLast(events: seq<Event>, url: string, used: set<nat>, x: int)
    requires events != [] && IsInterception(events, url, |events| - 1) && |events| - 1 !in used
    ensures |Live(Free(events, url, used + {|events| - 1}), x)|
         == |Live(Free(events, url, used), x)| - (if events[|events| - 1].at >= x then 1 else 0)
  {
    var last := |events| - 1;
    FreeStep(events, url, used);
    FreeStep(events, url, used + {last});
    FreeSame(events[..last], url, used, used + {last});
    LiveAppend(Free(events[..last], url, used), [events[last].at], x);
  }

  lemma OneMoreEach(a: seq<int>, b: seq<int>, t: int, x: int)
    ensures |Live(a + [t], x)| - |Live(b + [t], x)| == |Live(a, x)| - |Live(b, x)|
  {
    LiveAppend(a, [t], x);
    LiveAppend(b, [t], x);
  }

  lemma UsingEarlier(events: seq<Event>, url: string, used: set<nat>, i: nat, x: int)
    requires events != [] && i < |events| - 1
    ensures var before := events[..|events| - 1];
      |Live(Free(events, url, used + {i}), x)| - |Live(Free(events, url, used), x)|
        == |Live(Free(before, url, used + {i}), x)| - |Live(Free(before, url, used), x)|
  {
    var last := |events| - 1;
    FreeStep(events, url, used);
    FreeStep(events, url, used + {i});
    OneMoreEach(Free(events[..last], url, used + {i}), Free(events[..last], url, used), events[last].at, x);
  }

  lemma {:induction false} UsingOne(events: seq<Event>, url: string, used: set<nat>, i: nat, x: int)
    requires IsInterception(events, url, i) && i !in used
    ensures |Live(Free(events, url, used + {i}), x)|
         == |Live(Free(events, url, used), x)| - (if events[i].at >= x then 1 else 0)
  {
    if i == |events| - 1 {
      UsingLast(events, url, used, x);
    } else {
      UsingOne(events[..|events| - 1], url, used, i, x);
      UsingEarlier(events, url, used, i, x);
    }
  }

  lemma {:induction false} FewerLater(entries: seq<int>, x: int, y: int)
    requires x <= y
    ensures |Live(entries, y)| <= |Live(entries, x)|
  {
    if entries != [] { FewerLater(entries[1..], x, y); }
  }

  /** A free interception before x counts from its own time on but not from x on. */
  lemma OneFewer(events: seq<Event>, url: string, used: set<nat>, i: nat, x: int)
    requires IsInterception(events, url, i) && i !in used && events[i].at < x
    ensures |Live(Free(events, url, used), x)| < |Live(Free(events, url, used), events[i].at)|
  {
    UsingOne(events, url, used, i, x);
    UsingOne(events, url, used, i, events[i].at);
    FewerLater(Free(events, url, used + {i}), events[i].at, x);
  }

  // ---------------------------------------------------------------- the controller's entries

  predicate Sorted(entries: seq<int>) {
    forall i, j :: 0 <= i < j < |entries| ==> entries[i] <= entries[j]
  }

  predicate AtMost(entries: seq<int>, bound: int) {
    forall i :: 0 <= i < |entries| ==> entries[i] <= bound
  }

  lemma {:induction false} TakeKeepsSorted(entries: seq<int>, cutoff: int, bound: int)
    requires Sorted(entries) && AtMost(entries, bound)
    ensures Sorted(Take(entries, cutoff)) && AtMost(Take(entries, cutoff), bound)
    ensures entries != [] ==> forall i :: 0 <= i < |Take(entries, cutoff)| ==> entries[0] <= Take(entries, cutoff)[i]
  {
    if entries != [] && entries[0] < cutoff { TakeKeepsSorted(entries[1..], cutoff, bound); }
  }

  /** The URL's entries after one event. */
  function EntriesAfter(window: int, entries: seq<int>, url: string, e: Event): seq<int> {
    if e.url != url then entries
    else if e.Intercepted? then entries + [e.at]
    else Take(entries, e.at - window)
  }

  lemma EntriesStep(window: int, events: seq<Event>, url: string)
    requires events != []
    ensures var last := |events| - 1;
      Entries(KeepAll(window, events), url)
        == EntriesAfter(window, Entries(KeepAll(window, events[..last]), url), url, events[last])
  {
  }

  lemma StaySorted(window: int, entries: seq<int>, url: string, e: Event)
    requires Sorted(entries) && AtMost(entries, e.at)
    ensures Sorted(EntriesAfter(window, entries, url, e)) && AtMost(EntriesAfter(window, entries, url, e), e.at)
  {
    TakeKeepsSorted(entries, e.at - window, e.at);
  }

  lemma {:induction false} EntriesSorted(window: int, events: seq<Event>, url: string, bound: int)
    requires Monotone(events) && (events != [] ==> events[|events| - 1].at <= bound)
    ensures Sorted(Entries(KeepAll(window, events), url)) && AtMost(Entries(KeepAll(window, events), url), bound)
    decreases |events|
  {
    if events != [] {
      var last := |events| - 1;
      EntriesSorted(window, events[..last], url, events[last].at);
      StaySorted(window, Entries(KeepAll(window, events[..last]), url), url, events[last]);
      EntriesStep(window, events, url);
    }
  }

  /** Taking the oldest entry inside the window: from that entry's time back to the cutoff one entry is gone, and there
      was nothing older to choose. */
  lemma {:induction false} TakeOldest(entries: seq<int>, cutoff: int, x: int)
    requires Sorted(entries) && Live(entries, cutoff) != []
    ensures var oldest := Live(entries, cutoff)[0];
      && |Live(Take(entries, cutoff), x)| == |Live(entries, x)| - (if oldest >= x then 1 else 0)
      && (cutoff <= x <= oldest ==> Live(entries, x) == Live(entries, cutoff))
  {
    if entries[0] < cutoff {
      TakeOldest(entries[1..], cutoff, x);
    } else if cutoff <= x <= entries[0] {
      AllLive(entries, x);
      AllLive(entries, cutoff);
    }
  }

  lemma {:induction false} AllLive(entries: seq<int>, x: int)
    requires forall i :: 0 <= i < |entries| ==> entries[i] >= x
    ensures Live(entries, x) == entries
  {
    if entries != [] { AllLive(entries[1..], x); }
  }

  lemma {:induction false} TakeNothing(entries: seq<int>, cutoff: int)
    requires Live(entries, cutoff) == []
    ensures Take(entries, cutoff) == entries
  {
    if entries != [] { TakeNothing(entries[1..], cutoff); }
  }

  // ---------------------------------------------------------------- one event

  /** The event claims one of the URL's entries. */
  predicate Claims(window: int, entries: seq<int>, url: string, e: Event) {
    e.Created? && e.url == url && Live(entries, e.at - window) != []
  }

  lemma SuppressedClaims(window: int, events: seq<Event>, n: nat)
    requires Monotone(events) && n < |events|
    ensures Suppressed(window, events, n)
       <==> Claims(window, Entries(KeepAll(window, events[..n]), events[n].url), events[n].url, events[n])
  {
    PruningIsInvisible(window, events, n);
    var entries := Entries(KeepAll(window, events[..n]), events[n].url);
    assert Claimable(entries, events[n].at - window) <==> InWindow(entries, events[n].at - window) by {
      ClaimableWhen(entries, events[n].at - window);
    }
  }

  lemma CountStep(window: int, events: seq<Event>, url: string)
    requires Monotone(events) && events != []
    ensures var last := |events| - 1;
      SuppressedCount(window, events, url) == SuppressedCount(window, events[..last], url)
        + (if Claims(window, Entries(KeepAll(window, events[..last]), url), url, events[last]) then 1 else 0)
  {
    if events[|events| - 1].url == url { SuppressedClaims(window, events, |events| - 1); }
  }

  lemma PrefixMatching(window: int, events: seq<Event>, url: string, m: Pairing)
    requires Matching(window, events, url, m) && events != []
    ensures var last := |events| - 1;
      && Matching(window, events[..last], url, m[..last])
      && (m[last].None? ==> Used(m) == Used(m[..last]))
      && (m[last].Some? ==> Used(m) == Used(m[..last]) + {m[last].value} && m[last].value !in Used(m[..last])
                            && IsInterception(events[..last], url, m[last].value))
      && last !in Used(m)
  {
    var last := |events| - 1;
    var p := m[..last];
    forall c | 0 <= c < last && p[c].Some? ensures Compatible(window, events[..last], url, c, p[c].value) {
      assert Compatible(window, events, url, c, m[c].value);
    }
    if m[last].Some? { assert Compatible(window, events, url, last, m[last].value); }
    forall k | k in Used(m) ensures k in Used(p) + (if m[last].Some? then {m[last].value} else {}) {
      var c :| 0 <= c < |m| && m[c].Some? && m[c].value == k;
      assert c < last ==> p[c] == m[c];
    }
    forall k | k in Used(p) ensures k in Used(m) {
      var c :| 0 <= c < |p| && p[c].Some? && p[c].value == k;
      assert m[c] == p[c];
    }
    if m[last].None? {
      assert Used(m) == Used(p);
    } else {
      assert m[last].value in Used(m);
      assert Used(m) == Used(p) + {m[last].value};
    }
  }

  /** From x on, the pairing has no more free interceptions than the controller has entries, up to the pairs the
      controller is ahead. */
  predicate Ahead(free: seq<int>, entries: seq<int>, suppressed: nat, paired: nat, x: int) {
    |Live(free, x)| <= |Live(entries, x)| + suppressed - paired
  }

  /** An event the pairing leaves alone. */
  lemma SkipKeepsAhead(window: int, free: seq<int>, entries: seq<int>, s: nat, k: nat, url: string, e: Event, x: int)
    requires Ahead(free, entries, s, k, x) && Sorted(entries)
    ensures Ahead(free + (if e.Intercepted? && e.url == url then [e.at] else []), EntriesAfter(window, entries, url, e),
                  s + Bit(Claims(window, entries, url, e)), k, x)
  {
    if e.Intercepted? && e.url == url {
      LiveAppend(free, [e.at], x);
      LiveAppend(entries, [e.at], x);
    } else {
      assert free + [] == free;
      if Claims(window, entries, url, e) {
        TakeOldest(entries, e.at - window, x);
      } else if e.url == url {
        TakeNothing(entries, e.at - window);
      }
    }
  }

  /** A download event the pairing pairs with interception i. If the controller claims too, the oldest entry it takes
      makes up for interception i; if it cannot claim, it was already one pair ahead. */
  lemma PairKeepsAhead(window: int, events: seq<Event>, used: set<nat>, i: nat, entries: seq<int>, s: nat, k: nat,
                       url: string, e: Event, x: int)
    requires IsInterception(events, url, i) && i !in used
    requires e.Created? && e.url == url && events[i].at >= e.at - window
    requires Sorted(entries)
    requires Ahead(Free(events, url, used), entries, s, k, x)
    requires Ahead(Free(events, url, used), entries, s, k, events[i].at)
    ensures Ahead(Free(events, url, used + {i}), EntriesAfter(window, entries, url, e),
                  s + Bit(Claims(window, entries, url, e)), k + 1, x)
  {
    var cutoff := e.at - window;
    UsingOne(events, url, used, i, x);
    if events[i].at < x { OneFewer(events, url, used, i, x); }
    if Claims(window, entries, url, e) {
      TakeOldest(entries, cutoff, x);
      TakeOldest(entries, cutoff, events[i].at);
    } else {
      TakeNothing(entries, cutoff);
      FewerLater(entries, cutoff, events[i].at);
    }
  }

  /** The controller never falls behind. */
  lemma PairNeverPasses(window: int, events: seq<Event>, used: set<nat>, i: nat, entries: seq<int>, s: nat, k: nat,
                        url: string, e: Event)
    requires IsInterception(events, url, i) && i !in used
    requires e.Created? && e.url == url && events[i].at >= e.at - window
    requires k <= s && Ahead(Free(events, url, used), entries, s, k, events[i].at)
    ensures k + 1 <= s + Bit(Claims(window, entries, url, e))
  {
    UsingOne(events, url, used, i, events[i].at);
    if !Claims(window, entries, url, e) { FewerLater(entries, e.at - window, events[i].at); }
  }

  /** Ahead, for a pairing of the given size that uses the given interceptions. */
  ghost predicate Level(window: int, events: seq<Event>, url: string, used: set<nat>, size: nat, x: int) {
    Ahead(Free(events, url, used), Entries(KeepAll(window, events), url), SuppressedCount(window, events, url), size, x)
  }

  lemma LevelAfterSkip(window: int, events: seq<Event>, url: string, used: set<nat>, size: nat, x: int)
    requires Monotone(events) && events != [] && |events| - 1 !in used
    requires Level(window, events[..|events| - 1], url, used, size, x)
    ensures Level(window, events, url, used, size, x)
  {
    var before := events[..|events| - 1];
    var entries := Entries(KeepAll(window, before), url);
    EntriesSorted(window, before, url, events[|events| - 1].at);
    CountStep(window, events, url);
    EntriesStep(window, events, url);
    SkipKeepsAhead(window, Free(before, url, used), entries, SuppressedCount(window, before, url), size, url,
                   events[|events| - 1], x);
  }

  lemma LevelAfterPair(window: int, events: seq<Event>, url: string, used: set<nat>, size: nat, i: nat, x: int)
    requires Monotone(events) && events != [] && i !in used
    requires Compatible(window, events, url, |events| - 1, i)
    requires Level(window, events[..|events| - 1], url, used, size, x)
    requires Level(window, events[..|events| - 1], url, used, size, events[i].at)
    ensures Level(window, events, url, used + {i}, size + 1, x)
    ensures size <= SuppressedCount(window, events[..|events| - 1], url)
        ==> size + 1 <= SuppressedCount(window, events, url)
  {
    var before, e := events[..|events| - 1], events[|events| - 1];
    var entries, s := Entries(KeepAll(window, before), url), SuppressedCount(window, before, url);
    EntriesSorted(window, before, url, e.at);
    CountStep(window, events, url);
    EntriesStep(window, events, url);
    assert IsInterception(before, url, i);
    FreeStep(events, url, used + {i});
    PairKeepsAhead(window, before, used, i, entries, s, size, url, e, x);
    if size <= s { PairNeverPasses(window, before, used, i, entries, s, size, url, e); }
  }

  lemma {:induction false} Exchange(window: int, events: seq<Event>, url: string, m: Pairing, x: int)
    requires Monotone(events) && Matching(window, events, url, m)
    ensures Level(window, events, url, Used(m), Size(m), x)
    ensures Size(m) <= SuppressedCount(window, events, url)
    decreases |events|
  {
    if events != [] {
      var last := |events| - 1;
      PrefixMatching(window, events, url, m);
      Exchange(window, events[..last], url, m[..last], x);
      match m[last] {
        case None =>
          LevelAfterSkip(window, events, url, Used(m[..last]), Size(m[..last]), x);
          CountStep(window, events, url);
        case Some(i) =>
          assert Compatible(window, events, url, last, i);
          Exchange(window, events[..last], url, m[..last], events[i].at);
          LevelAfterPair(window, events, url, Used(m[..last]), Size(m[..last]), i, x);
      }
    }
  }

  /** No matching of download events to interceptions suppresses more than the controller does. */
  lemma NoPairingIsLarger(window: int, events: seq<Event>, url: string, m: Pairing)
    requires Monotone(events) && Matching(window, events, url, m)
    ensures Size(m) <= SuppressedCount(window, events, url)
  {
    Exchange(window, events, url, m, 0);
  }

  /** The oldest free interception inside the window, and what using it leaves free. */
  lemma {:induction false} OldestFree(events: seq<Event>, url: string, used: set<nat>, cutoff: int) returns (i: nat)
    requires Live(Free(events, url, used), cutoff) != []
    ensures IsInterception(events, url, i) && i !in used && events[i].at >= cutoff
    ensures Free(events, url, used + {i}) == Take(Free(events, url, used), cutoff)
  {
    var last := |events| - 1;
    var earlier := Free(events[..last], url, used);
    var more := if IsInterception(events, url, last) && last !in used then [events[last].at] else [];
    LiveAppend(earlier, more, cutoff);
    if Live(earlier, cutoff) != [] {
      i := OldestFree(events[..last], url, used, cutoff);
      TakeEarly(earlier, more, cutoff);
    } else {
      i := last;
      FreeSame(events[..last], url, used, used + {last});
      TakeLate(earlier, events[last].at, cutoff);
    }
  }

  lemma {:induction false} TakeEarly(a: seq<int>, b: seq<int>, cutoff: int)
    requires Live(a, cutoff) != []
    ensures Take(a + b, cutoff) == Take(a, cutoff) + b
  {
    assert (a + b)[1..] == a[1..] + b;
    if a[0] < cutoff { TakeEarly(a[1..], b, cutoff); }
  }

  lemma {:induction false} TakeLate(a: seq<int>, t: int, cutoff: int)
    requires Live(a, cutoff) == [] && t >= cutoff
    ensures Take(a + [t], cutoff) == a
  {
    if a == [] {
      assert a + [t] == [t];
    } else {
      assert (a + [t])[1..] == a[1..] + [t];
      TakeLate(a[1..], t, cutoff);
    }
  }

  lemma ExtendMatching(window: int, events: seq<Event>, url: string, p: Pairing, o: Option<nat>)
    requires events != [] && Matching(window, events[..|events| - 1], url, p)
    requires o.Some? ==> o.value !in Used(p) && Compatible(window, events, url, |events| - 1, o.value)
    ensures Matching(window, events, url, p + [o])
    ensures o.None? ==> Used(p + [o]) == Used(p)
    ensures o.Some? ==> Used(p + [o]) == Used(p) + {o.value}
    ensures Size(p + [o]) == Size(p) + Bit(o.Some?)
    ensures |events| - 1 !in Used(p + [o])
  {
    var last := |events| - 1;
    var m := p + [o];
    assert m[..last] == p;
    forall c | 0 <= c < |m| && m[c].Some? ensures Compatible(window, events, url, c, m[c].value) {
      if c < last { assert Compatible(window, events[..last], url, c, p[c].value); }
    }
    forall c, d | 0 <= c < d < |m| && m[c].Some? && m[d].Some? ensures m[c].value != m[d].value {
      if d == last { assert p[c].value in Used(p); }
    }
    PrefixMatching(window, events, url, m);
  }

  /** The pairing that follows the controller: each suppressed event with the oldest free interception in the window. */
  ghost predicate Follows(window: int, events: seq<Event>, url: string, m: Pairing) {
    && Matching(window, events, url, m)
    && Size(m) == SuppressedCount(window, events, url)
    && Free(events, url, Used(m)) == Entries(KeepAll(window, events), url)
  }

  /** Pairing a claiming event with the oldest free interception leaves free exactly the controller's entries. */
  lemma ClaimsOldestFree(window: int, events: seq<Event>, url: string, used: set<nat>) returns (i: nat)
    requires events != []
    requires Free(events[..|events| - 1], url, used) == Entries(KeepAll(window, events[..|events| - 1]), url)
    requires Claims(window, Entries(KeepAll(window, events[..|events| - 1]), url), url, events[|events| - 1])
    ensures i !in used && Compatible(window, events, url, |events| - 1, i)
    ensures Free(events, url, used + {i}) == Entries(KeepAll(window, events), url)
  {
    var before, e := events[..|events| - 1], events[|events| - 1];
    i := OldestFree(before, url, used, e.at - window);
    assert IsInterception(before, url, i);
    assert Free(events, url, used + {i}) == Free(before, url, used + {i}) by { FreeStep(events, url, used + {i}); }
    EntriesStep(window, events, url);
  }

  lemma FollowClaim(window: int, events: seq<Event>, url: string, p: Pairing) returns (i: nat)
    requires Monotone(events) && events != [] && Follows(window, events[..|events| - 1], url, p)
    requires Claims(window, Entries(KeepAll(window, events[..|events| - 1]), url), url, events[|events| - 1])
    ensures Follows(window, events, url, p + [Some(i)])
  {
    i := ClaimsOldestFree(window, events, url, Used(p));
    CountStep(window, events, url);
    ExtendMatching(window, events, url, p, Some(i));
  }

  lemma FollowSkip(window: int, events: seq<Event>, url: string, p: Pairing)
    requires Monotone(events) && events != [] && Follows(window, events[..|events| - 1], url, p)
    requires !Claims(window, Entries(KeepAll(window, events[..|events| - 1]), url), url, events[|events| - 1])
    ensures Follows(window, events, url, p + [None])
  {
    var before, e := events[..|events| - 1], events[|events| - 1];
    ExtendMatching(window, events, url, p, None);
    assert Free(events, url, Used(p)) == Entries(KeepAll(window, events), url) by {
      FreeStep(events, url, Used(p));
      EntriesStep(window, events, url);
      if e.Created? && e.url == url { TakeNothing(Free(before, url, Used(p)), e.at - window); }
    }
    CountStep(window, events, url);
  }

  /** The controller's own claims form such a matching: what it suppresses is the maximum. */
  lemma {:induction false} ControllersPairing(window: int, events: seq<Event>, url: string) returns (m: Pairing)
    requires Monotone(events)
    ensures Matching(window, events, url, m) && Size(m) == SuppressedCount(window, events, url)
    ensures Follows(window, events, url, m)
    decreases |events|
  {
    if events == [] {
      m := [];
    } else {
      var p := ControllersPairing(window, events[..|events| - 1], url);
      if Claims(window, Entries(KeepAll(window, events[..|events| - 1]), url), url, events[|events| - 1]) {
        var i := FollowClaim(window, events, url, p);
        m := p + [Some(i)];
      } else {
        FollowSkip(window, events, url, p);
        m := p + [None];
      }
    }
  }

  /** Oldest-first claiming is optimal: the number of suppressed events is the maximum over all matchings. */
  lemma SuppressionIsMaximum(window: int, events: seq<Event>, url: string)
    requires Monotone(events)
    ensures exists m :: Matching(window, events, url, m) && Size(m) == SuppressedCount(window, events, url)
    ensures forall m :: Matching(window, events, url, m) ==> Size(m) <= SuppressedCount(window, events, url)
  {
    var own := ControllersPairing(window, events, url);
    forall m | Matching(window, events, url, m) ensures Size(m) <= SuppressedCount(window, events, url) {
      NoPairingIsLarger(window, events, url, m);
    }
  }
}
