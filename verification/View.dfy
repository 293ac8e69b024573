/** The cached download view: which records it shows and in which order. */
module View {

  datatype Record = Record(
    id: int, filename: string, status: string, category: string, totalSize: int, downloadedSize: int, createdAt: int)

  datatype Column = Name | Size | Progress | Speed | Status | Added

  function CompareInt(a: int, b: int): int {
    if a < b then -1 else if a > b then 1 else 0
  }

  function CompareReal(a: real, b: real): int {
    if a < b then -1 else if a > b then 1 else 0
  }

  /** strings.Compare. */
  function CompareString(a: string, b: string): int {
    if a == [] && b == [] then 0
    else if a == [] then -1
    else if b == [] then 1
    else if a[0] < b[0] then -1
    else if a[0] > b[0] then 1
    else CompareString(a[1..], b[1..])
  }

  function ProgressOf(r: Record): real {
    if r.totalSize == 0 then 0.0 else r.downloadedSize as real / r.totalSize as real
  }

  /** The column's own comparison. Speed has no case of its own and falls to the default. */
  function CompareKey(lower: string -> string, column: Column, a: Record, b: Record): int {
    match column
    case Name => CompareString(lower(a.filename), lower(b.filename))
    case Size => CompareInt(a.totalSize, b.totalSize)
    case Progress => CompareReal(ProgressOf(a), ProgressOf(b))
    case Status => CompareString(a.status, b.status)
    case Added => CompareInt(a.createdAt, b.createdAt)
    case Speed => CompareInt(a.createdAt, b.createdAt)
  }

  function Compare(lower: string -> string, column: Column, a: Record, b: Record): int {
    var key := CompareKey(lower, column, a, b);
    if key == 0 then CompareInt(a.id, b.id) else key
  }

  /** How the view is sorted: by a column, upwards or downwards. */
  datatype Order = Order(lower: string -> string, column: Column, ascending: bool)

  predicate Less(o: Order, a: Record, b: Record) {
    var c := Compare(o.lower, o.column, a, b);
    if o.ascending then c < 0 else c > 0
  }

  predicate OccursAt(s: string, query: string, i: nat) {
    i + |query| <= |s| && s[i..i + |query|] == query
  }

  /** strings.Contains. */
  predicate Contains(s: string, query: string) {
    exists i :: 0 <= i <= |s| && OccursAt(s, query, i)
  }

  /** Which records the view shows. The empty filter, category and search show everything. */
  datatype Selection = Selection(lower: string -> string, filter: string, category: string, search: string)

  predicate Shows(sel: Selection, r: Record) {
    && (sel.filter != "" ==> r.status == sel.filter)
    && (sel.category != "" ==> r.category == sel.category)
    && (sel.search != "" ==> Contains(sel.lower(r.filename), sel.search))
  }

  predicate DistinctIds(records: seq<Record>) {
    forall i, j :: 0 <= i < j < |records| ==> records[i].id != records[j].id
  }

  ghost predicate Ordered(o: Order, records: seq<Record>) {
    forall i, j :: 0 <= i < j < |records| ==> Less(o, records[i], records[j])
  }

  /** The specification: exactly the records that are shown, each strictly before the next. */
  ghost predicate IsView(sel: Selection, o: Order, all: seq<Record>, view: seq<Record>) {
    && (forall r :: r in view <==> r in all && Shows(sel, r))
    && Ordered(o, view)
  }

  // ---------------------------------------------------------------- the order is total

  lemma {:induction false} StringsSwap(a: string, b: string)
    ensures CompareString(a, b) == -CompareString(b, a)
    ensures CompareString(a, b) == 0 ==> a == b
  {
    if a != [] && b != [] && a[0] == b[0] {
      StringsSwap(a[1..], b[1..]);
      assert a == [a[0]] + a[1..] && b == [b[0]] + b[1..];
    }
  }

  lemma {:induction false} StringsChain(a: string, b: string, c: string)
    requires CompareString(a, b) <= 0 && CompareString(b, c) <= 0
    ensures CompareString(a, c) <= 0
    ensures CompareString(a, c) == 0 ==> CompareString(a, b) == 0 && CompareString(b, c) == 0
  {
    if a != [] && b != [] && c != [] && a[0] == b[0] == c[0] { StringsChain(a[1..], b[1..], c[1..]); }
  }

  lemma KeysSwap(o: Order, a: Record, b: Record)
    ensures CompareKey(o.lower, o.column, a, b) == -CompareKey(o.lower, o.column, b, a)
  {
    StringsSwap(o.lower(a.filename), o.lower(b.filename));
    StringsSwap(a.status, b.status);
  }

  lemma KeysChain(o: Order, a: Record, b: Record, c: Record)
    requires CompareKey(o.lower, o.column, a, b) <= 0 && CompareKey(o.lower, o.column, b, c) <= 0
    ensures CompareKey(o.lower, o.column, a, c) <= 0
    ensures CompareKey(o.lower, o.column, a, c) == 0
        ==> CompareKey(o.lower, o.column, a, b) == 0 && CompareKey(o.lower, o.column, b, c) == 0
  {
    match o.column
    case Name => StringsChain(o.lower(a.filename), o.lower(b.filename), o.lower(c.filename));
    case Status => StringsChain(a.status, b.status, c.status);
    case _ =>
  }

  /** Different ids are never tied, in one direction or the other. */
  lemma LessTotal(o: Order, a: Record, b: Record)
    ensures !(Less(o, a, b) && Less(o, b, a))
    ensures a.id != b.id ==> Less(o, a, b) || Less(o, b, a)
    ensures a.id == b.id && a == b ==> !Less(o, a, b)
  {
    KeysSwap(o, a, b);
  }

  lemma LessChain(o: Order, a: Record, b: Record, c: Record)
    requires Less(o, a, b) && Less(o, b, c)
    ensures Less(o, a, c)
  {
    KeysSwap(o, a, b);
    KeysSwap(o, b, c);
    KeysSwap(o, a, c);
    if o.ascending { KeysChain(o, a, b, c); } else { KeysChain(o, c, b, a); }
  }

  // ---------------------------------------------------------------- what the columns sort by

  /** Where the texts first differ, a has the smaller character, or a ends and b does not. */
  ghost predicate Earlier(a: string, b: string) { exists k: nat :: EarlierAt(a, b, k) }

  predicate EarlierAt(a: string, b: string, k: nat) {
    && k <= |a| && k < |b| && a[..k] == b[..k]
    && (k == |a| || a[k] < b[k])
  }

  lemma HeadsAgree(a: string, b: string, k: nat)
    requires EarlierAt(a, b, k) && k > 0
    ensures a != [] && b != [] && a[0] == b[0]
  {
    assert a[..k][0] == b[..k][0];
  }

  lemma {:induction false} CompareIsEarlier(a: string, b: string)
    ensures CompareString(a, b) < 0 <==> Earlier(a, b)
    ensures CompareString(a, b) == 0 <==> a == b
    ensures CompareString(a, b) > 0 <==> Earlier(b, a)
  {
    if a != [] && b != [] && a[0] == b[0] {
      CompareIsEarlier(a[1..], b[1..]);
      EarlierTails(a, b);
      EarlierTails(b, a);
      assert a == [a[0]] + a[1..] && b == [b[0]] + b[1..];
    } else {
      if CompareString(a, b) < 0 { assert EarlierAt(a, b, 0); }
      if CompareString(a, b) > 0 { assert EarlierAt(b, a, 0); }
      forall k: nat ensures EarlierAt(a, b, k) || EarlierAt(b, a, k) ==> k == 0 {
        if k > 0 && EarlierAt(a, b, k) { HeadsAgree(a, b, k); }
        if k > 0 && EarlierAt(b, a, k) { HeadsAgree(b, a, k); }
      }
    }
  }

  lemma EarlierTails(a: string, b: string)
    requires a != [] && b != [] && a[0] == b[0]
    ensures Earlier(a, b) <==> Earlier(a[1..], b[1..])
  {
    if k: nat :| EarlierAt(a, b, k) {
      assert k > 0 && a[..k][1..] == a[1..][..k - 1] && b[..k][1..] == b[1..][..k - 1];
      assert EarlierAt(a[1..], b[1..], k - 1);
    }
    if k: nat :| EarlierAt(a[1..], b[1..], k) {
      assert a[..k + 1] == [a[0]] + a[1..][..k] && b[..k + 1] == [b[0]] + b[1..][..k];
      assert EarlierAt(a, b, k + 1);
    }
  }

  /** Not as far along: a smaller part of the size is there. A record of size 0 counts as not begun. */
  predicate LessDone(a: Record, b: Record) {
    var (x, m), (y, n) := (a.downloadedSize, a.totalSize), (b.downloadedSize, b.totalSize);
    if m == 0 then n != 0 && 0 < y * n
    else if n == 0 then x * m < 0
    else if m * n > 0 then x * n < y * m
    else x * n > y * m
  }

  /** The column puts a before b, by what the records say. */
  ghost predicate ColumnBefore(lower: string -> string, column: Column, a: Record, b: Record)
  {
    match column
    case Name => Earlier(lower(a.filename), lower(b.filename))
    case Size => a.totalSize < b.totalSize
    case Progress => LessDone(a, b)
    case Status => Earlier(a.status, b.status)
    case Speed => a.createdAt < b.createdAt
    case Added => a.createdAt < b.createdAt
  }

  lemma FractionsCompare(x: int, m: int, y: int, n: int)
    requires m != 0 && n != 0
    ensures x as real / m as real < y as real / n as real <==> if m * n > 0 then x * n < y * m else x * n > y * m
  {
    var p, q, a, b := x as real, m as real, y as real, n as real;
    assert p / q * (q * b) == p * b && a / b * (q * b) == a * q;
    assert (x * n) as real == p * b && (y * m) as real == a * q && (m * n) as real == q * b;
    Scaled(p / q, a / b, q * b);
  }

  lemma Scaled(a: real, b: real, c: real)
    requires c != 0.0
    ensures a < b <==> if c > 0.0 then a * c < b * c else a * c > b * c
  {
  }

  lemma ProgressCompare(a: Record, b: Record)
    ensures ProgressOf(a) < ProgressOf(b) <==> LessDone(a, b)
  {
    if a.totalSize != 0 && b.totalSize != 0 {
      FractionsCompare(a.downloadedSize, a.totalSize, b.downloadedSize, b.totalSize);
    } else if a.totalSize != 0 {
      FractionsCompare(a.downloadedSize, a.totalSize, 0, a.totalSize);
    } else if b.totalSize != 0 {
      FractionsCompare(0, b.totalSize, b.downloadedSize, b.totalSize);
    }
  }

  lemma KeyIsColumn(lower: string -> string, column: Column, a: Record, b: Record)
    ensures CompareKey(lower, column, a, b) < 0 <==> ColumnBefore(lower, column, a, b)
    ensures CompareKey(lower, column, a, b) > 0 <==> ColumnBefore(lower, column, b, a)
  {
    CompareIsEarlier(lower(a.filename), lower(b.filename));
    CompareIsEarlier(a.status, b.status);
    ProgressCompare(a, b);
    ProgressCompare(b, a);
  }

  /** One record comes before another in a view exactly if the column puts it first, or does not tell them apart and
      its id is lower; and the other way round in a descending one. */
  lemma SortsBy(o: Order, a: Record, b: Record)
    ensures var first, second := if o.ascending then a else b, if o.ascending then b else a;
      Less(o, a, b) <==>
        || ColumnBefore(o.lower, o.column, first, second)
        || (!ColumnBefore(o.lower, o.column, second, first) && first.id < second.id)
  {
    KeyIsColumn(o.lower, o.column, a, b);
  }

  // ---------------------------------------------------------------- the view is unique

  lemma {:induction false} ViewIsUnique(o: Order, a: seq<Record>, b: seq<Record>)
    requires Ordered(o, a) && Ordered(o, b)
    requires forall r :: r in a <==> r in b
    ensures a == b
  {
    assert |b| > 0 ==> b[0] in b;
    if a != [] {
      assert a[0] in a;
      var j :| 0 <= j < |b| && b[j] == a[0];
      var i :| 0 <= i < |a| && a[i] == b[0];
      LessTotal(o, a[0], b[0]);
      assert i == 0 && j == 0;
      forall r ensures r in a[1..] <==> r in b[1..] { TailMembers(o, a, r); TailMembers(o, b, r); }
      ViewIsUnique(o, a[1..], b[1..]);
      assert a == [a[0]] + a[1..] && b == [b[0]] + b[1..];
    }
  }

  lemma TailMembers(o: Order, a: seq<Record>, r: Record)
    requires Ordered(o, a) && a != []
    ensures r in a[1..] <==> r in a && r != a[0]
  {
    LessTotal(o, a[0], a[0]);
    if r in a && r != a[0] {
      var i :| 0 <= i < |a| && a[i] == r;
      assert a[1..][i - 1] == r;
    }
  }

  /** The view does not depend on the order, or the number of times, records were loaded in. */
  lemma ViewIgnoresInputOrder(sel: Selection, o: Order, all: seq<Record>, other: seq<Record>,
                              v: seq<Record>, w: seq<Record>)
    requires forall r :: r in all <==> r in other
    requires IsView(sel, o, all, v) && IsView(sel, o, other, w)
    ensures v == w
  {
    forall r ensures r in v <==> r in w { assert r in v <==> r in all && Shows(sel, r); }
    ViewIsUnique(o, v, w);
  }

  function Reversed(s: seq<Record>): (r: seq<Record>)
    ensures |r| == |s| && forall i :: 0 <= i < |r| ==> r[i] == s[|s| - 1 - i]
  {
    if s == [] then [] else Reversed(s[1..]) + [s[0]]
  }

  /** The descending view is the ascending one back to front. */
  lemma DescendingIsReversed(sel: Selection, o: Order, all: seq<Record>, up: seq<Record>, down: seq<Record>)
    requires o.ascending && IsView(sel, o, all, up) && IsView(sel, o.(ascending := false), all, down)
    ensures down == Reversed(up)
  {
    var d := o.(ascending := false);
    forall i, j | 0 <= i < j < |up| ensures Less(d, Reversed(up)[i], Reversed(up)[j]) {
      var a, b := up[|up| - 1 - j], up[|up| - 1 - i];
      assert Less(o, a, b);
      KeysSwap(o, a, b);
    }
    forall r ensures r in Reversed(up) <==> r in down {
      if r in up {
        var i :| 0 <= i < |up| && up[i] == r;
        assert Reversed(up)[|up| - 1 - i] == r;
      }
      assert r in down <==> r in up;
    }
    ViewIsUnique(d, Reversed(up), down);
  }

  // ---------------------------------------------------------------- the store

  /** sort.SliceStable: an element goes before the first one that is not less than it. */
  function Insert(o: Order, x: Record, sorted: seq<Record>): (r: seq<Record>)
    ensures forall y :: y in r <==> y == x || y in sorted
  {
    if sorted == [] || !Less(o, sorted[0], x) then [x] + sorted
    else [sorted[0]] + Insert(o, x, sorted[1..])
  }

  function SliceStable(o: Order, s: seq<Record>): (r: seq<Record>)
    ensures forall y :: y in r <==> y in s
  {
    if s == [] then [] else Insert(o, s[0], SliceStable(o, s[1..]))
  }

  lemma {:induction false} InsertOrders(o: Order, x: Record, sorted: seq<Record>)
    requires Ordered(o, sorted) && forall y :: y in sorted ==> y.id != x.id
    ensures Ordered(o, Insert(o, x, sorted))
  {
    if sorted != [] {
      LessTotal(o, sorted[0], x);
      if Less(o, sorted[0], x) {
        var rest := Insert(o, x, sorted[1..]);
        InsertOrders(o, x, sorted[1..]);
        forall j | 0 <= j < |rest| ensures Less(o, sorted[0], rest[j]) {
          assert rest[j] in rest;
        }
      } else {
        forall j | 0 <= j < |sorted| ensures Less(o, x, sorted[j]) {
          if j > 0 { LessChain(o, x, sorted[0], sorted[j]); }
        }
      }
    }
  }

  lemma {:induction false} SliceStableOrders(o: Order, s: seq<Record>)
    requires DistinctIds(s)
    ensures Ordered(o, SliceStable(o, s))
  {
    if s != [] {
      SliceStableOrders(o, s[1..]);
      forall y | y in SliceStable(o, s[1..]) ensures y.id != s[0].id {
        var i :| 0 <= i < |s[1..]| && s[1..][i] == y;
        assert s[i + 1] == y;
      }
      InsertOrders(o, s[0], SliceStable(o, s[1..]));
    }
  }

  class DownloadStore {
    const lower: string -> string
    var all: seq<Record>
    var view: seq<Record>
    var filter: string
    var category: string
    var search: string
    var sortCol: Column
    var sortAsc: bool

    function Selects(): Selection
      reads this
    {
      Selection(lower, filter, category, search)
    }

    function Sorts(): Order
      reads this
    {
      Order(lower, sortCol, sortAsc)
    }

    /** The view is up to date, and the two filters exclude each other. */
    ghost predicate Valid()
      reads this
    {
      DistinctIds(all) && IsView(Selects(), Sorts(), all, view) && (filter == "" || category == "")
    }

    constructor (lower: string -> string)
      ensures Valid() && all == [] && filter == category == search == "" && sortCol == Added && sortAsc
      ensures this.lower == lower
    {
      this.lower := lower;
      all, view := [], [];
      filter, category, search := "", "", "";
      sortCol, sortAsc := Added, true;
    }

    method Rebuild()
      requires DistinctIds(all)
      modifies this`view
      ensures IsView(Selects(), Sorts(), all, view)
    {
      var filtered: seq<Record> := [];
      for i := 0 to |all|
        invariant forall r :: r in filtered <==> r in all[..i] && Shows(Selects(), r)
        invariant DistinctIds(filtered)
      {
        assert all[..i + 1] == all[..i] + [all[i]];
        var r := all[i];
        if filter != "" && r.status != filter { continue; }
        if category != "" && r.category != category { continue; }
        if search != "" && !Contains(lower(r.filename), search) { continue; }
        forall k | 0 <= k < |filtered| ensures filtered[k].id != r.id { assert filtered[k] in all[..i]; }
        filtered := filtered + [r];
      }
      assert all[..|all|] == all;
      SliceStableOrders(Sorts(), filtered);
      view := SliceStable(Sorts(), filtered);
    }

    /** A successful ListDownloads; its rows have different ids. */
    method Load(records: seq<Record>)
      requires Valid() && DistinctIds(records)
      modifies this
      ensures Valid() && all == records && Selects() == old(Selects()) && Sorts() == old(Sorts())
    {
      all := records;
      Rebuild();
    }

    method SetFilter(status: string)
      requires Valid()
      modifies this
      ensures Valid() && all == old(all) && Sorts() == old(Sorts())
      ensures filter == status && category == "" && search == old(search)
    {
      filter := status;
      category := "";
      Rebuild();
    }

    method SetCategory(category: string)
      requires Valid()
      modifies this
      ensures Valid() && all == old(all) && Sorts() == old(Sorts())
      ensures this.category == (if category == "All" then "" else category) && filter == "" && search == old(search)
    {
      this.category := if category == "All" then "" else category;
      filter := "";
      Rebuild();
    }

    method SetSearch(query: string)
      requires Valid()
      modifies this
      ensures Valid() && all == old(all) && Sorts() == old(Sorts())
      ensures search == lower(query) && filter == old(filter) && category == old(category)
    {
      search := lower(query);
      Rebuild();
    }

    method SetSort(column: Column, ascending: bool)
      requires Valid()
      modifies this
      ensures Valid() && all == old(all) && Selects() == old(Selects())
      ensures sortCol == column && sortAsc == ascending
    {
      sortCol := column;
      sortAsc := ascending;
      Rebuild();
    }
  }
}
