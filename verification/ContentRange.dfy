/** The Content-Range response header (section 14.4 of RFC 9110) as the downloader reads it. */
module ContentRange {
  import opened Wrappers
  import opened Decimal

  datatype Range = Range(start: int, end: int, total: int)

  const PREFIX: string := "bytes "

  /** `strings.Split` with a one-character separator. */
  function Split(s: string, sep: char): (parts: seq<string>)
    ensures |parts| >= 1
  {
    if s == [] then [[]]
    else
      var rest := Split(s[1..], sep);
      if s[0] == sep then [[]] + rest
      else [[s[0]] + rest[0]] + rest[1..]
  }

  /** parseContentRange. */
  function Parse(value: string): (r: Result<Range, string>)
    ensures r.Ok? ==> 0 <= r.value.start <= r.value.end < r.value.total <= MAX_INT64
  {
    if !(PREFIX <= value) then Err("missing or invalid content-range")
    else
      var parts := Split(value[|PREFIX|..], '/');
      if |parts| != 2 || parts[1] == "*" then Err("invalid content-range")
      else
        var bounds := Split(parts[0], '-');
        if |bounds| != 2 then Err("invalid content-range")
        else
          var start, end, total := ParseInt(bounds[0]), ParseInt(bounds[1]), ParseInt(parts[1]);
          if start.None? || end.None? || total.None? then Err("invalid content-range")
          else if start.value < 0 || end.value < start.value || total.value <= end.value then
            Err("invalid content-range")
          else Ok(Range(start.value, end.value, total.value))
  }

  function Header(start: string, end: string, total: string): string {
    PREFIX + (start + ['-'] + end + ['/'] + total)
  }

  /** The header a conforming server sends for a satisfied byte range. */
  function Format(r: Range): string
    requires 0 <= r.start && 0 <= r.end && 0 <= r.total
  {
    Header(Print(r.start), Print(r.end), Print(r.total))
  }

  /** Three int64 numerals, free of separators, that order as a byte range must. */
  predicate Ordered(a: string, b: string, c: string) {
    && '-' !in a && '-' !in b && '/' !in a && '/' !in b && '/' !in c
    && ParseInt(a).Some? && ParseInt(b).Some? && ParseInt(c).Some?
    && 0 <= ParseInt(a).value <= ParseInt(b).value < ParseInt(c).value
  }

  lemma {:induction false} SplitNone(s: string, sep: char)
    requires sep !in s
    ensures Split(s, sep) == [s]
  {
    if s != [] {
      SplitNone(s[1..], sep);
      assert [s[0]] + s[1..] == s;
    }
  }

  lemma {:induction false} SplitOne(a: string, sep: char, b: string)
    requires sep !in a && sep !in b
    ensures Split(a + [sep] + b, sep) == [a, b]
  {
    var s := a + [sep] + b;
    if a == [] {
      assert s[1..] == b;
      SplitNone(b, sep);
    } else {
      assert s[1..] == a[1..] + [sep] + b;
      SplitOne(a[1..], sep, b);
      assert [a[0]] + a[1..] == a;
    }
  }

  /** Split loses nothing: two parts are exactly the text around one separator, and neither part holds one. */
  lemma {:induction false} SplitParts(s: string, sep: char)
    ensures forall k :: 0 <= k < |Split(s, sep)| ==> sep !in Split(s, sep)[k]
    ensures |Split(s, sep)| == 1 ==> Split(s, sep)[0] == s
    ensures |Split(s, sep)| == 2 ==> s == Split(s, sep)[0] + [sep] + Split(s, sep)[1]
  {
    if s != [] {
      SplitParts(s[1..], sep);
      assert s == [s[0]] + s[1..];
    }
  }

  lemma ParseHeader(a: string, b: string, c: string)
    requires Ordered(a, b, c)
    ensures Parse(Header(a, b, c)) == Ok(Range(ParseInt(a).value, ParseInt(b).value, ParseInt(c).value))
  {
    var left := a + ['-'] + b;
    assert left + ['/'] + c == a + ['-'] + b + ['/'] + c;
    assert Header(a, b, c)[|PREFIX|..] == left + ['/'] + c;
    SplitOne(left, '/', c);
    SplitOne(a, '-', b);
    assert c != "*" by { assert !IsDigit('*'); }
  }

  /** Formatting then parsing returns the same range, for every range an int64 total can describe. */
  lemma RoundTrip(r: Range)
    requires 0 <= r.start <= r.end < r.total <= MAX_INT64
    ensures Parse(Format(r)) == Ok(r)
  {
    ParsePrint(r.start);
    ParsePrint(r.end);
    ParsePrint(r.total);
    ParseHeader(Print(r.start), Print(r.end), Print(r.total));
  }

  /** Acceptance is exact: a header is accepted iff it is "bytes A-B/C" with A, B, C numerals in order. */
  lemma AcceptedForm(value: string)
    ensures Parse(value).Ok? <==> exists a, b, c :: value == Header(a, b, c) && Ordered(a, b, c)
  {
    if Parse(value).Ok? {
      var tail := value[|PREFIX|..];
      var parts := Split(tail, '/');
      var bounds := Split(parts[0], '-');
      SplitParts(tail, '/');
      SplitParts(parts[0], '-');
      assert tail == bounds[0] + ['-'] + bounds[1] + ['/'] + parts[1];
      assert value == PREFIX + tail;
      assert Ordered(bounds[0], bounds[1], parts[1]) by {
        assert '/' !in parts[0] && '/' !in parts[1];
      }
      assert value == Header(bounds[0], bounds[1], parts[1]);
    }
    forall a, b, c | value == Header(a, b, c) && Ordered(a, b, c) ensures Parse(value).Ok? {
      ParseHeader(a, b, c);
    }
  }
}
