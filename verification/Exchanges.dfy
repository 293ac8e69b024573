/** What a worker's exchanges with the server come to, said of the answers and of how their bodies arrive. */
module Exchanges {
  import opened Basics
  import opened Wrappers
  import opened Chunking
  import opened Engine
  import ContentRange
  import Decimal

  /** What can happen to one iteration of the read loop. */
  datatype Event =
    | Deliver(n: int)
    | Stalled
    | Interrupted
    | WriteError(n: int)

  /** One request of the retry loop: how the server answers a given If-Range validator and first offset, and how
      the body then arrives. */
  datatype Exchange = Exchange(respond: (string, int) -> Option<Response>, events: seq<Event>)

  ghost predicate HonestExchange(job: Job, x: Exchange, now: nat) {
    forall ifRange, first :: x.respond(ifRange, first).Some? ==>
      Honest(job, ifRange, x.respond(ifRange, first).value, now)
  }

  // ---------------------------------------------------------------- one body

  /** How much of `room` bytes one read delivers. */
  function Taken(n: int, room: nat): (t: nat)
    ensures t <= room
  {
    Min(Min(if n < 0 then 0 else n, READ_BUF_SIZE), room)
  }

  /** How much of `room` bytes is stored and credited before something other than a delivery happens. */
  function Got(events: seq<Event>, room: nat): (g: nat)
    ensures g <= room
    decreases |events|
  {
    if room == 0 || events == [] || !events[0].Deliver? then 0
    else
      var n := Taken(events[0].n, room);
      n + Got(events[1..], room - n)
  }

  /** After k events this much of `room` has been got. */
  predicate GotSoFar(events: seq<Event>, room: nat, k: nat, got: nat) {
    k <= |events| && got <= room && Got(events, room) == got + Got(events[k..], room - got)
  }

  /** What one more turn of the read loop adds, or that there will be no more. */
  lemma GotStep(events: seq<Event>, room: nat, k: nat, got: nat)
    requires GotSoFar(events, room, k, got)
    ensures k == |events| || !events[k].Deliver? || got == room ==> Got(events, room) == got
    ensures k < |events| && events[k].Deliver? ==>
      GotSoFar(events, room, k + 1, got + Taken(events[k].n, room - got))
  {
    if k < |events| { assert events[k..][0] == events[k] && events[k..][1..] == events[k + 1..]; }
  }

  /** Nothing but deliveries happens, each of at least one byte. */
  predicate AllDelivered(events: seq<Event>) {
    forall k :: 0 <= k < |events| ==> events[k].Deliver? && events[k].n > 0
  }

  /** Deliveries get everything across if there are enough of them, however small. */
  lemma {:induction false} EnoughIsAll(events: seq<Event>, room: nat)
    requires |events| >= room && AllDelivered(events)
    ensures Got(events, room) == room
    decreases |events|
  {
    if room > 0 { EnoughIsAll(events[1..], room - Taken(events[0].n, room)); }
  }

  /** And one is enough if it fits a buffer. */
  lemma OneIsAll(n: int, room: nat)
    requires room <= n && room <= READ_BUF_SIZE
    ensures Got([Deliver(n)], room) == room
  {
    if room > 0 { assert Got([Deliver(n)][1..], 0) == 0; }
  }

  // ---------------------------------------------------------------- one answer

  /** The header names this range, in numerals. */
  ghost predicate Names(text: string, range: ContentRange.Range) {
    exists a, b, c :: Spells(text, a, b, c, range)
  }

  predicate Spells(text: string, a: string, b: string, c: string, range: ContentRange.Range) {
    && text == ContentRange.Header(a, b, c) && ContentRange.Ordered(a, b, c)
    && Decimal.ParseInt(a) == Some(range.start) && Decimal.ParseInt(b) == Some(range.end)
    && Decimal.ParseInt(c) == Some(range.total)
  }

  /** An answer that a request for the bytes [first, c.end] may be served with: the range it asked for, or the whole
      file if that is what it asked for; with no length declared, or the right one. */
  ghost predicate Admissible(job: Job, c: Chunk, first: int, r: Response) {
    && (r.contentLength < 0 || r.contentLength == c.end - first + 1)
    && (|| (r.code == 206 && Names(r.contentRange, ContentRange.Range(first, c.end, job.total)))
        || (r.code == 200 && first == 0 && job.chunks == [c] && c.start == 0 && c.end == job.total - 1))
  }

  lemma NamesIsParsed(text: string, range: ContentRange.Range)
    ensures Names(text, range) <==> ContentRange.Parse(text) == Ok(range)
  {
    ContentRange.AcceptedForm(text);
    if a, b, c :| Spells(text, a, b, c, range) { ContentRange.ParseHeader(a, b, c); }
    if ContentRange.Parse(text) == Ok(range) {
      var a, b, c :| text == ContentRange.Header(a, b, c) && ContentRange.Ordered(a, b, c);
      ContentRange.ParseHeader(a, b, c);
      assert Spells(text, a, b, c, range);
    }
  }

  /** The checks of downloadChunk let exactly these answers pass. */
  lemma AcceptsIsAdmissible(job: Job, i: nat, first: int, r: Response)
    requires i < |job.chunks|
    ensures Accepts(job, job.chunks[i], first, r) <==> Admissible(job, job.chunks[i], first, r)
  {
    NamesIsParsed(r.contentRange, ContentRange.Range(first, job.chunks[i].end, job.total));
    if |job.chunks| == 1 { assert job.chunks == [job.chunks[i]]; }
  }

  // ---------------------------------------------------------------- one attempt

  function Rest(c: Chunk, credit: int): int { c.Length() - credit }

  /** The answer to the request for what a chunk with this credit lacks. */
  function Answer(job: Job, c: Chunk, credit: int, x: Exchange): Option<Response> {
    x.respond(IfRange(job, credit), c.start + credit)
  }

  /** An answer comes and may be read. */
  ghost predicate Answered(job: Job, c: Chunk, credit: int, x: Exchange) {
    Answer(job, c, credit, x).Some? && Admissible(job, c, c.start + credit, Answer(job, c, credit, x).value)
  }

  /** How much of the body is stored and credited. */
  ghost function Gain(job: Job, c: Chunk, credit: int, x: Exchange): (g: nat)
    ensures g > 0 ==> g <= Rest(c, credit) && Answered(job, c, credit, x)
  {
    if Rest(c, credit) <= 0 || !Answered(job, c, credit, x) then 0
    else Got(x.events, Min(Rest(c, credit), |Answer(job, c, credit, x).value.body|))
  }

  /** The attempt succeeds: nothing is lacking, or an answer comes, may be read, is as long as what is lacking, ends
      well, and gets across without a stall, an interruption or a failed write. */
  ghost predicate Fetches(job: Job, c: Chunk, credit: int, x: Exchange) {
    || Rest(c, credit) <= 0
    || (&& Answered(job, c, credit, x)
        && var r := Answer(job, c, credit, x).value;
           r.clean && |r.body| == Rest(c, credit) && Got(x.events, |r.body|) == |r.body|)
  }

  /** The same, for an answer that has passed the checks. */
  lemma AttemptIs(job: Job, i: nat, credit: int, x: Exchange)
    requires i < |job.chunks| && credit < job.chunks[i].Length()
    ensures var c := job.chunks[i];
      var answer := Answer(job, c, credit, x);
      && (Answered(job, c, credit, x) <==> answer.Some? && Accepts(job, c, c.start + credit, answer.value))
      && (!Answered(job, c, credit, x) ==> Gain(job, c, credit, x) == 0 && !Fetches(job, c, credit, x))
      && (Answered(job, c, credit, x) ==>
            && var r := answer.value;
               && Gain(job, c, credit, x) == Got(x.events, Min(Rest(c, credit), |r.body|))
               && (Fetches(job, c, credit, x) <==>
                     r.clean && |r.body| == Rest(c, credit) && Gain(job, c, credit, x) == |r.body|))
  {
    var c := job.chunks[i];
    var answer := Answer(job, c, credit, x);
    if answer.Some? { AcceptsIsAdmissible(job, i, c.start + credit, answer.value); }
  }

  // ---------------------------------------------------------------- all attempts of a worker

  const NOBODY := Exchange((_, _) => None, [])

  /** When the script is used up, nobody answers. */
  function At(script: seq<Exchange>, k: nat): Exchange {
    if k < |script| then script[k] else NOBODY
  }

  function Head(script: seq<Exchange>): Exchange { At(script, 0) }

  function Tail(script: seq<Exchange>): seq<Exchange> {
    if script == [] then [] else script[1..]
  }

  /** With this many attempts left, one of them succeeds, each going on from what the ones before have got. */
  ghost predicate Completes(job: Job, c: Chunk, credit: int, script: seq<Exchange>, attempts: nat)
    decreases attempts
  {
    && attempts > 0
    && (|| Fetches(job, c, credit, Head(script))
        || Completes(job, c, credit + Gain(job, c, credit, Head(script)), Tail(script), attempts - 1))
  }

  /** What the chunk is credited with in the end. */
  ghost function Credited(job: Job, c: Chunk, credit: int, script: seq<Exchange>, attempts: nat): int
    decreases attempts
  {
    if attempts == 0 then credit
    else
      var now := credit + Gain(job, c, credit, Head(script));
      if Fetches(job, c, credit, Head(script)) then now else Credited(job, c, now, Tail(script), attempts - 1)
  }

  /** An exchange that serves whatever a worker of this chunk can ask for. */
  ghost predicate Serves(job: Job, c: Chunk, x: Exchange) {
    forall credit :: 0 <= credit < c.Length() ==> ServesAt(job, c, credit, x)
  }

  /** The bytes asked for, announced as such, with no length or the right one, and delivered. */
  ghost predicate ServesAt(job: Job, c: Chunk, credit: int, x: Exchange)
    requires 0 <= credit
  {
    && Answer(job, c, credit, x).Some?
    && var r, first := Answer(job, c, credit, x).value, c.start + credit;
       && (r.contentLength < 0 || r.contentLength == c.Length() - credit)
       && (|| (r.code == 206 && 0 <= first <= c.end < job.total
               && r.contentRange == ContentRange.Format(ContentRange.Range(first, c.end, job.total)))
           || (r.code == 200 && first == 0 && job.chunks == [c] && c.start == 0 && c.end == job.total - 1))
       && r.clean && |r.body| == c.Length() - credit
       && Got(x.events, |r.body|) == |r.body|
  }

  lemma ServesFetches(job: Job, c: Chunk, credit: int, x: Exchange)
    requires 0 <= credit <= c.Length() && Serves(job, c, x) && job.total <= Decimal.MAX_INT64
    ensures Fetches(job, c, credit, x)
  {
    if credit < c.Length() {
      assert ServesAt(job, c, credit, x);
      var r, range := Answer(job, c, credit, x).value, ContentRange.Range(c.start + credit, c.end, job.total);
      if r.code == 206 {
        ContentRange.RoundTrip(range);
        NamesIsParsed(r.contentRange, range);
      }
      assert Admissible(job, c, c.start + credit, r);
    }
  }

  /** One of the attempts finds an exchange that serves the chunk. */
  ghost predicate HasServing(job: Job, c: Chunk, script: seq<Exchange>, attempts: nat) {
    exists k :: 0 <= k < |script| && k < attempts && Serves(job, c, script[k])
  }

  /** The plainest of them: a 206 that names its range and declares no length, delivered byte by byte. */
  function Plain(job: Job, c: Chunk, content: seq<Byte>): Exchange
    requires 0 <= c.start <= c.end < job.total == |content|
  {
    Exchange((_, first: int) => if 0 <= first <= c.end then Some(PlainAnswer(job, c, content, first)) else None,
             seq(c.Length(), _ => Deliver(1)))
  }

  function PlainAnswer(job: Job, c: Chunk, content: seq<Byte>, first: int): Response
    requires 0 <= first <= c.end < job.total == |content|
  {
    Response(206, ContentRange.Format(ContentRange.Range(first, c.end, job.total)), -1, content[first..c.end + 1], true)
  }

  lemma PlainServes(job: Job, c: Chunk, content: seq<Byte>)
    requires 0 <= c.start <= c.end < job.total == |content|
    ensures Serves(job, c, Plain(job, c, content))
  {
    var x := Plain(job, c, content);
    forall credit | 0 <= credit < c.Length() ensures ServesAt(job, c, credit, x) {
      assert Answer(job, c, credit, x) == Some(PlainAnswer(job, c, content, c.start + credit));
      EnoughIsAll(x.events, c.Length() - credit);
    }
  }

  /** Without any answer that may be read, nothing is ever got. */
  lemma {:induction false} NobodyAnswers(job: Job, c: Chunk, credit: int, script: seq<Exchange>, attempts: nat)
    requires 0 <= credit < c.Length()
    requires forall k :: 0 <= k < |script| ==> !Answered(job, c, credit, script[k])
    ensures !Completes(job, c, credit, script, attempts) && Credited(job, c, credit, script, attempts) == credit
    decreases attempts
  {
    if attempts > 0 {
      assert !Answered(job, c, credit, Head(script));
      NobodyAnswers(job, c, credit, Tail(script), attempts - 1);
    }
  }

  lemma GainFits(job: Job, c: Chunk, credit: int, x: Exchange)
    requires credit <= c.Length()
    ensures credit + Gain(job, c, credit, x) <= c.Length()
    ensures Fetches(job, c, credit, x) ==> credit + Gain(job, c, credit, x) == c.Length()
  {
  }

  lemma UnfoldsOnce(job: Job, c: Chunk, credit: int, script: seq<Exchange>, attempts: nat,
                    x: Exchange, rest: seq<Exchange>, now: int)
    requires attempts > 0 && x == Head(script) && rest == Tail(script) && now == credit + Gain(job, c, credit, x)
    ensures Completes(job, c, credit, script, attempts) <==>
            Fetches(job, c, credit, x) || Completes(job, c, now, rest, attempts - 1)
    ensures Credited(job, c, credit, script, attempts)
         == if Fetches(job, c, credit, x) then now else Credited(job, c, now, rest, attempts - 1)
  {
  }

  /** One exchange that serves the chunk, among as many as there are attempts, is enough. */
  lemma {:induction false} OneServingIsEnough(job: Job, c: Chunk, credit: int, script: seq<Exchange>, attempts: nat,
                                              k: nat)
    requires 0 <= credit <= c.Length() && job.total <= Decimal.MAX_INT64
    requires k < |script| && k < attempts && Serves(job, c, script[k])
    ensures Completes(job, c, credit, script, attempts)
    decreases attempts
  {
    var x, rest := Head(script), Tail(script);
    var now := credit + Gain(job, c, credit, x);
    if k == 0 {
      ServesFetches(job, c, credit, x);
    } else {
      GainFits(job, c, credit, x);
      assert rest[k - 1] == script[k];
      OneServingIsEnough(job, c, now, rest, attempts - 1, k - 1);
    }
    UnfoldsOnce(job, c, credit, script, attempts, x, rest, now);
  }

  lemma {:induction false} CompletedIsWhole(job: Job, c: Chunk, credit: int, script: seq<Exchange>, attempts: nat)
    requires credit <= c.Length() && Completes(job, c, credit, script, attempts)
    ensures Credited(job, c, credit, script, attempts) == c.Length()
    decreases attempts
  {
    var x, rest := Head(script), Tail(script);
    var now := credit + Gain(job, c, credit, x);
    GainFits(job, c, credit, x);
    UnfoldsOnce(job, c, credit, script, attempts, x, rest, now);
    if !Fetches(job, c, credit, x) { CompletedIsWhole(job, c, now, rest, attempts - 1); }
  }

  /** What reconciliation leaves of a size on record: as much of it as the file has. */
  function Backing(c: Chunk, saved: int, onDisk: int): int {
    Min(saved, if onDisk < c.start then 0 else onDisk - c.start)
  }

  function From(script: seq<Exchange>, k: nat): seq<Exchange> {
    if k <= |script| then script[k..] else []
  }

  /** How a worker that is not cancelled ends, with this many attempts: completed or failed, and with what credit. */
  ghost function Ending(job: Job, c: Chunk, credit: int, script: seq<Exchange>, attempts: nat): Progress
    requires attempts > 0
    decreases attempts
  {
    var now := credit + Gain(job, c, credit, Head(script));
    if Fetches(job, c, credit, Head(script)) then Progress(now, Completed)
    else if attempts == 1 then Progress(now, Failed)
    else Ending(job, c, now, Tail(script), attempts - 1)
  }

  /** It completes its chunk exactly if one of its attempts fetches what is lacking, and is credited with what all of
      them have got. */
  lemma {:induction false} EndingIs(job: Job, c: Chunk, credit: int, script: seq<Exchange>, attempts: nat)
    requires attempts > 0
    ensures Ending(job, c, credit, script, attempts).status
         == if Completes(job, c, credit, script, attempts) then Completed else Failed
    ensures Ending(job, c, credit, script, attempts).downloaded == Credited(job, c, credit, script, attempts)
    decreases attempts
  {
    var x := Head(script);
    var now := credit + Gain(job, c, credit, x);
    if attempts > 1 {
      EndingIs(job, c, now, Tail(script), attempts - 1);
    } else {
      assert !Completes(job, c, now, Tail(script), 0) && Credited(job, c, now, Tail(script), 0) == now;
    }
  }

  /** After k failed attempts the worker ends as it would from here. */
  ghost predicate StillOpen(job: Job, c: Chunk, credit: int, script: seq<Exchange>, k: nat, now: int) {
    && k <= job.retries
    && Ending(job, c, credit, script, job.retries + 1) == Ending(job, c, now, From(script, k), job.retries + 1 - k)
  }

  lemma OpensNow(job: Job, c: Chunk, credit: int, script: seq<Exchange>)
    ensures StillOpen(job, c, credit, script, 0, credit)
  {
    assert From(script, 0) == script;
  }

  lemma FromNext(script: seq<Exchange>, k: nat)
    ensures Head(From(script, k)) == At(script, k) && Tail(From(script, k)) == From(script, k + 1)
  {
  }

  /** What an attempt has come to: completed exactly if the exchange fetched what was lacking; if not, tried again while
      attempts are left, and failed after the last; credited with what it got in any case. */
  ghost predicate Tried(job: Job, c: Chunk, k: nat, x: Exchange, credit: int, p: Progress, again: bool) {
    && p.downloaded == credit + Gain(job, c, credit, x)
    && (again <==> !Fetches(job, c, credit, x) && k < job.retries)
    && (Fetches(job, c, credit, x) ==> p.status == Completed)
    && (!Fetches(job, c, credit, x) && !again ==> p.status == Failed)
  }

  lemma AfterTry(job: Job, c: Chunk, credit: int, script: seq<Exchange>, k: nat, now: int, p: Progress, again: bool)
    requires StillOpen(job, c, credit, script, k, now) && Tried(job, c, k, At(script, k), now, p, again)
    ensures again ==> StillOpen(job, c, credit, script, k + 1, p.downloaded)
    ensures !again ==> p == Ending(job, c, credit, script, job.retries + 1)
  {
    FromNext(script, k);
  }

  /** Somewhere in the script the context is cancelled. */
  predicate Interrupts(script: seq<Exchange>) {
    exists k :: 0 <= k < |script| && Interrupted in script[k].events
  }

  /** Nowhere in the scripts is the context cancelled. */
  predicate Undisturbed(scripts: seq<seq<Exchange>>) {
    forall i :: 0 <= i < |scripts| ==> !Interrupts(scripts[i])
  }

  /** Every chunk's exchanges fetch what reconciliation finds lacking of it. */
  ghost predicate Fetchable(job: Job, scripts: seq<seq<Exchange>>, rows: seq<int>, onDisk: nat) {
    && |scripts| == |rows| == |job.chunks|
    && forall i :: 0 <= i < |job.chunks| ==>
         Completes(job, job.chunks[i], Backing(job.chunks[i], rows[i], onDisk), scripts[i], job.retries + 1)
  }

  /** Every worker has an exchange that serves its chunk among its attempts. */
  ghost predicate AllServing(job: Job, scripts: seq<seq<Exchange>>) {
    && |scripts| == |job.chunks|
    && forall i :: 0 <= i < |scripts| ==> HasServing(job, job.chunks[i], scripts[i], job.retries + 1)
  }

  /** Then every chunk is completed, whatever it starts from. */
  lemma ServingIsFetchable(job: Job, scripts: seq<seq<Exchange>>, rows: seq<int>, onDisk: nat)
    requires AllServing(job, scripts) && |rows| == |job.chunks| && job.total <= Decimal.MAX_INT64
    requires forall i :: 0 <= i < |rows| ==> 0 <= rows[i] <= job.chunks[i].Length()
    ensures Fetchable(job, scripts, rows, onDisk)
  {
    forall i | 0 <= i < |job.chunks|
      ensures Completes(job, job.chunks[i], Backing(job.chunks[i], rows[i], onDisk), scripts[i], job.retries + 1)
    {
      assert HasServing(job, job.chunks[i], scripts[i], job.retries + 1);
      var k :| 0 <= k < |scripts[i]| && k < job.retries + 1 && Serves(job, job.chunks[i], scripts[i][k]);
      OneServingIsEnough(job, job.chunks[i], Backing(job.chunks[i], rows[i], onDisk), scripts[i], job.retries + 1, k);
    }
  }
}
