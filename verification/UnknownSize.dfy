/** A download whose length the server does not say: one request, written from the start of the file. */
module UnknownSize {
  import opened Basics
  import opened Wrappers

  datatype Ending = More | Eof | Broken

  /** One Read of the response body, and what happens to its bytes: waiting for the rate limit may fail, and so may
      the write, after some of the bytes have reached the file. */
  datatype Read = Read(data: seq<Byte>, ending: Ending, throttled: bool, failsAfter: Option<nat>)

  /** The bytes reach the file. */
  predicate Lands(r: Read) {
    r.data == [] || (!r.throttled && r.failsAfter.None?)
  }

  /** The response is read to its end and every byte reaches the file. A script that stops short of an end is a
      connection cut by cancellation. */
  predicate Complete(script: seq<Read>) {
    && script != []
    && Lands(script[0])
    && script[0].ending != Broken
    && (script[0].ending == More ==> Complete(script[1..]))
  }

  /** The body the server sent, up to its end. */
  function Body(script: seq<Read>): seq<Byte> {
    if script == [] then []
    else script[0].data + (if script[0].ending == More then Body(script[1..]) else [])
  }

  /** Some bytes reach the file, and are credited, before anything goes wrong. */
  predicate Gets(script: seq<Read>) {
    && script != []
    && if script[0].data != [] then Lands(script[0]) else script[0].ending == More && Gets(script[1..])
  }

  /** When none are: how many a failed write leaves in the emptied file without credit. */
  function Stray(script: seq<Read>): nat {
    if script == [] then 0
    else
      var r := script[0];
      if r.data == [] then (if r.ending == More then Stray(script[1..]) else 0)
      else if r.throttled || r.failsAfter.None? then 0
      else if r.failsAfter.value < |r.data| then r.failsAfter.value else |r.data|
  }

  lemma {:induction false} CompleteGets(script: seq<Read>)
    requires Complete(script) && Body(script) != []
    ensures Gets(script)
  {
    if script[0].data == [] { CompleteGets(script[1..]); }
  }

  lemma CutShort(a: seq<Byte>, d: seq<Byte>, rest: seq<Byte>, k: nat)
    requires k <= |d|
    ensures a <= a + d[..k] <= a + (d + rest)
    ensures (a + d) + rest == a + (d + rest)
  {
    assert (a + (d + rest))[..|a| + k] == a + d[..k];
  }

  class Sequential {
    var file: seq<Byte>
    /** progress.Chunks[0] and the totals beside it: bytes so far, and the size known so far. */
    var downloaded: int
    var sizeSoFar: int
    /** The download's size, once it is known. */
    var totalSize: int
    var status: string
    /** What the progress callback has put on record. */
    var saved: int
    var savedStatus: string

    /** NewDownloader, with the credit on record. */
    constructor (file: seq<Byte>, credit: int)
      ensures this.file == file && downloaded == saved == credit && sizeSoFar == totalSize == 0
      ensures status == savedStatus == "pending"
    {
      this.file, downloaded, saved, sizeSoFar, totalSize := file, credit, credit, 0, 0;
      status, savedStatus := "pending", "pending";
    }

    /** What the loop does with the bytes of one read, appended at the end of the file. */
    method Store(r: Read) returns (landed: bool)
      modifies this`file, this`downloaded, this`sizeSoFar, this`status
      ensures landed <==> Lands(r)
      ensures landed ==> file == old(file) + r.data
      ensures !landed ==> old(file) <= file <= old(file) + r.data
      ensures !landed ==> |file| == |old(file)| + Stray([r])
      ensures landed && r.data != [] ==> downloaded == sizeSoFar == |file| && status == "downloading"
      ensures !landed || r.data == [] ==>
                downloaded == old(downloaded) && sizeSoFar == old(sizeSoFar) && status == old(status)
    {
      if r.data == [] { return true; }
      if r.throttled { return false; }
      if r.failsAfter.Some? {
        var k := Min(r.failsAfter.value, |r.data|);
        CutShort(file, r.data, [], k);
        assert r.data + [] == r.data;
        file := file + r.data[..k];
        return false;
      }
      file := file + r.data;
      downloaded, sizeSoFar := |file|, |file|;
      status := "downloading";
      return true;
    }

    /** startUnknownSize. Whatever the file held before, success leaves exactly the body. A failure credits what is in
        the file, except that the credit of an earlier run stays until bytes land: it outlives the file that was cut.
        */
    method StartUnknownSize(code: int, script: seq<Read>) returns (ok: bool)
      modifies this`file, this`downloaded, this`sizeSoFar, this`totalSize, this`status
      ensures ok <==> 200 <= code < 300 && Complete(script) && Body(script) != []
      ensures ok ==> file == Body(script) && downloaded == sizeSoFar == totalSize == |file|
      ensures ok ==> status == "completed"
      ensures !(200 <= code < 300) ==>
                && file == old(file) && downloaded == old(downloaded)
                && sizeSoFar == old(sizeSoFar) && status == old(status)
      ensures !ok ==> totalSize == old(totalSize)
      ensures 200 <= code < 300 ==> file <= Body(script)
      ensures 200 <= code < 300 && !ok && Gets(script) ==>
                0 < downloaded == sizeSoFar <= |file| && status == "downloading"
      ensures 200 <= code < 300 && !Gets(script) ==>
                && |file| == Stray(script)
                && downloaded == old(downloaded) && sizeSoFar == old(sizeSoFar) && status == old(status)
    {
      if code < 200 || code >= 300 { return false; }
      file := [];
      var total, i := 0, 0;
      var ended := false;
      while !ended && i < |script|
        invariant 0 <= i <= |script| && |file| == total && totalSize == old(totalSize)
        invariant !ended ==> Body(script) == file + Body(script[i..])
        invariant !ended ==> (Complete(script) <==> Complete(script[i..]))
        invariant ended ==> file == Body(script) && Complete(script)
        invariant total == 0 ==> status == old(status) && downloaded == old(downloaded) && sizeSoFar == old(sizeSoFar)
        invariant total == 0 && !ended ==> (Gets(script) <==> Gets(script[i..])) && Stray(script) == Stray(script[i..])
        invariant total == 0 && ended ==> !Gets(script) && Stray(script) == 0
        invariant total > 0 ==> Gets(script) && downloaded == sizeSoFar == total && status == "downloading"
        decreases |script| - i
      {
        var r := script[i];
        assert script[i..][0] == r && script[i..][1..] == script[i + 1..];
        ghost var rest := if r.ending == More then Body(script[i + 1..]) else [];
        assert Body(script[i..]) == r.data + rest;
        ghost var before := file;
        assert before + r.data <= Body(script) && (before + r.data) + rest == Body(script) by {
          CutShort(before, r.data, rest, |r.data|);
          assert r.data[..|r.data|] == r.data;
        }
        var landed := Store(r);
        if !landed { return false; }
        total := total + |r.data|;
        if r.ending == Eof {
          ended := true;
        } else if r.ending == Broken {
          return false;
        }
        i := i + 1;
      }
      if !ended { return false; }
      if total == 0 { return false; }
      totalSize := total;
      status := "completed";
      return true;
    }

    /** Start for a download of unknown size: whatever happened, what it credits goes on record. */
    method Start(code: int, script: seq<Read>, cancelled: bool, synced: bool) returns (ok: bool)
      modifies this
      ensures ok <==> 200 <= code < 300 && Complete(script) && Body(script) != [] && !cancelled && synced
      ensures ok ==> file == Body(script) && saved == totalSize == |file| && savedStatus == "completed"
      ensures saved == downloaded
      ensures 200 <= code < 300 && Complete(script) && Body(script) != [] ==> savedStatus == "completed"
      ensures 200 <= code < 300 && Gets(script) && !(Complete(script) && Body(script) != []) ==> savedStatus == "paused"
      ensures !(200 <= code < 300 && Gets(script)) ==>
                savedStatus == if old(status) == "downloading" || old(status) == "retrying" then "paused"
                               else old(status)
      ensures !(200 <= code < 300) ==> file == old(file) && saved == old(downloaded)
      ensures 200 <= code < 300 && !Gets(script) ==> |file| == Stray(script) && saved == old(downloaded)
      ensures 200 <= code < 300 ==> (saved <= |file| <==> Gets(script) || old(downloaded) <= Stray(script))
    {
      if Complete(script) && Body(script) != [] { CompleteGets(script); }
      var fetched := StartUnknownSize(code, script);
      saved := downloaded;
      savedStatus := if status == "downloading" || status == "retrying" then "paused" else status;
      ok := fetched && !cancelled && synced;
    }
  }

  /** The record outlives the file: two bytes on record, an answer that is cut before its first byte, and afterwards an
      empty file with two bytes on record. */
  method CreditOutlivesFile() returns (d: Sequential)
    ensures fresh(d) && d.saved == 2 && d.file == []
  {
    d := new Sequential([1, 2], 2);
    var script := [Read([], Broken, false, None)];
    var ok := d.Start(200, script, false, true);
    assert Stray(script) == 0 && !Gets(script);
  }
}
