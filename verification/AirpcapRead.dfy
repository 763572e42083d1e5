/**
 Delivering captured packets from a buffer that may outlast a call: what one call leaves, the next
 one takes up.

 The rounding of record lengths is that of airpcap.h, which is not part of this model; it is any
 function that does not make lengths smaller. Which packets the filter accepts, which callbacks ask
 to break the loop, and where the loop finds that someone else has, is left open.
 */
module AirpcapRead {

  type Byte = b: nat | b < 256

  datatype Header = Header(seconds: nat, micros: nat, caplen: nat, hdrlen: nat, originalLen: nat)

  /** What a callback is given: the packet's time stamp, how much of it was captured, how long it was, and its data. */
  datatype Delivery = Delivery(seconds: nat, micros: nat, caplen: nat, len: nat, data: seq<Byte>)

  /** A filled buffer: the headers and the bytes by offset, how many bytes it has, and the filter, which is given the length
      and the data of a packet. */
  datatype Batch = Batch(headers: nat -> Header, octets: nat -> Byte, bytes: nat, filter: (nat, seq<Byte>) -> bool)

  datatype Fetch = Failure | Success(batch: Batch)

  datatype Outcome = Count(n: nat) | Broken | Failed

  /** Every record takes some space. */
  ghost predicate Sound(b: Batch) {
    forall o :: b.headers(o).caplen + b.headers(o).hdrlen > 0
  }

  ghost predicate RoundsUp(align: nat -> nat) {
    forall n: nat :: n <= align(n)
  }

  function After(align: nat -> nat, b: Batch, o: nat): nat {
    o + align(b.headers(o).caplen + b.headers(o).hdrlen)
  }

  /** The data of the record at an offset. */
  function DataAt(b: Batch, o: nat): seq<Byte> {
    var h := b.headers(o);
    seq(h.caplen, i requires 0 <= i => b.octets(o + h.hdrlen + i))
  }

  predicate Accepts(b: Batch, o: nat) {
    b.filter(b.headers(o).originalLen, DataAt(b, o))
  }

  function DeliveryAt(b: Batch, o: nat): Delivery {
    var h := b.headers(o);
    Delivery(h.seconds, h.micros, h.caplen, h.originalLen, DataAt(b, o))
  }

  /** The deliveries due between two offsets. */
  ghost function Pending(align: nat -> nat, b: Batch, o: nat, end: int): seq<Delivery>
    requires Sound(b) && RoundsUp(align)
    decreases end - o
  {
    if o >= end then []
    else (if Accepts(b, o) then [DeliveryAt(b, o)] else []) + Pending(align, b, After(align, b, o), end)
  }

  // ---------------------------------------------------------------------------------------
  // Records laid end to end
  // ---------------------------------------------------------------------------------------

  /** A captured packet, and how long the header is that it is stored with. */
  datatype Record = Record(seconds: nat, micros: nat, len: nat, hdrlen: nat, data: seq<Byte>)

  /** The bytes of data are in the buffer from an offset on. */
  ghost predicate Stored(b: Batch, o: nat, data: seq<Byte>) {
    forall i :: 0 <= i < |data| ==> b.octets(o + i) == data[i]
  }

  /** The buffer has, from o to end, the records and nothing else: each is a header and, after it, the data; and is padded to
      the rounded length. */
  ghost predicate Holds(align: nat -> nat, b: Batch, o: nat, end: int, records: seq<Record>)
    decreases |records|
  {
    if records == [] then o >= end
    else
      var r := records[0];
      && o < end && b.headers(o) == Header(r.seconds, r.micros, |r.data|, r.hdrlen, r.len)
      && Stored(b, o + r.hdrlen, r.data)
      && Holds(align, b, o + align(|r.data| + r.hdrlen), end, records[1..])
  }

  /** What is due for records: each that the filter accepts, with its own time, lengths and data. */
  ghost function Due(filter: (nat, seq<Byte>) -> bool, records: seq<Record>): seq<Delivery> {
    if records == [] then []
    else
      var r := records[0];
      (if filter(r.len, r.data) then [Delivery(r.seconds, r.micros, |r.data|, r.len, r.data)] else []) + Due(filter, records[1..])
  }

  /** The deliveries that are due from a buffer are those due for the records it was filled with. */
  lemma {:induction false} PendingIsDue(align: nat -> nat, b: Batch, o: nat, end: int, records: seq<Record>)
    requires Sound(b) && RoundsUp(align) && Holds(align, b, o, end, records)
    ensures Pending(align, b, o, end) == Due(b.filter, records)
    decreases |records|
  {
    if records != [] {
      assert DataAt(b, o) == records[0].data;
      PendingIsDue(align, b, After(align, b, o), end, records[1..]);
    }
  }

  /** Of what was due, the calls have been made and the rest is pending. */
  ghost predicate Owed(due: seq<Delivery>, calls: seq<Delivery>, align: nat -> nat, b: Batch, o: nat, end: int)
    requires Sound(b) && RoundsUp(align)
  {
    due == calls + Pending(align, b, o, end)
  }

  lemma OwedStep(due: seq<Delivery>, calls: seq<Delivery>, align: nat -> nat, b: Batch, o: nat, end: int)
    requires Sound(b) && RoundsUp(align) && Owed(due, calls, align, b, o, end)
    ensures o >= end ==> due == calls
    ensures o < end ==> After(align, b, o) > o
    ensures o < end ==>
      Owed(due, if Accepts(b, o) then calls + [DeliveryAt(b, o)] else calls, align, b, After(align, b, o), end)
  {
    if o < end {
      var rest := Pending(align, b, After(align, b, o), end);
      assert calls + ([DeliveryAt(b, o)] + rest) == (calls + [DeliveryAt(b, o)]) + rest;
      assert [] + rest == rest;
    }
  }

  lemma OwedRest(due: seq<Delivery>, calls: seq<Delivery>, align: nat -> nat, b: Batch, o: nat, end: int)
    requires Sound(b) && RoundsUp(align) && Owed(due, calls, align, b, o, end)
    ensures due == calls + Pending(align, b, o, o + (end - o)) && (o >= end ==> due == calls)
  {
  }

  lemma OwedAll(align: nat -> nat, b: Batch, o: nat, end: int)
    requires Sound(b) && RoundsUp(align)
    ensures Owed(Pending(align, b, o, end), [], align, b, o, end)
  {
    assert [] + Pending(align, b, o, end) == Pending(align, b, o, end);
  }

  /** The loop, started at offset o, finds that someone else has asked to break it before any packet is delivered. */
  ghost predicate Interrupted(align: nat -> nat, b: Batch, o: nat, end: int, outside: set<nat>)
    requires Sound(b) && RoundsUp(align)
    decreases end - o
  {
    o in outside || (o < end && !Accepts(b, o) && Interrupted(align, b, After(align, b, o), end, outside))
  }

  lemma InterruptedStep(align: nat -> nat, b: Batch, o: nat, end: int, outside: set<nat>)
    requires Sound(b) && RoundsUp(align)
    ensures Interrupted(align, b, o, end, outside) <==>
      o in outside || (o < end && !Accepts(b, o) && Interrupted(align, b, After(align, b, o), end, outside))
  {
  }

  /** The offsets of the records that are due between two offsets. */
  ghost function Offsets(align: nat -> nat, b: Batch, o: nat, end: int): seq<nat>
    requires Sound(b) && RoundsUp(align)
    decreases end - o
  {
    if o >= end then []
    else (if Accepts(b, o) then [o] else []) + Offsets(align, b, After(align, b, o), end)
  }

  /** Of the records due between two offsets, the first n are delivered. The callback of none but the last asks to break the
      loop, and if that of the last does, the loop is broken. */
  ghost predicate Heeds(align: nat -> nat, b: Batch, o: nat, end: int, stops: set<nat>, n: nat, broken: bool)
    requires Sound(b) && RoundsUp(align)
  {
    var due := Offsets(align, b, o, end);
    n <= |due| && (forall i :: 0 <= i < n - 1 ==> due[i] !in stops) && (n > 0 && due[n - 1] in stops ==> broken)
  }

  /** The first n records are delivered, none of them asking to break the loop, and the loop has come to offset at. */
  ghost predicate Unasked(align: nat -> nat, b: Batch, o: nat, end: int, stops: set<nat>, n: nat, at: nat)
    requires Sound(b) && RoundsUp(align)
  {
    Heeds(align, b, o, end, stops, n, false) && Offsets(align, b, o, end)[n..] == Offsets(align, b, at, end)
  }

  lemma UnaskedStart(align: nat -> nat, b: Batch, o: nat, end: int, stops: set<nat>)
    requires Sound(b) && RoundsUp(align)
    ensures Unasked(align, b, o, end, stops, 0, o) && Heeds(align, b, o, end, stops, 0, true) && Heeds(align, b, o, end, stops, 0, false)
  {
  }

  lemma UnaskedStep(align: nat -> nat, b: Batch, o: nat, end: int, stops: set<nat>, n: nat, at: nat)
    requires Sound(b) && RoundsUp(align) && Unasked(align, b, o, end, stops, n, at)
    ensures Heeds(align, b, o, end, stops, n, true) && Heeds(align, b, o, end, stops, n, false)
    ensures at < end && !Accepts(b, at) ==> Unasked(align, b, o, end, stops, n, After(align, b, at))
    ensures at < end && Accepts(b, at) ==> Heeds(align, b, o, end, stops, n + 1, at in stops)
    ensures at < end && Accepts(b, at) && at !in stops ==> Unasked(align, b, o, end, stops, n + 1, After(align, b, at))
  {
    var due := Offsets(align, b, o, end);
    if at < end && Accepts(b, at) {
      assert due[n] == due[n..][0] == at;
      assert due[n + 1..] == due[n..][1..] == Offsets(align, b, After(align, b, at), end);
    }
  }

  /** No one asks to break the loop in the first n calls. */
  ghost predicate Undisturbed(stops: seq<set<nat>>, outside: seq<set<nat>>, n: nat)
    requires n <= |stops| == |outside|
  {
    forall i :: 0 <= i < n ==> stops[i] == {} && outside[i] == {}
  }

  lemma UndisturbedAt(stops: seq<set<nat>>, outside: seq<set<nat>>, n: nat)
    requires n < |stops| == |outside|
    ensures Undisturbed(stops, outside, n + 1) <==> Undisturbed(stops, outside, n) && stops[n] + outside[n] == {} && outside[n] == {}
  {
  }

  class Capture {
    const align: nat -> nat
    var batch: Batch
    var bp: nat
    var cc: int
    var breakLoop: bool

    constructor (rounding: nat -> nat, empty: Batch)
      requires RoundsUp(rounding) && Sound(empty)
      ensures Valid() && Rest() == [] && cc == 0 && !breakLoop
    {
      align, batch, bp, cc, breakLoop := rounding, empty, 0, 0, false;
    }

    ghost predicate Valid()
      reads this
    {
      RoundsUp(align) && Sound(batch)
    }

    /** What is left in the buffer. */
    ghost function Rest(): seq<Delivery>
      reads this
      requires Valid()
    {
      Pending(align, batch, bp, bp + cc)
    }

    /** Goes through the records from offset o until it finds that someone has asked to break the loop, cnt packets have
        been delivered, or the records are exhausted. Callbacks for the offsets in stops ask to break the loop; someone else
        has asked when the loop comes to an offset in outside. */
    method Scan(o: nat, end: int, cnt: int, stops: set<nat>, outside: set<nat>) returns (at: nat, calls: seq<Delivery>, exhausted: bool)
      requires Valid()
      modifies this`breakLoop
      ensures Valid() && Owed(Pending(align, batch, o, end), calls, align, batch, at, end)
      ensures exhausted ==> at >= end && !breakLoop
      ensures !exhausted ==> breakLoop || (cnt > 0 && |calls| == cnt)
      ensures !exhausted && calls == [] <==> old(breakLoop) || Interrupted(align, batch, o, end, outside)
      ensures (cnt > 0 ==> |calls| <= cnt) && (breakLoop ==> old(breakLoop) || stops + outside != {})
      ensures Heeds(align, batch, o, end, stops, |calls|, breakLoop)
    {
      hide Pending, Sound, RoundsUp, Owed, DeliveryAt, After, Interrupted, Heeds, Unasked, Offsets, Accepts;
      at, calls := o, [];
      ghost var due := Pending(align, batch, o, end);
      OwedAll(align, batch, o, end);
      UnaskedStart(align, batch, o, end, stops);
      while true
        invariant Valid() && (cnt > 0 ==> |calls| < cnt)
        invariant Owed(due, calls, align, batch, at, end) && Heeds(align, batch, o, end, stops, |calls|, breakLoop)
        invariant !breakLoop ==> Unasked(align, batch, o, end, stops, |calls|, at)
        invariant breakLoop ==> old(breakLoop) || stops + outside != {}
        invariant calls == [] ==> breakLoop == old(breakLoop) && Interrupted(align, batch, at, end, outside) == Interrupted(align, batch, o, end, outside)
        invariant calls != [] ==> !old(breakLoop) && !Interrupted(align, batch, o, end, outside)
        decreases end - at
      {
        InterruptedStep(align, batch, at, end, outside);
        if !breakLoop { UnaskedStep(align, batch, o, end, stops, |calls|, at); }
        if at in outside { breakLoop := true; }
        if breakLoop { return at, calls, false; }
        OwedStep(due, calls, align, batch, at, end);
        if at >= end { return at, calls, true; }
        if Accepts(batch, at) {
          calls := calls + [DeliveryAt(batch, at)];
          if at in stops { breakLoop := true; }
          at := After(align, batch, at);
          if |calls| >= cnt && !(cnt <= 0) { return at, calls, false; }
        } else {
          at := After(align, batch, at);
        }
      }
    }

    /** Delivers from offset o to end, and remembers where it stopped; but if it delivered nothing, because someone had asked
        to break the loop, it leaves everything as it was. */
    method Walk(o: nat, end: int, cnt: int, stops: set<nat>, outside: set<nat>) returns (r: Outcome, calls: seq<Delivery>)
      requires Valid()
      modifies this`bp, this`cc, this`breakLoop
      ensures Valid()
      ensures r == Broken <==> old(breakLoop) || Interrupted(align, batch, o, end, outside)
      ensures r == Broken ==> calls == [] && !breakLoop && bp == old(bp) && cc == old(cc)
      ensures r != Broken ==> r == Count(|calls|) && Pending(align, batch, o, end) == calls + Rest()
      ensures r != Broken ==> Heeds(align, batch, o, end, stops, |calls|, breakLoop)
      ensures cnt > 0 ==> |calls| <= cnt
      ensures r != Broken && cc != 0 ==> breakLoop || (cnt > 0 && |calls| == cnt)
      ensures breakLoop ==> stops + outside != {}
    {
      hide Pending, Sound, RoundsUp, Owed, Interrupted, Heeds;
      ghost var due := Pending(align, batch, o, end);
      var at, exhausted;
      at, calls, exhausted := Scan(o, end, cnt, stops, outside);
      if !exhausted && calls == [] {
        breakLoop := false;
        return Broken, [];
      }
      OwedRest(due, calls, align, batch, at, end);
      if exhausted {
        cc := 0;
        NothingLeft(align, batch, bp, calls);
      } else {
        bp, cc := at, end - at;
      }
      return Count(|calls|), calls;
    }

    /** One call. waiting says whether someone asks to break the loop while it waits for packets and reads them. What it
        delivers and what it leaves is, together, what was in the buffer, or what it has just read; except that what it has
        just read is lost if someone asks to break the loop before the first packet of it is delivered. */
    method Read(cnt: int, fetch: Fetch, waiting: bool, stops: set<nat>, outside: set<nat>) returns (r: Outcome, calls: seq<Delivery>)
      requires Valid() && (fetch.Success? ==> Sound(fetch.batch))
      modifies this`batch, this`bp, this`cc, this`breakLoop
      ensures Valid()
      ensures old(breakLoop) ==> r == Broken && calls == [] && !breakLoop && Rest() == old(Rest())
      ensures !old(breakLoop) && old(cc) == 0 && fetch == Failure ==> r == Failed && calls == [] && cc == 0 && breakLoop == waiting
      ensures !old(breakLoop) && old(cc) != 0 ==>
        && (r == Broken <==> Interrupted(align, old(batch), old(bp), old(bp) + old(cc), outside))
        && (r != Broken ==> Heeds(align, old(batch), old(bp), old(bp) + old(cc), stops, |calls|, breakLoop))
        && calls + Rest() == old(Rest())
      ensures !old(breakLoop) && old(cc) == 0 && fetch.Success? ==>
        && (r == Broken <==> waiting || Interrupted(align, fetch.batch, 0, fetch.batch.bytes, outside))
        && (r != Broken ==> Heeds(align, fetch.batch, 0, fetch.batch.bytes, stops, |calls|, breakLoop))
        && calls + Rest() == (if r == Broken then [] else Pending(align, fetch.batch, 0, fetch.batch.bytes))
      ensures !old(breakLoop) && (old(cc) != 0 || fetch.Success?) && r != Broken ==>
        r == Count(|calls|) && (cc != 0 ==> breakLoop || (cnt > 0 && |calls| == cnt))
      ensures r == Broken ==> calls == [] && !breakLoop && cc == old(cc)
      ensures cnt > 0 ==> |calls| <= cnt
      ensures breakLoop ==> waiting || stops + outside != {}
    {
      hide Pending, Sound, RoundsUp, Interrupted, Heeds;
      if cc == 0 {
        if breakLoop {
          breakLoop := false;
          return Broken, [];
        }
        if waiting { breakLoop := true; }
        if fetch == Failure { return Failed, []; }
        batch := fetch.batch;
        r, calls := Walk(0, batch.bytes, cnt, stops, outside);
        NothingLeft(align, batch, bp, calls);
      } else {
        NothingBefore(Rest());
        r, calls := Walk(bp, bp + cc, cnt, stops, outside);
      }
    }

    /** Successive calls on one buffer, with whatever limits and breaks, until it is used up or the
        calls run out: together they deliver what was in the buffer, each packet once and in order. */
    method ReadOn(cnts: seq<int>, stops: seq<set<nat>>, outside: seq<set<nat>>) returns (all: seq<Delivery>)
      requires Valid() && |stops| == |outside| == |cnts|
      modifies this`batch, this`bp, this`cc, this`breakLoop
      ensures Valid() && all + Rest() == old(Rest())
      ensures Undisturbed(stops, outside, |cnts|) && !old(breakLoop) && |cnts| > |old(Rest())| ==> all == old(Rest())
    {
      hide Pending, Sound, RoundsUp, Interrupted, Undisturbed;
      all := [];
      var i := 0;
      NothingBefore(Rest());
      while i < |cnts| && cc != 0
        invariant Valid() && i <= |cnts| && all + Rest() == old(Rest())
        invariant Undisturbed(stops, outside, i) && !old(breakLoop) ==> !breakLoop
        invariant Undisturbed(stops, outside, i) && !old(breakLoop) && cc != 0 ==> |all| >= i
      {
        ghost var rest, before := Rest(), all;
        UndisturbedAt(stops, outside, i);
        NeverInterrupted(align, batch, bp, bp + cc, outside[i]);
        var r, calls := Read(cnts[i], Failure, false, stops[i], outside[i]);
        all := all + calls;
        assert (before + calls) + Rest() == before + (calls + Rest());
        i := i + 1;
      }
      if cc == 0 { NothingLeft(align, batch, bp, all); }
    }
  }

  /** If no one else ever asks, the loop is not interrupted. */
  lemma {:induction false} NeverInterrupted(align: nat -> nat, b: Batch, o: nat, end: int, outside: set<nat>)
    requires Sound(b) && RoundsUp(align)
    ensures outside == {} ==> !Interrupted(align, b, o, end, outside)
    decreases end - o
  {
    if o < end { NeverInterrupted(align, b, After(align, b, o), end, outside); }
  }

  lemma NothingBefore(rest: seq<Delivery>)
    ensures [] + rest == rest
  {
  }

  lemma NothingLeft(align: nat -> nat, b: Batch, o: nat, calls: seq<Delivery>)
    requires Sound(b) && RoundsUp(align)
    ensures Pending(align, b, o, o + 0) == [] && calls + Pending(align, b, o, o + 0) == calls
  {
  }
}
