/**
 Converting UTF-16 to UTF-8 into a buffer of limited size, stopping at a character boundary.

 Bytes and 16-bit units are numbers. The masks and ors of the encoder touch disjoint bits, so they
 are written as remainders and sums.
 */
module Utf8 {

  type Byte = b: nat | b < 256

  /** A unit of a NUL-terminated UTF-16 string. */
  type Unit = u: nat | 0 < u < 0x1_0000 witness 1

  const REPLACEMENT: nat := 0xFFFD

  predicate Leading(u: nat) {
    0xD800 <= u < 0xDC00
  }

  predicate Trailing(u: nat) {
    0xDC00 <= u < 0xE000
  }

  /** Unicode scalar values other than NUL. */
  predicate Scalar(c: nat) {
    0 < c < 0x11_0000 && !Leading(c) && !Trailing(c)
  }

  // ---------------------------------------------------------------------------------------
  // What the input says and what the output should be
  // ---------------------------------------------------------------------------------------

  /** The code point a pair stands for. */
  function PairValue(lead: nat, trail: nat): (c: nat)
    requires Leading(lead) && Trailing(trail)
    ensures 0x1_0000 <= c < 0x11_0000
  {
    (lead - 0xD800) * 0x400 + (trail - 0xDC00) + 0x1_0000
  }

  /** The code point a string begins with, and how many units it takes. A unit that is half of a
      pair stands for a replacement character; a leading half swallows the unit after it. */
  function First(s: seq<Unit>): (r: (nat, nat))
    requires s != []
    ensures 0 < r.1 <= |s| && Scalar(r.0) && r.0 < 0x11_0000
  {
    if Leading(s[0]) then
      if |s| == 1 then (REPLACEMENT, 1)
      else if Trailing(s[1]) then (PairValue(s[0], s[1]), 2)
      else (REPLACEMENT, 2)
    else if Trailing(s[0]) then (REPLACEMENT, 1)
    else (s[0], 1)
  }

  ghost function CodePoints(s: seq<Unit>): seq<nat> {
    if s == [] then [] else [First(s).0] + CodePoints(s[First(s).1..])
  }

  /** The encoding of section 2.1 of RFC 2781. */
  function UnitsOf(c: nat): (us: seq<Unit>)
    requires Scalar(c)
    ensures 1 <= |us| <= 2
  {
    if c < 0x1_0000 then [c] else [0xD800 + (c - 0x1_0000) / 0x400, 0xDC00 + (c - 0x1_0000) % 0x400]
  }

  ghost function Utf16(cs: seq<nat>): seq<Unit>
    requires Scalars(cs)
  {
    if cs == [] then [] else UnitsOf(cs[0]) + Utf16(cs[1..])
  }

  lemma FirstOf(c: nat, rest: seq<Unit>)
    requires Scalar(c)
    ensures First(UnitsOf(c) + rest) == (c, |UnitsOf(c)|)
  {
  }

  /** A code point is read from the units it is made of, whatever follows. */
  lemma CodePointsNext(c: nat, rest: seq<Unit>)
    requires Scalar(c)
    ensures CodePoints(UnitsOf(c) + rest) == [c] + CodePoints(rest)
  {
    FirstOf(c, rest);
    hide First, UnitsOf, Scalar;
    assert (UnitsOf(c) + rest)[|UnitsOf(c)|..] == rest;
  }

  /** A text is read as the code points it was made of, whatever follows. */
  lemma {:induction false} CodePointsThen(cs: seq<nat>, more: seq<Unit>)
    requires Scalars(cs)
    ensures CodePoints(Utf16(cs) + more) == cs + CodePoints(more)
  {
    hide First, UnitsOf, Scalar, CodePoints;
    if cs == [] {
      assert Utf16(cs) + more == more;
    } else {
      var rest := Utf16(cs[1..]) + more;
      CodePointsNext(cs[0], rest);
      CodePointsThen(cs[1..], more);
      assert Utf16(cs) + more == UnitsOf(cs[0]) + rest;
      assert [cs[0]] + (cs[1..] + CodePoints(more)) == cs + CodePoints(more);
    }
  }

  /** Reading a text gives back the code points it was made of. */
  lemma CodePointsOf(cs: seq<nat>)
    requires Scalars(cs)
    ensures CodePoints(Utf16(cs)) == cs
  {
    CodePointsThen(cs, []);
    assert Utf16(cs) + [] == Utf16(cs);
  }

  /** A half of a pair that is alone, between two texts, is read as a replacement character; and if it is a leading half, the
      unit after it is lost. */
  lemma LoneHalf(cs: seq<nat>, half: Unit, lost: seq<Unit>, ds: seq<nat>)
    requires Scalars(cs) && Scalars(ds) && (Trailing(half) || Leading(half))
    requires if Trailing(half) then lost == [] else |lost| == 1 && !Trailing(lost[0])
    ensures CodePoints(Utf16(cs) + ([half] + lost + Utf16(ds))) == cs + [REPLACEMENT] + ds
  {
    var more := [half] + lost + Utf16(ds);
    CodePointsThen(cs, more);
    CodePointsOf(ds);
    hide Utf16;
    assert more[1 + |lost|..] == Utf16(ds);
    assert CodePoints(more) == [REPLACEMENT] + ds;
    assert cs + ([REPLACEMENT] + ds) == cs + [REPLACEMENT] + ds;
  }

  /** At the end of the text a leading half is read as a replacement character. */
  lemma LastHalf(cs: seq<nat>, half: Unit)
    requires Scalars(cs) && Leading(half)
    ensures CodePoints(Utf16(cs) + [half]) == cs + [REPLACEMENT]
  {
    CodePointsThen(cs, [half]);
    hide Utf16;
    assert CodePoints([half]) == [REPLACEMENT];
  }

  /** The unit at i, if it is half of a pair, has its other half. */
  ghost predicate PairedAt(s: seq<Unit>, i: nat)
    requires i < |s|
  {
    && (Leading(s[i]) ==> i + 1 < |s| && Trailing(s[i + 1]))
    && (Trailing(s[i]) ==> i > 0 && Leading(s[i - 1]))
  }

  /** Every half of a pair has its other half. */
  ghost predicate Paired(s: seq<Unit>) {
    forall i :: 0 <= i < |s| ==> PairedAt(s, i)
  }

  /** Units that stand for a code point can be taken away. */
  lemma PairedLater(s: seq<Unit>, n: nat, i: nat)
    requires 0 < n <= i < |s| && !Leading(s[n - 1])
    ensures PairedAt(s, i) <==> PairedAt(s[n..], i - n)
  {
  }

  lemma PairedFirst(s: seq<Unit>)
    requires s != []
    ensures Paired(s) <==> UnitsOf(First(s).0) == s[..First(s).1] && Paired(s[First(s).1..])
  {
    var c, n := First(s).0, First(s).1;
    assert PairedAt(s, 0) && (n == 2 ==> PairedAt(s, 1)) <==> UnitsOf(c) == s[..n] by { FirstWhole(s); }
    if UnitsOf(c) == s[..n] {
      assert !Leading(s[n - 1]) by { FirstWhole(s); }
      hide First, UnitsOf, PairedAt;
      forall i | n <= i < |s| ensures PairedAt(s, i) <==> PairedAt(s[n..], i - n) { PairedLater(s, n, i); }
      assert forall i :: 0 <= i < |s[n..]| ==> PairedAt(s[n..], i) == PairedAt(s, i + n);
    }
  }

  /** The units that are read as one code point. */
  lemma FirstWhole(s: seq<Unit>)
    requires s != []
    ensures var (c, n) := First(s);
      && (UnitsOf(c) == s[..n] <==> PairedAt(s, 0) && (n == 2 ==> PairedAt(s, 1)))
      && (UnitsOf(c) == s[..n] ==> !Leading(s[n - 1]))
  {
    var (c, n) := First(s);
    assert s[..n] == if n == 1 then [s[0]] else [s[0], s[1]];
  }

  /** A text can be had back from the code points it is read as exactly if it has no half of a pair alone. */
  lemma {:induction false} PairedExactly(s: seq<Unit>)
    ensures Scalars(CodePoints(s)) && (Utf16(CodePoints(s)) == s <==> Paired(s))
  {
    CodePointsScalar(s);
    if s != [] {
      var c, n := First(s).0, First(s).1;
      PairedExactly(s[n..]);
      PairedFirst(s);
      var us, rest := UnitsOf(c), Utf16(CodePoints(s[n..]));
      assert CodePoints(s)[1..] == CodePoints(s[n..]);
      hide Paired, CodePoints;
      assert s == s[..n] + s[n..];
      if us + rest == s {
        SwallowedFirst(s, rest);
        assert us == s[..n] && rest == s[n..];
      }
    }
  }

  /** What stands for the first code point begins a text only if it takes as many units. */
  lemma SwallowedFirst(s: seq<Unit>, rest: seq<Unit>)
    requires s != [] && UnitsOf(First(s).0) + rest == s
    ensures |UnitsOf(First(s).0)| == First(s).1
  {
    assert (UnitsOf(First(s).0) + rest)[0] == UnitsOf(First(s).0)[0];
  }

  /** The encoding of section 3 of RFC 3629. */
  function Encoding(c: nat): (bs: seq<Byte>)
    requires c < 0x11_0000
    ensures 1 <= |bs| <= 4
  {
    if c < 0x80 then [c]
    else if c < 0x800 then [0xC0 + c / 0x40, 0x80 + c % 0x40]
    else if c < 0x1_0000 then [0xE0 + c / 0x1000, 0x80 + c / 0x40 % 0x40, 0x80 + c % 0x40]
    else [0xF0 + c / 0x4_0000, 0x80 + c / 0x1000 % 0x40, 0x80 + c / 0x40 % 0x40, 0x80 + c % 0x40]
  }

  ghost predicate Scalars(cs: seq<nat>) {
    forall i :: 0 <= i < |cs| ==> Scalar(cs[i])
  }

  ghost function Encodings(cs: seq<nat>): seq<Byte>
    requires Scalars(cs)
  {
    if cs == [] then [] else Encodings(cs[..|cs| - 1]) + Encoding(cs[|cs| - 1])
  }

  /** What the code writes for a code point. In the four-byte form the lead byte keeps two bits
      only. */
  function Emitted(c: nat): (bs: seq<Byte>)
    requires c < 0x11_0000
    ensures |bs| == |Encoding(c)|
  {
    if c < 0x80 then [c]
    else if c < 0x800 then [0xC0 + c / 0x40 % 0x40, 0x80 + c % 0x40]
    else if c < 0x1_0000 then [0xE0 + c / 0x1000 % 0x10, 0x80 + c / 0x40 % 0x40, 0x80 + c % 0x40]
    else [0xF0 + c / 0x4_0000 % 4, 0x80 + c / 0x1000 % 0x40, 0x80 + c / 0x40 % 0x40, 0x80 + c % 0x40]
  }

  /** By how much the code lowers the room left: four bytes count as three. */
  function Charged(c: nat): nat
    requires c < 0x11_0000
  {
    if |Encoding(c)| == 4 then 3 else |Encoding(c)|
  }

  /** The code writes the right bytes for exactly the code points below plane 16. */
  lemma EmittedIsEncoding(c: nat)
    requires c < 0x11_0000
    ensures Emitted(c) == Encoding(c) <==> c < 0x10_0000
  {
    if c >= 0x10_0000 {
      assert c / 0x4_0000 == 4;
      assert Emitted(c)[0] != Encoding(c)[0];
    }
  }

  ghost function EmittedAll(cs: seq<nat>): seq<Byte>
    requires Scalars(cs)
  {
    if cs == [] then [] else EmittedAll(cs[..|cs| - 1]) + Emitted(cs[|cs| - 1])
  }

  // ---------------------------------------------------------------------------------------
  // The conversion
  // ---------------------------------------------------------------------------------------

  /** The room the code believes is left after the first k code points. */
  ghost function RoomLeft(cs: seq<nat>, room: int, k: nat): int
    requires Scalars(cs) && k <= |cs|
  {
    if k == 0 then room else RoomLeft(cs, room, k - 1) - Charged(cs[k - 1])
  }

  /** The code writes the first k code points: each of them leaves room for a NUL, as far as the
      code can tell, and the next one, if any, does not. */
  ghost predicate Stops(cs: seq<nat>, room: nat, k: nat)
    requires Scalars(cs)
  {
    && k <= |cs|
    && Written(cs, room, k)
    && (k < |cs| ==> RoomLeft(cs, room, k) <= |Encoding(cs[k])|)
  }

  lemma {:induction false} CodePointsScalar(s: seq<Unit>)
    ensures Scalars(CodePoints(s))
  {
    if s != [] { CodePointsScalar(s[First(s).1..]); }
  }

  /** Converts a string. out is what is written from the start of the buffer on. */
  method Convert(s: seq<Unit>, room: nat) returns (out: seq<Byte>, ghost k: nat)
    ensures Scalars(CodePoints(s)) && k <= |CodePoints(s)|
    ensures room == 0 ==> out == []
    ensures room > 0 ==> Stops(CodePoints(s), room, k) && out == EmittedAll(CodePoints(s)[..k]) + [0]
  {
    hide Encoding, Emitted, First, Charged, CodePoints, Scalars, Converting, Stops, EmittedAll;
    ghost var cs := CodePoints(s);
    CodePointsScalar(s);
    k := 0;
    if room == 0 { return [], 0; }
    var left: int := room;
    out := [];
    var i := 0;
    ConvertStart(s, room);
    while i < |s|
      invariant i <= |s| && k <= |cs| && Converting(s, room, i, k, out, left)
    {
      var (c, taken) := First(s[i..]);
      ConvertStep(s, room, i, k, out, left);
      if left <= |Emitted(c)| { break; }
      out := out + Emitted(c);
      left := left - Charged(c);
      i := i + taken;
      k := k + 1;
    }
    ConvertEnd(s, room, i, k, out, left);
    out := out + [0];
  }

  /** Each of the first k code points left room for a NUL, as far as the code could tell. */
  ghost predicate Written(cs: seq<nat>, room: nat, k: nat)
    requires Scalars(cs) && k <= |cs|
  {
    forall i :: 0 <= i < k ==> RoomLeft(cs, room, i) > |Encoding(cs[i])|
  }

  /** Having read i units, the code has written k code points. */
  ghost predicate Converting(s: seq<Unit>, room: nat, i: nat, k: nat, out: seq<Byte>, left: int)
    requires Scalars(CodePoints(s)) && i <= |s| && k <= |CodePoints(s)|
  {
    var cs := CodePoints(s);
    cs[k..] == CodePoints(s[i..]) && out == EmittedAll(cs[..k]) && left == RoomLeft(cs, room, k) && Written(cs, room, k)
  }

  lemma ConvertStart(s: seq<Unit>, room: nat)
    requires Scalars(CodePoints(s))
    ensures Converting(s, room, 0, 0, [], room)
  {
    assert s[0..] == s && CodePoints(s)[0..] == CodePoints(s);
  }

  lemma ConvertStep(s: seq<Unit>, room: nat, i: nat, k: nat, out: seq<Byte>, left: int)
    requires Scalars(CodePoints(s)) && i < |s| && k <= |CodePoints(s)| && Converting(s, room, i, k, out, left)
    ensures k < |CodePoints(s)|
    ensures var (c, taken) := First(s[i..]);
      if left <= |Encoding(c)| then Stops(CodePoints(s), room, k)
      else i + taken <= |s| && Converting(s, room, i + taken, k + 1, out + Emitted(c), left - Charged(c))
  {
    hide Encoding, Emitted, Charged, First, Scalar;
    var cs, taken := CodePoints(s), First(s[i..]).1;
    assert cs[k] == cs[k..][0] == First(s[i..]).0;
    assert s[i..][taken..] == s[i + taken..];
    assert cs[k..][1..] == cs[k + 1..];
    assert cs[..k + 1][..k] == cs[..k];
  }

  lemma ConvertEnd(s: seq<Unit>, room: nat, i: nat, k: nat, out: seq<Byte>, left: int)
    requires Scalars(CodePoints(s)) && i <= |s| && k <= |CodePoints(s)| && Converting(s, room, i, k, out, left)
    ensures out == EmittedAll(CodePoints(s)[..k]) && (i == |s| ==> Stops(CodePoints(s), room, k))
  {
  }

  // ---------------------------------------------------------------------------------------
  // Staying within the buffer
  // ---------------------------------------------------------------------------------------

  /** Only the last code point may need four bytes. */
  ghost predicate NoEarlyPair(cs: seq<nat>) {
    forall i :: 0 <= i < |cs| - 1 ==> cs[i] < 0x1_0000
  }

  /** Without four-byte forms the room the code believes is left is the room that is left. */
  lemma {:induction false} RoomIsLeft(cs: seq<nat>, room: int, k: nat)
    requires Scalars(cs) && k <= |cs| && forall i :: 0 <= i < k ==> cs[i] < 0x1_0000
    ensures |EmittedAll(cs[..k])| == |Encodings(cs[..k])| == room - RoomLeft(cs, room, k)
  {
    if k > 0 {
      RoomIsLeft(cs, room, k - 1);
      assert cs[..k][..k - 1] == cs[..k - 1];
    }
  }

  lemma EmittedStep(cs: seq<nat>, k: nat)
    requires Scalars(cs) && k < |cs|
    ensures |EmittedAll(cs[..k + 1])| == |EmittedAll(cs[..k])| + |Encoding(cs[k])|
    ensures |Encodings(cs[..k + 1])| == |Encodings(cs[..k])| + |Encoding(cs[k])|
  {
    assert cs[..k + 1][..k] == cs[..k];
  }

  /** If no code point but perhaps the last needs four bytes, the output and its NUL fit. */
  lemma OutputFits(cs: seq<nat>, room: nat, k: nat)
    requires Scalars(cs) && room > 0 && Stops(cs, room, k) && NoEarlyPair(cs)
    ensures |EmittedAll(cs[..k])| + 1 <= room
  {
    if k > 0 {
      RoomIsLeft(cs, room, k - 1);
      EmittedStep(cs, k - 1);
    }
  }

  /** The longest start of the text that fits is what is written. */
  lemma OutputLongest(cs: seq<nat>, room: nat, k: nat)
    requires Scalars(cs) && room > 0 && Stops(cs, room, k) && forall i :: 0 <= i < |cs| ==> cs[i] < 0x1_0000
    ensures |Encodings(cs[..k])| + 1 <= room
    ensures forall j :: k < j <= |cs| ==> |Encodings(cs[..j])| + 1 > room
  {
    hide Encoding, Emitted, Encodings, EmittedAll, RoomLeft;
    RoomIsLeft(cs, room, k);
    OutputFits(cs, room, k);
    forall j | k < j <= |cs| ensures |Encodings(cs[..j])| + 1 > room {
      EmittedStep(cs, k);
      LongerIsLonger(cs, k + 1, j);
    }
  }

  lemma {:induction false} LongerIsLonger(cs: seq<nat>, i: nat, j: nat)
    requires Scalars(cs) && i <= j <= |cs|
    ensures |Encodings(cs[..i])| <= |Encodings(cs[..j])| && |EmittedAll(cs[..i])| <= |EmittedAll(cs[..j])|
    decreases j
  {
    hide Encoding, Emitted, Encodings, EmittedAll;
    if i < j {
      LongerIsLonger(cs, i, j - 1);
      EmittedStep(cs, j - 1);
    }
  }

  /** Where the code stops, whatever the room. */
  lemma {:induction false} StopsSomewhere(cs: seq<nat>, room: nat, k: nat) returns (n: nat)
    requires Scalars(cs) && k <= |cs| && Written(cs, room, k)
    ensures k <= n && Stops(cs, room, n)
    decreases |cs| - k
  {
    hide Encoding, RoomLeft;
    if k == |cs| || RoomLeft(cs, room, k) <= |Encoding(cs[k])| { n := k; }
    else { n := StopsSomewhere(cs, room, k + 1); }
  }

  /** If a code point that is not the last needs four bytes, some buffer is overrun. */
  lemma OutputOverruns(cs: seq<nat>, i: nat) returns (room: nat, k: nat)
    requires Scalars(cs) && i + 1 < |cs| && cs[i] >= 0x1_0000 && forall j :: 0 <= j < i ==> cs[j] < 0x1_0000
    ensures room > 0 && Stops(cs, room, k) && |EmittedAll(cs[..k])| + 1 > room
  {
    room := |EmittedAll(cs[..i])| + 4 + |Encoding(cs[i + 1])|;
    LongForm(cs[i]);
    hide Encoding, Emitted, EmittedAll, Encodings, RoomLeft;
    forall j | 0 <= j < i + 2 ensures RoomLeft(cs, room, j) > |Encoding(cs[j])| {
      RoomBefore(cs, room, i, j);
    }
    k := StopsSomewhere(cs, room, i + 2);
    EmittedStep(cs, i);
    EmittedStep(cs, i + 1);
    LongerIsLonger(cs, i + 2, k);
  }

  lemma LongForm(c: nat)
    requires 0x1_0000 <= c < 0x11_0000
    ensures |Encoding(c)| == 4 && Charged(c) == 3
  {
  }

  lemma RoomBefore(cs: seq<nat>, room: nat, i: nat, j: nat)
    requires Scalars(cs) && i + 1 < |cs| && cs[i] >= 0x1_0000 && forall j :: 0 <= j < i ==> cs[j] < 0x1_0000
    requires room == |EmittedAll(cs[..i])| + 4 + |Encoding(cs[i + 1])| && j < i + 2
    ensures RoomLeft(cs, room, j) > |Encoding(cs[j])|
  {
    hide Encoding, Emitted, EmittedAll, Encodings;
    LongForm(cs[i]);
    if j <= i {
      RoomIsLeft(cs, room, j);
      LongerIsLonger(cs, j, i);
      EmittedStep(cs, j);
      if j < i { LongerIsLonger(cs, j + 1, i); }
    } else {
      RoomIsLeft(cs, room, i);
      assert RoomLeft(cs, room, i + 1) == RoomLeft(cs, room, i) - 3;
    }
  }

  /** The output stays within every buffer exactly if no code point but the last needs four bytes. */
  lemma FitsExactly(cs: seq<nat>)
    requires Scalars(cs)
    ensures (forall room: nat, k: nat :: room > 0 && Stops(cs, room, k) ==> |EmittedAll(cs[..k])| + 1 <= room) <==> NoEarlyPair(cs)
  {
    if NoEarlyPair(cs) {
      forall room: nat, k: nat | room > 0 && Stops(cs, room, k) ensures |EmittedAll(cs[..k])| + 1 <= room {
        OutputFits(cs, room, k);
      }
    } else {
      var i := FirstPair(cs, 0);
      var room, k := OutputOverruns(cs, i);
    }
  }

  /** A pair and a letter, for which the code writes five bytes and a NUL into five. */
  function PairAndLetter(): seq<Unit> {
    [0xD800, 0xDC00, 0x41]
  }

  lemma PairAndLetterStops(k: nat)
    ensures CodePoints(PairAndLetter()) == [0x1_0000, 0x41] && Scalars(CodePoints(PairAndLetter()))
    ensures Stops(CodePoints(PairAndLetter()), 5, k) <==> k == 2
    ensures |EmittedAll(CodePoints(PairAndLetter())[..2])| == 5
  {
    var s, cs := PairAndLetter(), [0x1_0000, 0x41];
    assert s[2..] == [0x41] && s[2..][1..] == [];
    assert CodePoints(s[2..]) == [0x41];
    assert CodePoints(s) == cs;
    assert |Encoding(0x1_0000)| == 4 && |Encoding(0x41)| == 1;
    assert RoomLeft(cs, 5, 0) == 5 && RoomLeft(cs, 5, 1) == 2;
    assert cs[..2] == cs && cs[..2][..1] == [0x1_0000] && [0x1_0000][..0] == [];
    assert |EmittedAll([0x1_0000])| == 4;
  }

  /** The output and its NUL are one byte longer than the buffer. */
  method OverrunByOne() returns (out: seq<Byte>)
    ensures |out| == 6
  {
    ghost var k;
    out, k := Convert(PairAndLetter(), 5);
    PairAndLetterStops(k);
  }

  lemma {:induction false} FirstPair(cs: seq<nat>, n: nat) returns (i: nat)
    requires !NoEarlyPair(cs) && n < |cs| && forall j :: 0 <= j < n ==> cs[j] < 0x1_0000
    ensures i + 1 < |cs| && cs[i] >= 0x1_0000 && forall j :: 0 <= j < i ==> cs[j] < 0x1_0000
    decreases |cs| - n
  {
    if cs[n] >= 0x1_0000 { i := n; } else { i := FirstPair(cs, n + 1); }
  }

  // ---------------------------------------------------------------------------------------
  // Decoding
  // ---------------------------------------------------------------------------------------

  datatype Option<T> = None | Some(value: T)

  predicate Continues(bs: seq<Byte>, n: nat) {
    |bs| >= n && forall i :: 1 <= i < n ==> 0x80 <= bs[i] < 0xC0
  }

  /** The code point a byte string begins with and how many bytes it takes, if it begins with a
      well-formed sequence: no longer than needed, and no half of a pair. */
  function DecodeFirst(bs: seq<Byte>): (r: Option<(nat, nat)>)
    requires bs != []
    ensures r.Some? ==> 0 < r.value.1 <= |bs|
  {
    var b := bs[0];
    if b < 0x80 then Checked(b, 0, 1)
    else if 0xC0 <= b < 0xE0 && Continues(bs, 2) then
      Checked(Bits(b, 0xC0) * 0x40 + Bits(bs[1], 0x80), 0x80, 2)
    else if 0xE0 <= b < 0xF0 && Continues(bs, 3) then
      Checked(Bits(b, 0xE0) * 0x1000 + Bits(bs[1], 0x80) * 0x40 + Bits(bs[2], 0x80), 0x800, 3)
    else if 0xF0 <= b < 0xF8 && Continues(bs, 4) then
      Checked(Bits(b, 0xF0) * 0x4_0000 + Bits(bs[1], 0x80) * 0x1000 + Bits(bs[2], 0x80) * 0x40 + Bits(bs[3], 0x80), 0x1_0000, 4)
    else None
  }

  /** A byte without its mark. */
  function Bits(b: nat, mark: nat): nat
    requires mark <= b
  {
    b - mark
  }

  function Checked(c: nat, least: nat, n: nat): Option<(nat, nat)> {
    if least <= c && Scalar(c) then Some((c, n)) else None
  }

  ghost function Decoded(bs: seq<Byte>): Option<seq<nat>> {
    if bs == [] then Some([])
    else
      match DecodeFirst(bs)
      case None => None
      case Some(first) =>
        match Decoded(bs[first.1..])
        case None => None
        case Some(rest) => Some([first.0] + rest)
  }

  lemma DecodeEncoding(c: nat, rest: seq<Byte>)
    requires Scalar(c)
    ensures DecodeFirst(Encoding(c) + rest) == Some((c, |Encoding(c)|))
  {
    var bs := Encoding(c) + rest;
    if 0x80 <= c {
      assert Continues(bs, |Encoding(c)|);
      Recombine(c);
    }
  }

  lemma Halves(c: nat)
    ensures c / 0x40 * 0x40 + c % 0x40 == c
    ensures c / 0x1000 == c / 0x40 / 0x40
  {
  }

  lemma Recombine(c: nat)
    ensures c / 0x40 * 0x40 + c % 0x40 == c
    ensures c / 0x1000 * 0x1000 + c / 0x40 % 0x40 * 0x40 + c % 0x40 == c
    ensures c / 0x4_0000 * 0x4_0000 + c / 0x1000 % 0x40 * 0x1000 + c / 0x40 % 0x40 * 0x40 + c % 0x40 == c
  {
    Halves(c);
    Halves(c / 0x40);
    Halves(c / 0x1000);
    assert c / 0x4_0000 == c / 0x1000 / 0x40;
  }

  lemma {:induction false} EncodingsCons(cs: seq<nat>)
    requires Scalars(cs) && cs != []
    ensures Scalars(cs[1..]) && Encodings(cs) == Encoding(cs[0]) + Encodings(cs[1..])
  {
    if |cs| > 1 {
      var n := |cs| - 1;
      EncodingsCons(cs[..n]);
      assert cs[..n][1..] == cs[1..][..n - 1];
    }
  }

  /** Decoding gives back what was encoded. */
  lemma {:induction false} RoundTrip(cs: seq<nat>)
    requires Scalars(cs)
    ensures Decoded(Encodings(cs)) == Some(cs)
  {
    if cs != [] {
      EncodingsCons(cs);
      var rest := Encodings(cs[1..]);
      DecodeEncoding(cs[0], rest);
      RoundTrip(cs[1..]);
      assert (Encoding(cs[0]) + rest)[|Encoding(cs[0])|..] == rest;
      assert [cs[0]] + cs[1..] == cs;
      hide Encoding, DecodeFirst;
    }
  }

  lemma Join(q: nat, r: nat)
    requires r < 0x40
    ensures (q * 0x40 + r) / 0x40 == q && (q * 0x40 + r) % 0x40 == r
  {
  }

  lemma ThreeParts(x: nat, y: nat, z: nat)
    requires y < 0x40 && z < 0x40
    ensures var c := x * 0x1000 + y * 0x40 + z; c / 0x1000 == x && c / 0x40 % 0x40 == y && c % 0x40 == z
  {
    Join(x, y);
    Join(x * 0x40 + y, z);
    Halves((x * 0x40 + y) * 0x40 + z);
  }

  lemma FourParts(w: nat, x: nat, y: nat, z: nat)
    requires x < 0x40 && y < 0x40 && z < 0x40
    ensures var c := w * 0x4_0000 + x * 0x1000 + y * 0x40 + z;
      c / 0x4_0000 == w && c / 0x1000 % 0x40 == x && c / 0x40 % 0x40 == y && c % 0x40 == z
  {
    Join(w, x);
    ThreeParts(w * 0x40 + x, y, z);
    var c := w * 0x4_0000 + x * 0x1000 + y * 0x40 + z;
    assert c / 0x4_0000 == c / 0x1000 / 0x40;
  }

  lemma TwoBytes(b: Byte, b1: Byte, c: nat)
    requires 0xC0 <= b < 0xE0 && 0x80 <= b1 < 0xC0 && c == (b - 0xC0) * 0x40 + (b1 - 0x80) && 0x80 <= c
    ensures Encoding(c) == [b, b1]
  {
    Join(b - 0xC0, b1 - 0x80);
  }

  lemma ThreeBytes(b: Byte, b1: Byte, b2: Byte, c: nat)
    requires 0xE0 <= b < 0xF0 && 0x80 <= b1 < 0xC0 && 0x80 <= b2 < 0xC0
    requires c == (b - 0xE0) * 0x1000 + (b1 - 0x80) * 0x40 + (b2 - 0x80) && 0x800 <= c
    ensures Encoding(c) == [b, b1, b2]
  {
    ThreeParts(b - 0xE0, b1 - 0x80, b2 - 0x80);
  }

  lemma FourBytes(b: Byte, b1: Byte, b2: Byte, b3: Byte, c: nat)
    requires 0xF0 <= b < 0xF8 && 0x80 <= b1 < 0xC0 && 0x80 <= b2 < 0xC0 && 0x80 <= b3 < 0xC0
    requires c == (b - 0xF0) * 0x4_0000 + (b1 - 0x80) * 0x1000 + (b2 - 0x80) * 0x40 + (b3 - 0x80) && 0x1_0000 <= c < 0x11_0000
    ensures Encoding(c) == [b, b1, b2, b3]
  {
    FourParts(b - 0xF0, b1 - 0x80, b2 - 0x80, b3 - 0x80);
  }

  /** Nothing but an encoding decodes. */
  lemma DecodeFirstIs(bs: seq<Byte>, c: nat, n: nat)
    requires bs != [] && DecodeFirst(bs) == Some((c, n))
    ensures Scalar(c) && n == |Encoding(c)| && bs[..n] == Encoding(c)
  {
    var b := bs[0];
    if b < 0x80 {
      assert Encoding(c) == [b];
    }
    hide Encoding;
    if 0xF0 <= b {
      FourBytes(b, bs[1], bs[2], bs[3], c);
    } else if 0xE0 <= b {
      ThreeBytes(b, bs[1], bs[2], c);
    } else if 0x80 <= b {
      TwoBytes(b, bs[1], c);
    }
  }

  lemma DecodedParts(bs: seq<Byte>, cs: seq<nat>) returns (n: nat)
    requires bs != [] && Decoded(bs) == Some(cs)
    ensures n <= |bs| && cs != [] && Scalar(cs[0]) && bs[..n] == Encoding(cs[0]) && 0 < n && Decoded(bs[n..]) == Some(cs[1..])
  {
    hide DecodeFirst, Encoding, Scalar;
    n := DecodeFirst(bs).value.1;
    DecodeFirstIs(bs, DecodeFirst(bs).value.0, n);
  }

  lemma ScalarsCons(cs: seq<nat>)
    requires cs != [] && Scalar(cs[0]) && Scalars(cs[1..])
    ensures Scalars(cs)
  {
    hide Scalar;
    forall i | 0 <= i < |cs| ensures Scalar(cs[i]) { assert i > 0 ==> cs[i] == cs[1..][i - 1]; }
  }

  /** What decodes is the encoding of what it decodes to, and of nothing else. */
  lemma {:induction false} DecodedExactly(bs: seq<Byte>, cs: seq<nat>)
    ensures Decoded(bs) == Some(cs) <==> Scalars(cs) && bs == Encodings(cs)
  {
    if bs == [] && cs == [] { return; }
    hide DecodeFirst, Encoding, Encodings, Scalar, Scalars;
    if Scalars(cs) { RoundTrip(cs); }
    if bs != [] {
      hide Decoded;
      if Decoded(bs) == Some(cs) {
        var n := DecodedParts(bs, cs);
        DecodedExactly(bs[n..], cs[1..]);
        ScalarsCons(cs);
        EncodingsCons(cs);
        assert bs == bs[..n] + bs[n..];
      }
    }
  }

  lemma EmittedNone()
    ensures EmittedAll([]) == []
  {
  }

  lemma {:induction false} EmittedCons(cs: seq<nat>)
    requires Scalars(cs) && cs != []
    ensures Scalars(cs[1..]) && EmittedAll(cs) == Emitted(cs[0]) + EmittedAll(cs[1..])
  {
    if |cs| > 1 {
      var n := |cs| - 1;
      EmittedCons(cs[..n]);
      assert cs[..n][1..] == cs[1..][..n - 1];
    }
  }

  /** What is written for a code point beyond plane 15 is longer than needed, and so no character, whatever follows. */
  lemma BeyondUndecodable(c: nat, rest: seq<Byte>)
    requires 0x10_0000 <= c < 0x11_0000
    ensures DecodeFirst(Emitted(c) + rest) == None
  {
    var bs := Emitted(c) + rest;
    assert c / 0x4_0000 == 4;
    assert bs[0] == 0xF0 && bs[1] == 0x80 + c / 0x1000 % 0x40;
    assert 0x100 <= c / 0x1000 < 0x110;
    assert c / 0x1000 % 0x40 < 0x10;
  }

  /** No code point is beyond plane 15. */
  ghost predicate BelowPlane16(cs: seq<nat>) {
    forall i :: 0 <= i < |cs| ==> cs[i] < 0x10_0000
  }

  /** What is written decodes to the code points written exactly if none of them is beyond plane 15; else it does not decode
      at all. */
  lemma {:induction false} EmittedDecodes(cs: seq<nat>)
    requires Scalars(cs)
    ensures Decoded(EmittedAll(cs)) == if BelowPlane16(cs) then Some(cs) else None
  {
    hide Encoding, Emitted, DecodeFirst, EmittedAll;
    if cs == [] {
      EmittedNone();
    } else {
      EmittedCons(cs);
      var rest := EmittedAll(cs[1..]);
      assert BelowPlane16(cs) <==> cs[0] < 0x10_0000 && BelowPlane16(cs[1..]);
      if cs[0] < 0x10_0000 {
        EmittedIsEncoding(cs[0]);
        DecodeEncoding(cs[0], rest);
        EmittedDecodes(cs[1..]);
        assert (Encoding(cs[0]) + rest)[|Encoding(cs[0])|..] == rest;
        assert [cs[0]] + cs[1..] == cs;
      } else {
        BeyondUndecodable(cs[0], rest);
      }
    }
  }

  /** So it is for the code points that fit in the room given. */
  lemma OutputDecodes(cs: seq<nat>, k: nat)
    requires Scalars(cs) && k <= |cs|
    ensures Decoded(EmittedAll(cs[..k])) == Some(cs[..k]) <==> forall i :: 0 <= i < k ==> cs[i] < 0x10_0000
    ensures Decoded(EmittedAll(cs[..k])) == None <==> exists i :: 0 <= i < k && cs[i] >= 0x10_0000
  {
    hide EmittedAll, Decoded;
    EmittedDecodes(cs[..k]);
    assert forall i :: 0 <= i < k ==> cs[..k][i] == cs[i];
  }

  /** The first code point of plane 16 comes out as another character. */
  lemma BeyondPlane15()
    ensures CodePoints([0xDBC0, 0xDC00]) == [0x10_0000] && Emitted(0x10_0000) == [0xF0, 0x80, 0x80, 0x80]
    ensures Decoded(Emitted(0x10_0000)) == None
  {
  }
}
