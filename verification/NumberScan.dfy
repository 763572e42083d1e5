/**
 Scanning a number in a filter expression: decimal, octal with a leading 0, hexadecimal with a
 leading 0x or 0X, into 32 bits.
 */
module NumberScan {

  const LIMIT: nat := 0x1_0000_0000

  type U32 = n: nat | n < 0x1_0000_0000

  datatype Token = Num(value: U32) | Overflow | NonOctal

  predicate IsDecimal(c: char) {
    '0' <= c <= '9'
  }

  predicate IsOctal(c: char) {
    '0' <= c <= '7'
  }

  predicate IsHex(c: char) {
    IsDecimal(c) || 'a' <= c <= 'f' || 'A' <= c <= 'F'
  }

  ghost predicate All(p: char -> bool, s: string) {
    forall i :: 0 <= i < |s| ==> p(s[i])
  }

  /** The digits, in order. */
  const DIGITS: string := "0123456789abcdef"

  /** A small letter for a capital one. */
  function Lower(c: char): char {
    if 'A' <= c <= 'Z' then 'a' + (c - 'A') else c
  }

  /** What a digit stands for: its place among the digits, whether it is written small or capital. */
  function Digit(c: char): (d: nat)
    requires IsHex(c)
    ensures d < 16 && DIGITS[d] == Lower(c) && (IsDecimal(c) ==> d < 10) && (IsOctal(c) ==> d < 8)
  {
    if IsDecimal(c) then (c - '0') as nat
    else if 'a' <= c <= 'f' then (c - 'a') as nat + 10
    else (c - 'A') as nat + 10
  }

  /** The number that a string of digits stands for. */
  ghost function ValueOf(base: nat, s: string): nat
    requires All(IsHex, s)
  {
    if s == "" then 0 else ValueOf(base, s[..|s| - 1]) * base + Digit(s[|s| - 1])
  }

  lemma ValueStep(base: nat, s: string, i: nat)
    requires All(IsHex, s) && i < |s|
    ensures ValueOf(base, s[..i + 1]) == ValueOf(base, s[..i]) * base + Digit(s[i])
  {
    assert s[..i + 1][..i] == s[..i];
  }

  lemma NoDigits(base: nat)
    ensures ValueOf(base, "") == 0
  {
  }

  lemma Grows(v: nat, base: nat)
    requires base > 0
    ensures v <= v * base
  {
  }

  /** More digits never make a number smaller. */
  lemma {:induction false} ValuePrefix(base: nat, s: string, i: nat)
    requires base > 0 && All(IsHex, s) && i <= |s|
    ensures ValueOf(base, s[..i]) <= ValueOf(base, s)
    decreases |s| - i
  {
    if i < |s| {
      ValuePrefix(base, s, i + 1);
      ValueStep(base, s, i);
      Grows(ValueOf(base, s[..i]), base);
    } else {
      assert s[..i] == s;
    }
  }

  // ---------------------------------------------------------------------------------------
  // The three loops
  // ---------------------------------------------------------------------------------------

  method ScanHex(s: string) returns (t: Token)
    requires All(IsHex, s)
    ensures t == if ValueOf(16, s) < LIMIT then Num(ValueOf(16, s)) else Overflow
  {
    var n: U32 := 0;
    for i := 0 to |s|
      invariant n == ValueOf(16, s[..i])
    {
      ValueStep(16, s, i);
      ValuePrefix(16, s, i + 1);
      if n > 0xFFF_FFFF { return Overflow; }
      n := n * 16 + Digit(s[i]);
    }
    assert s[..|s|] == s;
    return Num(n);
  }

  /** The length of the longest start of s that is octal. */
  ghost function OctalPrefix(s: string): (k: nat)
    ensures OctalUpTo(s, k) && (k < |s| ==> !IsOctal(s[k]))
  {
    if s == "" || !IsOctal(s[0]) then 0
    else
      var k := OctalPrefix(s[1..]);
      assert forall i :: 0 < i < k + 1 ==> s[i] == s[1..][i - 1];
      k + 1
  }

  ghost predicate OctalUpTo(s: string, k: nat) {
    k <= |s| && forall i :: 0 <= i < k ==> IsOctal(s[i])
  }

  lemma OctalPrefixAt(s: string, i: nat)
    requires OctalUpTo(s, i)
    ensures i <= OctalPrefix(s)
    ensures i < |s| && !IsOctal(s[i]) ==> OctalPrefix(s) == i
  {
    hide OctalPrefix;
  }

  /** What is wrong with an octal number is what goes wrong first. */
  method ScanOctal(s: string) returns (t: Token)
    requires All(IsDecimal, s)
    ensures All(IsHex, s[..OctalPrefix(s)])
    ensures var v := ValueOf(8, s[..OctalPrefix(s)]);
      t == if v >= LIMIT then Overflow else if OctalPrefix(s) < |s| then NonOctal else Num(v)
  {
    var n: U32 := 0;
    ghost var k := OctalPrefix(s);
    ghost var octal := s[..k];
    for i := 0 to |s|
      invariant OctalUpTo(s, i) && i <= k && n == ValueOf(8, octal[..i])
    {
      OctalPrefixAt(s, i);
      if !IsOctal(s[i]) {
        assert octal[..i] == octal;
        return NonOctal;
      }
      OctalPrefixAt(s, i + 1);
      ValueStep(8, octal, i);
      ValuePrefix(8, octal, i + 1);
      if n > 0x1FFF_FFFF { return Overflow; }
      n := n * 8 + Digit(s[i]);
    }
    assert octal[..|s|] == octal;
    return Num(n);
  }

  method ScanDecimal(s: string) returns (t: Token)
    requires All(IsDecimal, s)
    ensures t == if ValueOf(10, s) < LIMIT then Num(ValueOf(10, s)) else Overflow
  {
    hide ValueOf, Digit;
    NoDigits(10);
    var n: U32 := 0;
    var cutoff, cutlim := 0xFFFF_FFFF / 10, 0xFFFF_FFFF % 10;
    for i := 0 to |s|
      invariant n == ValueOf(10, s[..i])
    {
      ValueStep(10, s, i);
      ValuePrefix(10, s, i + 1);
      var digit := Digit(s[i]);
      if n > cutoff || (n == cutoff && digit > cutlim) { return Overflow; }
      n := n * 10 + digit;
    }
    assert s[..|s|] == s;
    return Num(n);
  }

  // ---------------------------------------------------------------------------------------
  // The scanner
  // ---------------------------------------------------------------------------------------

  predicate HexMarked(s: string) {
    |s| >= 2 && s[0] == '0' && (s[1] == 'x' || s[1] == 'X')
  }

  /** What the lexer hands over: decimal digits, or 0x and hexadecimal digits. */
  ghost predicate Lexed(s: string) {
    if HexMarked(s) then All(IsHex, s[2..]) else All(IsDecimal, s)
  }

  /** The base a token is written in, and its digits. */
  ghost function Digits(s: string): (nat, string) {
    if HexMarked(s) then (16, s[2..])
    else if |s| > 0 && s[0] == '0' then (8, s[1..])
    else (10, s)
  }

  /** The token means n: its digits are digits of its base and stand for n. */
  ghost predicate Means(s: string, n: nat) {
    var (base, digits) := Digits(s);
    All(IsHex, digits) && (base == 8 ==> All(IsOctal, digits)) && ValueOf(base, digits) == n
  }

  /** An octal token has a digit 8 or 9, and the digits before it do not overflow. */
  ghost predicate OctalFault(s: string) {
    var (base, digits) := Digits(s);
    var k := OctalPrefix(digits);
    base == 8 && !All(IsOctal, digits) && k < |digits| && All(IsHex, digits[..k]) && ValueOf(8, digits[..k]) < LIMIT
  }

  /** A token scans to a number exactly if it means one below 2^32, and then to that one. */
  method Stou(s: string) returns (t: Token)
    requires Lexed(s)
    ensures forall n: U32 :: t == Num(n) <==> Means(s, n)
    ensures t == NonOctal <==> OctalFault(s)
  {
    if |s| > 0 && s[0] == '0' {
      if HexMarked(s) {
        t := ScanHex(s[2..]);
      } else {
        assert All(IsDecimal, s[1..]);
        t := ScanOctal(s[1..]);
        OctalMeans(s[1..]);
      }
    } else {
      t := ScanDecimal(s);
    }
  }

  lemma OctalMeans(s: string)
    requires All(IsDecimal, s)
    ensures All(IsOctal, s) <==> OctalPrefix(s) == |s|
    ensures OctalPrefix(s) == |s| ==> s[..OctalPrefix(s)] == s
  {
    assert s[..|s|] == s;
    if All(IsOctal, s) { OctalPrefixAt(s, |s|); }
  }

  // ---------------------------------------------------------------------------------------
  // Writing numbers
  // ---------------------------------------------------------------------------------------

  function DigitChar(d: nat): (c: char)
    requires d < 16
    ensures IsHex(c) && Digit(c) == d && (d < 10 ==> IsDecimal(c)) && (d < 8 ==> IsOctal(c))
  {
    if d < 10 then '0' + d as char else 'a' + (d - 10) as char
  }

  /** n without its last digit, and that digit. */
  function Split(base: nat, n: nat): (r: (nat, nat))
    requires 2 <= base <= n
    ensures 0 < r.0 < n && r.1 < base && n == r.0 * base + r.1
  {
    SplitFacts(base, n);
    (n / base, n % base)
  }

  lemma SplitFacts(base: nat, n: nat)
    requires 2 <= base <= n
    ensures 0 < n / base < n && n == n / base * base + n % base
  {
  }

  /** n written in a base. */
  function Written(base: nat, n: nat): string
    requires 2 <= base <= 16
  {
    if n < base then [DigitChar(n)]
    else
      var (rest, digit) := Split(base, n);
      Written(base, rest) + [DigitChar(digit)]
  }

  /** Only digits of the base are written. */
  lemma {:induction false} WrittenDigits(base: nat, n: nat)
    requires 2 <= base <= 16
    ensures All(IsHex, Written(base, n)) && (base <= 8 ==> All(IsOctal, Written(base, n)))
    ensures base <= 10 ==> All(IsDecimal, Written(base, n))
  {
    hide Split;
    if n >= base { WrittenDigits(base, Split(base, n).0); }
  }

  /** The digits written for n stand for n. */
  lemma {:induction false} WrittenValue(base: nat, n: nat)
    requires 2 <= base <= 16
    ensures All(IsHex, Written(base, n)) && ValueOf(base, Written(base, n)) == n
  {
    hide All, ValueOf, DigitChar, Digit, Split;
    if n < base {
      DigitValue(base, n);
    } else {
      var (rest, digit) := Split(base, n);
      WrittenValue(base, rest);
      AppendDigit(base, Written(base, rest), DigitChar(digit), rest, n);
    }
  }

  lemma DigitValue(base: nat, d: nat)
    requires d < 16
    ensures All(IsHex, [DigitChar(d)]) && ValueOf(base, [DigitChar(d)]) == d
  {
    AppendDigit(base, "", DigitChar(d), 0, d);
    assert "" + [DigitChar(d)] == [DigitChar(d)];
  }

  lemma AppendDigit(base: nat, s: string, c: char, v: nat, n: nat)
    requires All(IsHex, s) && IsHex(c) && ValueOf(base, s) == v && n == v * base + Digit(c)
    ensures All(IsHex, s + [c]) && ValueOf(base, s + [c]) == n
  {
    assert (s + [c])[..|s|] == s;
  }

  lemma WrittenSome(base: nat, n: nat)
    requires 2 <= base <= 16
    ensures Written(base, n) != ""
  {
    hide Split, DigitChar;
  }

  /** Every number has a token in every base that means it, so that below 2^32 it scans back. */
  lemma WrittenMeans(n: nat)
    ensures Lexed("0x" + Written(16, n)) && Means("0x" + Written(16, n), n)
    ensures Lexed("0" + Written(8, n)) && Means("0" + Written(8, n), n)
    ensures n > 0 ==> Lexed(Written(10, n)) && Means(Written(10, n), n)
  {
    hide ValueOf, Digit, DigitChar, Split, Written;
    WrittenSome(8, n);
    WrittenDigits(8, n);
    WrittenDigits(10, n);
    WrittenValue(16, n);
    WrittenValue(8, n);
    WrittenValue(10, n);
    var h, o := "0x" + Written(16, n), "0" + Written(8, n);
    assert h[2..] == Written(16, n) && o[1..] == Written(8, n);
    assert IsOctal(o[1]);
    if n > 0 { LeadingDigit(n); }
  }

  // ---------------------------------------------------------------------------------------
  // Small and capital letters
  // ---------------------------------------------------------------------------------------

  function LowerAll(s: string): (t: string)
    ensures |t| == |s|
  {
    seq(|s|, (i: nat) requires i < |s| => Lower(s[i]))
  }

  /** Only one digit has a given value. */
  lemma DigitExact(c: char, d: nat)
    requires IsHex(c) && d < 16
    ensures Digit(c) == d <==> DIGITS[d] == Lower(c)
  {
    assert forall i, j :: 0 <= i < j < 16 ==> DIGITS[i] != DIGITS[j];
  }

  lemma LowerDigit(c: char)
    ensures IsHex(Lower(c)) <==> IsHex(c)
    ensures IsHex(c) ==> Digit(Lower(c)) == Digit(c)
    ensures Lower(c) == '0' <==> c == '0'
    ensures Lower(c) == 'x' <==> c == 'x' || c == 'X'
  {
  }

  lemma {:induction false} LowerValue(base: nat, s: string)
    requires All(IsHex, s)
    ensures All(IsHex, LowerAll(s)) && ValueOf(base, LowerAll(s)) == ValueOf(base, s)
  {
    hide IsHex, Digit, Lower;
    forall i | 0 <= i < |s| ensures IsHex(LowerAll(s)[i]) { LowerDigit(s[i]); }
    if s != "" {
      var n := |s| - 1;
      LowerDigit(s[n]);
      LowerValue(base, s[..n]);
      assert LowerAll(s)[..n] == LowerAll(s[..n]);
    }
  }

  /** A hexadecimal token means the same in small letters, in capitals and in any mix of the two. */
  lemma LowerMeans(s: string, n: nat)
    requires HexMarked(s) || HexMarked(LowerAll(s))
    ensures Lexed(s) <==> Lexed(LowerAll(s))
    ensures Means(s, n) <==> Means(LowerAll(s), n)
  {
    hide IsHex, Digit, Lower, ValueOf;
    var t := LowerAll(s);
    LowerDigit(s[0]);
    LowerDigit(s[1]);
    LowerX();
    assert t[0] == Lower(s[0]) && t[1] == Lower(s[1]);
    assert t[2..] == LowerAll(s[2..]);
    forall i | 0 <= i < |s| - 2 ensures IsHex(t[2..][i]) == IsHex(s[2..][i]) { LowerDigit(s[i + 2]); }
    assert All(IsHex, s[2..]) == All(IsHex, t[2..]);
    if All(IsHex, s[2..]) { LowerValue(16, s[2..]); }
  }

  lemma LowerX()
    ensures forall c :: Lower(c) != 'X'
  {
  }

  /** So every way of writing a number in hexadecimal means it. */
  lemma WrittenAnyCase(s: string, n: nat)
    requires LowerAll(s) == "0x" + Written(16, n)
    ensures Lexed(s) && Means(s, n)
  {
    hide Written, IsHex, Digit, Lower, ValueOf;
    WrittenMeans(n);
    LowerMeans(s, n);
  }

  lemma {:induction false} LeadingDigit(n: nat)
    requires n > 0
    ensures Written(10, n) != "" && Written(10, n)[0] != '0' && Written(10, n)[0] != 'x'
  {
    if n >= 10 { LeadingDigit(Split(10, n).0); }
  }
}
