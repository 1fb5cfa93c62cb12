/** The bootloader's line protocol as text: the parsers' loops, the printers, and that they undo one another. */
module BootloaderText {
  import opened Counters
  import opened Bytes

  /* ---------------- decimal ---------------- */

  predicate IsDigit(c: char) {
    '0' <= c <= '9'
  }

  function DigitOf(c: char): (d: nat)
    requires IsDigit(c)
    ensures d < 10
  {
    (c as int) - ('0' as int)
  }

  predicate AllDigits(s: string) {
    forall i :: 0 <= i < |s| ==> IsDigit(s[i])
  }

  function DecimalValue(s: string): (v: nat)
    requires AllDigits(s)
    decreases |s|
  {
    if s == "" then 0 else 10 * DecimalValue(s[..|s| - 1]) + DigitOf(s[|s| - 1])
  }

  /** How long the run of digits at the front is. */
  function DigitCount(s: string): (n: nat)
    ensures n <= |s| && AllDigits(s[..n])
    ensures n < |s| ==> !IsDigit(s[n])
    decreases |s|
  {
    if s == "" || !IsDigit(s[0]) then 0
    else
      var n := 1 + DigitCount(s[1..]);
      assert forall i :: 1 <= i < n ==> s[i] == s[1..][i - 1];
      n
  }

  /** A number and the text behind it; numbers beyond 32 bits are refused. */
  function ParseDecimal(s: string): (r: Option<(uint32, string)>) {
    var n := DigitCount(s);
    if n == 0 || DecimalValue(s[..n]) > UINT32_MAX then None else Some((DecimalValue(s[..n]), s[n..]))
  }

  lemma {:induction false} PrefixIsSmaller(s: string, n: nat)
    requires AllDigits(s) && n <= |s|
    ensures DecimalValue(s[..n]) <= DecimalValue(s)
    decreases |s|
  {
    if n == |s| {
      assert s[..n] == s;
    } else {
      PrefixIsSmaller(s[..|s| - 1], n);
      assert s[..|s| - 1][..n] == s[..n];
    }
  }

  method ScanDecimal(s: string) returns (r: Option<(uint32, string)>)
    ensures r == ParseDecimal(s)
  {
    var result: uint32, cursor := 0, 0;
    ghost var n := DigitCount(s);
    while cursor < |s| && IsDigit(s[cursor])
      invariant cursor <= n && result == DecimalValue(s[..cursor])
    {
      var digit := DigitOf(s[cursor]);
      assert cursor < n;
      assert s[..cursor + 1][..cursor] == s[..cursor];
      if result > (UINT32_MAX - digit) / 10 {
        PrefixIsSmaller(s[..n], cursor + 1);
        assert s[..n][..cursor + 1] == s[..cursor + 1];
        return None;
      }
      result := result * 10 + digit;
      cursor := cursor + 1;
    }
    return if cursor > 0 then Some((result, s[cursor..])) else None;
  }

  function DigitChar(d: nat): (c: char)
    requires d < 10
    ensures IsDigit(c) && DigitOf(c) == d
  {
    ('0' as int + d) as char
  }

  function PrintDecimal(v: nat): (s: string)
    ensures |s| > 0 && AllDigits(s)
  {
    if v < 10 then [DigitChar(v)] else PrintDecimal(v / 10) + [DigitChar(v % 10)]
  }

  lemma {:induction false} PrintedValue(v: nat)
    ensures DecimalValue(PrintDecimal(v)) == v
  {
    if v >= 10 {
      PrintedValue(v / 10);
      assert PrintDecimal(v)[..|PrintDecimal(v)| - 1] == PrintDecimal(v / 10);
    }
  }

  /** Printing a number and parsing it back gives the number and the text that followed, if it fits 32 bits. */
  lemma DecimalRoundTrip(v: nat, rest: string)
    requires rest == "" || !IsDigit(rest[0])
    ensures ParseDecimal(PrintDecimal(v) + rest) == if v <= UINT32_MAX then Some((v, rest)) else None
  {
    var digits := PrintDecimal(v);
    PrintedValue(v);
    CountedDigits(digits, rest);
    assert (digits + rest)[..|digits|] == digits && (digits + rest)[|digits|..] == rest;
  }

  lemma {:induction false} CountedDigits(digits: string, rest: string)
    requires AllDigits(digits) && (rest == "" || !IsDigit(rest[0]))
    ensures DigitCount(digits + rest) == |digits|
    decreases |digits|
  {
    if digits == "" {
      assert digits + rest == rest;
    } else {
      CountedDigits(digits[1..], rest);
      assert (digits + rest)[1..] == digits[1..] + rest;
    }
  }

  /** What is still to be printed once the lower digits are out. */
  function Unprinted(left: nat): (s: string) {
    if left == 0 then "" else PrintDecimal(left)
  }

  lemma DigitStep(left: nat, out: string)
    requires left > 0
    ensures Unprinted(left) + Turned(out) == Unprinted(left / 10) + Turned(out + [DigitChar(left % 10)])
    ensures |Unprinted(left)| > |Unprinted(left / 10)|
  {
    var c := DigitChar(left % 10);
    assert PrintDecimal(left) == Unprinted(left / 10) + [c];
    assert Turned(out + [c]) == [c] + Turned(out);
  }

  /** The digits come out last first into a ten-character buffer and are turned around. */
  method AppendDecimal(capacity: nat, value: uint32) returns (text: string)
    ensures text == if |PrintDecimal(value)| > capacity then "" else PrintDecimal(value)
  {
    hide PrintDecimal, Unprinted, Turned, DigitChar;
    PrintedLength(value);
    FirstDigit(value);
    var reverse := new char[10];
    var digits, left: nat := 1, value / 10;
    reverse[0] := DigitChar(value % 10);
    assert reverse[..1] == [DigitChar(value % 10)];
    while left != 0 && digits < 10
      invariant 1 <= digits <= 10
      invariant PrintDecimal(value) == Unprinted(left) + Turned(reverse[..digits])
    {
      DigitStep(left, reverse[..digits]);
      ghost var before := reverse[..digits];
      reverse[digits] := DigitChar(left % 10);
      assert reverse[..digits + 1] == before + [DigitChar(left % 10)];
      digits, left := digits + 1, left / 10;
    }
    NothingUnprinted(left);
    assert PrintDecimal(value) == Turned(reverse[..digits]);
    if digits > capacity {
      return "";
    }
    text := CopyTurned(reverse, digits);
  }

  lemma FirstDigit(value: nat)
    ensures PrintDecimal(value) == Unprinted(value / 10) + Turned([DigitChar(value % 10)])
  {
    assert Turned([DigitChar(value % 10)]) == [DigitChar(value % 10)];
  }

  lemma NothingUnprinted(left: nat)
    ensures |Unprinted(left)| == 0 <==> left == 0
  {
  }

  method CopyTurned(reverse: array<char>, digits: nat) returns (text: string)
    requires digits <= reverse.Length
    ensures text == Turned(reverse[..digits])
  {
    text := "";
    for index := 0 to digits
      invariant text == Turned(reverse[..digits])[..index]
    {
      text := text + [reverse[digits - index - 1]];
    }
  }

  function Turned(s: string): (r: string)
    ensures |r| == |s|
  {
    seq(|s|, i requires 0 <= i < |s| => s[|s| - 1 - i])
  }

  lemma PrintedLength(v: uint32)
    ensures |PrintDecimal(v)| <= 10
  {
    ShortNumbers(v, 10);
  }

  function Power10(n: nat): (p: nat)
    ensures p > 0
  {
    if n == 0 then 1 else 10 * Power10(n - 1)
  }

  lemma {:induction false} ShortNumbers(v: nat, n: nat)
    requires n > 0 && v < Power10(n)
    ensures |PrintDecimal(v)| <= n
  {
    if v >= 10 {
      ShortNumbers(v / 10, n - 1);
    }
  }

  /* ---------------- hexadecimal ---------------- */

  function HexValue(c: char): (v: Option<nat>)
    ensures v.Some? ==> v.value < 16
  {
    if '0' <= c <= '9' then Some(c as int - '0' as int)
    else if 'a' <= c <= 'f' then Some(c as int - 'a' as int + 10)
    else if 'A' <= c <= 'F' then Some(c as int - 'A' as int + 10)
    else None
  }

  predicate AllHex(s: string) {
    forall i :: 0 <= i < |s| ==> HexValue(s[i]).Some?
  }

  function HexNumber(s: string): (v: nat)
    requires AllHex(s)
    decreases |s|
  {
    if s == "" then 0 else 16 * HexNumber(s[..|s| - 1]) + HexValue(s[|s| - 1]).value
  }

  /** A word of one to eight hexadecimal digits up to the end of the line. */
  function ParseHexWord(s: string): (r: Option<uint32>) {
    if 1 <= |s| <= 8 && AllHex(s) then HexBound(s); Some(HexNumber(s)) else None
  }

  function Power16(n: nat): (p: nat)
    ensures p > 0
  {
    if n == 0 then 1 else 16 * Power16(n - 1)
  }

  lemma {:induction false} HexBelow(s: string)
    requires AllHex(s)
    ensures HexNumber(s) < Power16(|s|)
    decreases |s|
  {
    if s != "" {
      HexBelow(s[..|s| - 1]);
    }
  }

  lemma {:induction false} Power16Grows(m: nat, n: nat)
    requires m <= n
    ensures Power16(m) <= Power16(n)
    decreases n
  {
    if m < n {
      Power16Grows(m, n - 1);
    }
  }

  lemma HexBound(s: string)
    requires AllHex(s) && |s| <= 8
    ensures HexNumber(s) <= UINT32_MAX
  {
    HexBelow(s);
    Power16Grows(|s|, 8);
    assert Power16(4) == 0x1_0000;
    assert Power16(8) == 0x1_0000_0000;
  }

  /** Digits are taken while they last; a ninth one is refused, and so is anything after them. */
  method ScanHexWord(s: string) returns (r: Option<uint32>)
    ensures r == ParseHexWord(s)
  {
    var result: uint32, count := 0, 0;
    while count < |s| && HexValue(s[count]).Some?
      invariant count <= |s| && count <= 8 && AllHex(s[..count])
      invariant result == HexNumber(s[..count])
    {
      if count == 8 {
        return None;
      }
      assert s[..count + 1][..count] == s[..count];
      HexBound(s[..count + 1]);
      result := result * 16 + HexValue(s[count]).value;
      count := count + 1;
    }
    assert count == |s| ==> s[..count] == s;
    return if count > 0 && count == |s| then Some(result) else None;
  }

  function HexByte(s: string, i: nat): (b: byte)
    requires AllHex(s) && 2 * i + 1 < |s|
  {
    16 * HexValue(s[2 * i]).value + HexValue(s[2 * i + 1]).value
  }

  function HexBytes(s: string): (data: Buffer)
    requires AllHex(s)
    ensures |data| == |s| / 2
  {
    seq(|s| / 2, i requires 0 <= i < |s| / 2 => HexByte(s, i))
  }

  /** Pairs of hexadecimal digits up to the end of the line, at least one and at most capacity of them. */
  function ParseHexBytes(s: string, capacity: nat): (r: Option<Buffer>) {
    if 0 < |s| && |s| % 2 == 0 && |s| / 2 <= capacity && AllHex(s) then Some(HexBytes(s)) else None
  }

  method ScanHexBytes(s: string, destination: array<byte>) returns (length: Option<nat>)
    modifies destination
    ensures length.Some? ==> length.value <= destination.Length
    ensures ParseHexBytes(s, destination.Length) ==
            if length == None then None else Some(destination[..length.value])
  {
    var count := 0;
    while 2 * count < |s|
      invariant 2 * count <= |s| + 1 && count <= destination.Length
      invariant 2 * count <= |s| && AllHex(s[..2 * count])
      invariant forall i :: 0 <= i < count ==> destination[i] == HexByte(s[..2 * count], i)
    {
      var high := HexValue(s[2 * count]);
      var low := if 2 * count + 1 < |s| then HexValue(s[2 * count + 1]) else None;
      if high == None || low == None || count == destination.Length {
        return None;
      }
      destination[count] := 16 * high.value + low.value;
      count := count + 1;
    }
    assert s[..2 * count] == s;
    if count == 0 {
      return None;
    }
    assert destination[..count] == HexBytes(s);
    return Some(count);
  }

  function HexChar(d: nat, upper: bool): (c: char)
    requires d < 16
    ensures HexValue(c) == Some(d)
  {
    if d < 10 then ('0' as int + d) as char
    else if upper then ('A' as int + d - 10) as char
    else ('a' as int + d - 10) as char
  }

  /** The host prints the checksum as upper-case digits, eight of them. */
  function PrintHexWord(v: nat, digits: nat): (s: string)
    ensures |s| == digits && AllHex(s)
    decreases digits
  {
    if digits == 0 then "" else PrintHexWord(v / 16, digits - 1) + [HexChar(v % 16, true)]
  }

  lemma {:induction false} PrintedHexValue(v: nat, digits: nat)
    requires v < Power16(digits)
    ensures HexNumber(PrintHexWord(v, digits)) == v
    decreases digits
  {
    if digits > 0 {
      PrintedHexValue(v / 16, digits - 1);
      assert PrintHexWord(v, digits)[..digits - 1] == PrintHexWord(v / 16, digits - 1);
    }
  }

  lemma HexWordRoundTrip(v: uint32)
    ensures ParseHexWord(PrintHexWord(v, 8)) == Some(v)
  {
    assert Power16(4) == 0x1_0000;
    assert Power16(8) == 0x1_0000_0000;
    PrintedHexValue(v, 8);
  }

  /** The host prints data as lower-case digit pairs. */
  function PrintHexBytes(data: Buffer): (s: string)
    ensures |s| == 2 * |data|
    ensures forall i :: 0 <= i < |s| ==>
              s[i] == HexChar(if i % 2 == 0 then data[i / 2] / 16 else data[i / 2] % 16, false)
  {
    seq(2 * |data|, i requires 0 <= i < 2 * |data| =>
      HexChar(if i % 2 == 0 then data[i / 2] / 16 else data[i / 2] % 16, false))
  }

  lemma HexBytesRoundTrip(data: Buffer, capacity: nat)
    requires 0 < |data| <= capacity
    ensures ParseHexBytes(PrintHexBytes(data), capacity) == Some(data)
  {
    var s := PrintHexBytes(data);
    forall i | 0 <= i < |data|
      ensures HexByte(s, i) == data[i]
    {
      assert (2 * i) % 2 == 0 && (2 * i) / 2 == i && (2 * i + 1) % 2 == 1 && (2 * i + 1) / 2 == i;
    }
    assert HexBytes(s) == data;
  }
}
