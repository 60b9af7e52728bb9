/** Go's strconv.ParseUint(s, 10, 32): an unsigned decimal that fits in 32 bits. */
module Strconv {
  import opened Base

  const MaxUint32: nat := 0xFFFF_FFFF

  predicate IsDigit(c: char) { '0' <= c <= '9' }

  predicate IsDecimal(s: string) { forall i :: 0 <= i < |s| ==> IsDigit(s[i]) }

  function DigitValue(c: char): nat
    requires IsDigit(c)
  {
    c as int - '0' as int
  }

  /** The number a string of decimal digits denotes (leading zeros allowed). */
  function Value(s: string): nat
    requires IsDecimal(s)
    decreases |s|
  {
    if s == [] then 0 else Value(s[..|s| - 1]) * 10 + DigitValue(s[|s| - 1])
  }

  /** Go's base-10, 32-bit ParseUint: no sign, no underscores, no spaces, at
      least one digit, and a range error once the value passes 2^32 - 1.
      The result is exactly the value of a non-empty digit string that fits. */
  function ParseUint32(s: string): (r: Option<uint32>)
    ensures r.Some? <==> s != [] && IsDecimal(s) && Value(s) <= MaxUint32
    ensures r.Some? ==> r.value as int == Value(s)
  {
    if s == [] then None else Accumulate(s, 0, 0)
  }

  /** The digit loop of ParseUint: `n` is the value of the digits before `i`;
      a non-digit is a syntax error and a value above the bit size a range error. */
  function Accumulate(s: string, i: nat, n: nat): (r: Option<uint32>)
    requires i <= |s| && IsDecimal(s[..i]) && n == Value(s[..i]) && n <= MaxUint32
    ensures r.Some? <==> IsDecimal(s) && Value(s) <= MaxUint32
    ensures r.Some? ==> r.value as int == Value(s)
    decreases |s| - i
  {
    assert s[..|s|] == s;
    if i == |s| then Some(n as uint32)
    else if !IsDigit(s[i]) then None
    else
      var n1 := n * 10 + DigitValue(s[i]);
      assert s[..i + 1][..i] == s[..i];
      assert IsDecimal(s[..i + 1]) && Value(s[..i + 1]) == n1;
      if n1 > MaxUint32 then
        (if IsDecimal(s) then ValuePrefix(s, i + 1); None else None)
      else Accumulate(s, i + 1, n1)
  }

  /** A prefix of a digit string never denotes more than the whole string. */
  lemma {:induction false} ValuePrefix(s: string, k: nat)
    requires IsDecimal(s) && k <= |s|
    ensures IsDecimal(s[..k]) && Value(s[..k]) <= Value(s)
    decreases |s|
  {
    if k < |s| {
      var init := s[..|s| - 1];
      ValuePrefix(init, k);
      assert init[..k] == s[..k];
    } else {
      assert s[..k] == s;
    }
  }

  /** Canonical decimal rendering (strconv.FormatUint), the inverse used below. */
  function FormatUint(n: nat): (s: string)
    decreases n
  {
    if n < 10 then [('0' as int + n) as char]
    else FormatUint(n / 10) + [('0' as int + n % 10) as char]
  }

  lemma {:induction false} FormatValue(n: nat)
    ensures FormatUint(n) != [] && IsDecimal(FormatUint(n)) && Value(FormatUint(n)) == n
    decreases n
  {
    var s := FormatUint(n);
    if n >= 10 {
      FormatValue(n / 10);
      assert s[..|s| - 1] == FormatUint(n / 10);
    }
  }

  /** Every uint32 survives rendering and parsing back. */
  lemma ParseFormat(n: uint32)
    ensures ParseUint32(FormatUint(n as nat)) == Some(n)
  {
    FormatValue(n as nat);
  }

  /** Leading zeros do not change the parsed value. */
  lemma {:induction false} LeadingZero(s: string)
    requires IsDecimal(s)
    ensures IsDecimal("0" + s) && Value("0" + s) == Value(s)
    decreases |s|
  {
    if s != [] {
      var t := "0" + s;
      assert t[..|t| - 1] == "0" + s[..|s| - 1];
      LeadingZero(s[..|s| - 1]);
    }
  }

  /** Tokens the parser drops: empty, signed, spaced or with underscores. */
  lemma RejectedSyntax()
    ensures ParseUint32("") == None
    ensures ParseUint32("+1") == None && ParseUint32("-1") == None
    ensures ParseUint32(" 1") == None && ParseUint32("1_0") == None
  {
  }

  /** The largest uint32 is kept and the next number is a range error. */
  lemma RangeBoundary()
    ensures ParseUint32("4294967295") == Some(0xFFFF_FFFF)
    ensures ParseUint32("4294967296") == None
  {
  }
}
