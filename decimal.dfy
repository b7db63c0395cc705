/** Decimal rendering and scanning of message UIDs.

    The adapter hands out a message's UID as `fmt.Sprintf("%d", uid)` and
    reads it back with `fmt.Sscanf(id, "%d", &uid)` into a `uint32`. The
    scanner skips leading white space, reads the longest run of decimal
    digits (no sign is accepted for an unsigned target), ignores whatever
    follows the digits, and fails when there are no digits or when the value
    does not fit in 32 bits. */
module Decimal {
  import opened Results

  /** 2^32: the first value a `uint32` cannot hold. */
  const Uint32Limit: nat := 0x1_0000_0000

  /** 2^64: the first value `strconv.ParseUint(tok, 10, 64)` rejects. */
  const Uint64Limit: nat := 0x1_0000_0000_0000_0000

  predicate IsDigit(c: char)
  {
    '0' <= c <= '9'
  }

  predicate AllDigits(s: string)
  {
    forall i :: 0 <= i < |s| ==> IsDigit(s[i])
  }

  function DigitValue(c: char): (d: nat)
    requires IsDigit(c)
    ensures d < 10
  {
    c as int - '0' as int
  }

  function DigitChar(d: nat): (c: char)
    requires d < 10
    ensures IsDigit(c) && DigitValue(c) == d
  {
    ('0' as int + d) as char
  }

  /** `fmt.Sprintf("%d", n)` for a non-negative `n`: the shortest decimal
      numeral, without sign or leading zeros. */
  function FormatNat(n: nat): (s: string)
    ensures |s| > 0 && AllDigits(s)
    ensures |s| > 1 ==> s[0] != '0'
    decreases n
  {
    if n < 10 then [DigitChar(n)] else FormatNat(n / 10) + [DigitChar(n % 10)]
  }

  /** The value of a numeral, most significant digit first. */
  function DigitsValue(s: string): nat
    requires AllDigits(s)
  {
    if s == [] then 0 else DigitsValue(s[..|s| - 1]) * 10 + DigitValue(s[|s| - 1])
  }

  /** Rendering a number and reading the digits back gives the number. */
  lemma {:induction false} FormatNatValue(n: nat)
    ensures DigitsValue(FormatNat(n)) == n
    decreases n
  {
    if n >= 10 {
      var s := FormatNat(n);
      FormatNatValue(n / 10);
      assert s[..|s| - 1] == FormatNat(n / 10);
    }
  }

  /** The white space the scanner skips before a number (the table of
      Go's `fmt` package), newline excepted: a newline is an error. */
  predicate IsScanSpace(c: char)
  {
    var n := c as int;
    (0x09 <= n <= 0x0d && c != '\n') || n == 0x20 || n == 0x85 || n == 0xa0
    || n == 0x1680 || 0x2000 <= n <= 0x200a || n == 0x2028 || n == 0x2029
    || n == 0x202f || n == 0x205f || n == 0x3000
  }

  /** What is left once leading scanner white space is skipped, or an error
      when a newline is met first. */
  function SkipSpace(s: string): (r: Result<string>)
    ensures r.Ok? ==> |r.value| <= |s| && r.value == s[|s| - |r.value|..]
    ensures r.Ok? ==> r.value == [] || !IsScanSpace(r.value[0])
    ensures r.Ok? ==> r.value == [] || r.value[0] != '\n'
    decreases |s|
  {
    if s == [] then Ok(s)
    else if s[0] == '\n' then Err("unexpected newline")
    else if IsScanSpace(s[0]) then SkipSpace(s[1..])
    else Ok(s)
  }

  /** The longest prefix of decimal digits. */
  function DigitPrefix(s: string): (t: string)
    ensures |t| <= |s| && t == s[..|t|] && AllDigits(t)
    ensures |t| < |s| ==> !IsDigit(s[|t|])
    decreases |s|
  {
    if s != [] && IsDigit(s[0]) then [s[0]] + DigitPrefix(s[1..]) else []
  }

  /** `fmt.Sscanf(s, "%d", &uid)` with `uid` a `uint32`: the value read, or
      the scanner's error. */
  function ScanUint32(s: string): (r: Result<nat>)
    ensures r.Ok? ==> r.value < Uint32Limit
  {
    match SkipSpace(s)
    case Err(e) => Err(e)
    case Ok(rest) =>
      if rest == [] then Err("EOF")
      else
        var tok := DigitPrefix(rest);
        if tok == [] then Err("expected integer")
        else if DigitsValue(tok) >= Uint64Limit then
          Err("strconv.ParseUint: parsing \"" + tok + "\": value out of range")
        else if DigitsValue(tok) >= Uint32Limit then
          Err("unsigned integer overflow on token " + tok)
        else Ok(DigitsValue(tok))
  }

  /** Numbers do not collide once rendered. */
  lemma FormatNatInjective(m: nat, n: nat)
    requires FormatNat(m) == FormatNat(n)
    ensures m == n
  {
    FormatNatValue(m);
    FormatNatValue(n);
  }

  /** The round trip the adapter relies on: an ID it hands out scans back
      to the UID it was made from, even with text after the digits. */
  lemma {:induction false} ScanFormatted(uid: nat, suffix: string)
    requires uid < Uint32Limit
    requires suffix == [] || !IsDigit(suffix[0])
    ensures ScanUint32(FormatNat(uid) + suffix) == Ok(uid)
  {
    var s := FormatNat(uid);
    var t := s + suffix;
    assert t[0] == s[0] && IsDigit(t[0]);
    DigitNotSpace(t[0]);
    assert SkipSpace(t) == Ok(t);
    DigitPrefixOf(s, suffix);
    FormatNatValue(uid);
    assert DigitPrefix(t) == s && DigitsValue(s) == uid;
  }

  lemma DigitNotSpace(c: char)
    requires IsDigit(c)
    ensures !IsScanSpace(c) && c != '\n'
  {
  }

  /** The longest digit prefix of a numeral followed by a non-digit is the
      numeral. */
  lemma {:induction false} DigitPrefixOf(s: string, suffix: string)
    requires AllDigits(s)
    requires suffix == [] || !IsDigit(suffix[0])
    ensures DigitPrefix(s + suffix) == s
    decreases |s|
  {
    if s != [] {
      assert (s + suffix)[1..] == s[1..] + suffix;
      DigitPrefixOf(s[1..], suffix);
    } else {
      assert s + suffix == suffix;
    }
  }
}
