/** Python's `int(s, 16)`, which the service-discovery code applies to the
    version and protocol strings of the configuration. */
module PyInt {
  import opened Common

  /** The ASCII whitespace that `int()` strips from both ends. */
  predicate IsSpace(c: char) {
    c == ' ' || '\t' <= c <= '\r'
  }

  predicate IsHexDigit(c: char) {
    '0' <= c <= '9' || 'a' <= c <= 'f' || 'A' <= c <= 'F'
  }

  function DigitValue(c: char): (d: nat)
    requires IsHexDigit(c)
    ensures d < 16
  {
    if '0' <= c <= '9' then c as int - '0' as int
    else if 'a' <= c <= 'f' then c as int - 'a' as int + 10
    else c as int - 'A' as int + 10
  }

  function StripLeft(s: string): (r: string)
    ensures |r| <= |s|
    ensures |r| > 0 ==> !IsSpace(r[0])
  {
    if |s| > 0 && IsSpace(s[0]) then StripLeft(s[1..]) else s
  }

  function StripRight(s: string): (r: string)
    ensures |r| <= |s|
    ensures |r| > 0 ==> !IsSpace(r[|r| - 1])
  {
    if |s| > 0 && IsSpace(s[|s| - 1]) then StripRight(s[..|s| - 1]) else s
  }

  /** Hex digits in which single underscores may separate two digits. */
  predicate IsDigitRun(s: string) {
    && |s| > 0
    && IsHexDigit(s[0])
    && IsHexDigit(s[|s| - 1])
    && (forall i :: 0 <= i < |s| ==> IsHexDigit(s[i]) || s[i] == '_')
    && (forall i :: 0 <= i < |s| - 1 ==> s[i] == '_' ==> s[i + 1] != '_')
  }

  /** The base-16 value of the digits of `s`, most significant first, skipping underscores. */
  function RunValue(s: string): nat
    requires forall i :: 0 <= i < |s| ==> IsHexDigit(s[i]) || s[i] == '_'
  {
    if |s| == 0 then 0
    else if s[|s| - 1] == '_' then RunValue(s[..|s| - 1])
    else 16 * RunValue(s[..|s| - 1]) + DigitValue(s[|s| - 1])
  }

  /** The text after an optional sign: is it negative, and where do the digits begin? */
  function SplitSign(t: string): (bool, string) {
    if |t| > 0 && (t[0] == '+' || t[0] == '-') then (t[0] == '-', t[1..]) else (false, t)
  }

  /** Drops a `0x`/`0X` prefix and the one underscore that may follow it. */
  function DropPrefix(u: string): string {
    if |u| >= 2 && u[0] == '0' && (u[1] == 'x' || u[1] == 'X') then
      var d := u[2..];
      if |d| > 0 && d[0] == '_' then d[1..] else d
    else u
  }

  /** Whether the literal is negative, and the digits left after the sign and the prefix. */
  function Literal(s: string): (bool, string) {
    var (negative, unsigned) := SplitSign(StripRight(StripLeft(s)));
    (negative, DropPrefix(unsigned))
  }

  /** `int(s, 16)`: surrounding whitespace, an optional sign, an optional `0x`
      prefix, then digits; anything else raises ValueError. */
  function ParseHex(s: string): (r: Result<int, PyError>)
    ensures r.Ok? <==> IsDigitRun(Literal(s).1)
    ensures r.Ok? ==> r.value == if Literal(s).0 then -(RunValue(Literal(s).1) as int) else RunValue(Literal(s).1)
    ensures r.Err? ==> r.error.ValueError?
  {
    var (negative, digits) := Literal(s);
    if IsDigitRun(digits) then
      var v: int := RunValue(digits);
      Ok(if negative then -v else v)
    else
      Err(ValueError("invalid literal for int() with base 16: '" + s + "'"))
  }

  /** `int(v, 16)` on a configuration value: only a string can be parsed. */
  function IntBase16(v: Json): (r: Result<int, PyError>)
    ensures !v.JString? ==> r == Err(TypeError(NonStringWithBase))
    ensures v.JString? ==> r == ParseHex(v.s)
  {
    match v
    case JString(s) => ParseHex(s)
    case _ => Err(TypeError(NonStringWithBase))
  }

  const NonStringWithBase := "int() can't convert non-string with explicit base"

  /** Lower-case hexadecimal digits of `n`, without prefix: the inverse of ParseHex. */
  function ToHex(n: nat): (s: string)
    decreases n
  {
    var c := HexChar(n % 16);
    if n < 16 then [c] else ToHex(n / 16) + [c]
  }

  /** The lower-case hexadecimal digit of `d`. */
  function HexChar(d: nat): (c: char)
    requires d < 16
    ensures IsHexDigit(c) && DigitValue(c) == d
  {
    if d < 10 then ('0' as int + d) as char else ('a' as int + d - 10) as char
  }

  lemma {:induction false} ToHexDigits(n: nat)
    ensures |ToHex(n)| > 0
    ensures forall i :: 0 <= i < |ToHex(n)| ==> IsHexDigit(ToHex(n)[i])
    decreases n
  {
    if n >= 16 {
      ToHexDigits(n / 16);
    }
  }

  lemma {:induction false} ToHexValue(n: nat)
    ensures forall i :: 0 <= i < |ToHex(n)| ==> IsHexDigit(ToHex(n)[i])
    ensures RunValue(ToHex(n)) == n
    decreases n
  {
    ToHexDigits(n);
    var s := ToHex(n);
    var c := HexChar(n % 16);
    if n >= 16 {
      ToHexValue(n / 16);
      assert s[..|s| - 1] == ToHex(n / 16);
    } else {
      assert s[..|s| - 1] == [];
    }
  }

  lemma StripBoth(s: string)
    requires |s| > 0 && !IsSpace(s[0]) && !IsSpace(s[|s| - 1])
    ensures StripRight(StripLeft(s)) == s
  {
  }

  /** A digit run read on its own is a non-negative literal of those digits. */
  lemma LiteralOfDigits(h: string)
    requires IsDigitRun(h)
    ensures Literal(h) == (false, h)
  {
    StripBoth(h);
    assert SplitSign(h) == (false, h);
    assert DropPrefix(h) == h by {
      if |h| >= 2 { assert h[1] != 'x' && h[1] != 'X'; }
    }
  }

  /** A `0x` prefix is dropped, leaving the digits. */
  lemma LiteralOfPrefixed(h: string)
    requires IsDigitRun(h)
    ensures DropPrefix("0x" + h) == h
  {
    var p := "0x" + h;
    assert p[2..] == h;
  }

  /** With `0x`, the literal is the digits after the prefix. */
  lemma LiteralOfHex(h: string)
    requires IsDigitRun(h)
    ensures Literal("0x" + h) == (false, h)
  {
    var p := "0x" + h;
    assert p[0] == '0' && p[|p| - 1] == h[|h| - 1];
    StripBoth(p);
    assert SplitSign(p) == (false, p);
    LiteralOfPrefixed(h);
  }

  /** With `-0x`, the literal is negative, of the digits after the prefix. */
  lemma LiteralOfNegativeHex(h: string)
    requires IsDigitRun(h)
    ensures Literal("-0x" + h) == (true, h)
  {
    var q := "-0x" + h;
    assert q[0] == '-' && q[|q| - 1] == h[|h| - 1];
    StripBoth(q);
    assert q[1..] == "0x" + h;
    assert SplitSign(q) == (true, "0x" + h);
    LiteralOfPrefixed(h);
  }

  /** A run of digits of value `n` parses to `n`. */
  lemma ParseDigitRun(h: string, n: nat)
    requires IsDigitRun(h) && RunValue(h) == n
    ensures ParseHex(h) == Ok(n)
  {
    LiteralOfDigits(h);
  }

  /** A run of digits of value `n` after `0x` parses to `n`. */
  lemma ParseHexDigitRun(h: string, n: nat)
    requires IsDigitRun(h) && RunValue(h) == n
    ensures ParseHex("0x" + h) == Ok(n)
  {
    LiteralOfHex(h);
  }

  /** A run of digits of value `n` after `-0x` parses to `-n`. */
  lemma ParseNegativeHexDigitRun(h: string, n: nat)
    requires IsDigitRun(h) && RunValue(h) == n
    ensures ParseHex("-0x" + h) == Ok(-(n as int))
  {
    var q := "-0x" + h;
    LiteralOfNegativeHex(h);
    assert IsDigitRun(Literal(q).1);
    assert ParseHex(q).value == -(n as int);
  }

  /** Every natural number printed in hexadecimal, with or without `0x`, parses back to itself. */
  lemma ParseHexRoundTrip(n: nat)
    ensures ParseHex(ToHex(n)) == Ok(n)
    ensures ParseHex("0x" + ToHex(n)) == Ok(n)
    ensures ParseHex("-0x" + ToHex(n)) == Ok(-(n as int))
  {
    var h := ToHex(n);
    ToHexValue(n);
    ToHexDigits(n);
    assert IsDigitRun(h);
    ParseDigitRun(h, n);
    ParseHexDigitRun(h, n);
    ParseNegativeHexDigitRun(h, n);
  }

  /** Whitespace around the literal changes neither whether it parses nor its value. */
  lemma ParseHexIgnoresSpaces(s: string)
    ensures ParseHex(" " + s + " ").Ok? <==> ParseHex(s).Ok?
    ensures ParseHex(s).Ok? ==> ParseHex(" " + s + " ") == ParseHex(s)
  {
    var t := " " + s + " ";
    assert t[0] == ' ' && t[1..] == s + " ";
    assert StripLeft(t) == StripLeft(s + " ");
    StripLeftAppendSpace(s);
    StripRightAppendSpace(StripLeft(s));
    assert StripRight(StripLeft(t)) == StripRight(StripLeft(s));
  }

  lemma {:induction false} StripLeftAppendSpace(s: string)
    ensures StripLeft(s + " ") == StripLeft(s) + " " || (StripLeft(s) == [] && StripLeft(s + " ") == [])
    decreases |s|
  {
    if |s| > 0 && IsSpace(s[0]) {
      assert (s + " ")[1..] == s[1..] + " ";
      StripLeftAppendSpace(s[1..]);
    } else if |s| == 0 {
      assert (s + " ")[1..] == [];
    }
  }

  lemma StripRightAppendSpace(s: string)
    ensures StripRight(s + " ") == StripRight(s)
  {
    assert (s + " ")[..|s|] == s;
  }
}
