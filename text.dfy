/**
 * The parts of Qt's QString that the navigation core relies on, written as
 * functions on `string` (a sequence of UTF-16 code units, here `char`).
 *
 * Positions and lengths follow QString's conventions: `Left`, `Right` and
 * `Mid` never fail, they clamp; the number parsers trim white space, accept
 * an optional sign and return `None` where QString's `ok` flag would be
 * false (the callers then use the value 0 that QString returns).
 */
module Text {

  datatype Option<T> = None | Some(value: T)

  /** The value QString's toInt/toDouble return: the parsed number, or 0 when `ok` is false. */
  function OrZero(o: Option<int>): int { if o.Some? then o.value else 0 }
  function OrZeroReal(o: Option<real>): real { if o.Some? then o.value else 0.0 }

  // ---------------------------------------------------------------------
  // Characters

  /** QChar::isSpace: the C0 separators 9..13, space, NEL, NBSP and the Unicode space separators. */
  predicate IsSpace(c: char)
  {
    var n := c as int;
    (9 <= n <= 13) || n == 32 || n == 0x85 || n == 0xA0 || n == 0x1680 || n == 0x180E
    || (0x2000 <= n <= 0x200A) || n == 0x2028 || n == 0x2029 || n == 0x202F
    || n == 0x205F || n == 0x3000
  }

  predicate IsAsciiLetter(c: char) { ('a' <= c <= 'z') || ('A' <= c <= 'Z') }
  predicate IsAsciiDigit(c: char) { '0' <= c <= '9' }

  function UpperChar(c: char): char { if 'a' <= c <= 'z' then (c as int - 32) as char else c }
  function LowerChar(c: char): char { if 'A' <= c <= 'Z' then (c as int + 32) as char else c }

  /** QString::toUpper restricted to the ASCII letters, the only ones the core compares. */
  function ToUpper(s: string): (r: string)
    ensures |r| == |s|
    ensures forall i :: 0 <= i < |s| ==> r[i] == UpperChar(s[i])
  {
    if s == [] then [] else [UpperChar(s[0])] + ToUpper(s[1..])
  }

  function ToLower(s: string): (r: string)
    ensures |r| == |s|
    ensures forall i :: 0 <= i < |s| ==> r[i] == LowerChar(s[i])
  {
    if s == [] then [] else [LowerChar(s[0])] + ToLower(s[1..])
  }

  // ---------------------------------------------------------------------
  // Substrings, QString style

  predicate StartsWith(s: string, p: string) { |p| <= |s| && s[..|p|] == p }
  predicate EndsWith(s: string, p: string) { |p| <= |s| && s[|s| - |p|..] == p }

  /** QString::left: the first `n` characters, the whole string when `n` is negative or too large. */
  function Left(s: string, n: int): (r: string)
    ensures 0 <= n <= |s| ==> r == s[..n]
    ensures (n < 0 || n > |s|) ==> r == s
  {
    if 0 <= n <= |s| then s[..n] else s
  }

  /** QString::right: the last `n` characters, the whole string when `n` is negative or too large. */
  function Right(s: string, n: int): (r: string)
    ensures 0 <= n <= |s| ==> r == s[|s| - n..]
    ensures (n < 0 || n > |s|) ==> r == s
  {
    if 0 <= n <= |s| then s[|s| - n..] else s
  }

  /** QString::mid(pos, n): empty past the end; `n < 0` means "to the end". */
  function Mid(s: string, pos: nat, n: int): (r: string)
    ensures pos >= |s| ==> r == []
    ensures pos < |s| && n < 0 ==> r == s[pos..]
    ensures pos < |s| && 0 <= n && pos + n <= |s| ==> r == s[pos..pos + n]
    ensures pos < |s| && 0 <= n && pos + n > |s| ==> r == s[pos..]
  {
    if pos >= |s| then []
    else if n < 0 || pos + n > |s| then s[pos..]
    else s[pos..pos + n]
  }

  /** QString::mid(pos) with the default length. */
  function From(s: string, pos: nat): (r: string)
    ensures pos <= |s| ==> r == s[pos..]
    ensures pos > |s| ==> r == []
  {
    Mid(s, pos, -1)
  }

  /** QString::indexOf(c): the first position holding `c`, or -1. */
  function IndexOf(s: string, c: char): (r: int)
    ensures -1 <= r < |s|
    ensures r >= 0 ==> s[r] == c
    ensures forall j :: 0 <= j < |s| && (r == -1 || j < r) ==> s[j] != c
  {
    if s == [] then -1
    else if s[0] == c then 0
    else
      var k := IndexOf(s[1..], c);
      if k < 0 then -1 else k + 1
  }

  /** QString::lastIndexOf(c): the last position holding `c`, or -1. */
  function LastIndexOf(s: string, c: char): (r: int)
    ensures -1 <= r < |s|
    ensures r >= 0 ==> s[r] == c
    ensures forall j :: r < j < |s| ==> s[j] != c
  {
    if s == [] then -1
    else if s[|s| - 1] == c then |s| - 1
    else LastIndexOf(s[..|s| - 1], c)
  }

  /** Every character of `s` that is not `c`, in order (QString::remove(c)). */
  function Remove(s: string, cs: set<char>): (r: string)
    ensures forall c :: c in r ==> c !in cs && c in s
    ensures |r| <= |s|
    ensures (forall c :: c in s ==> c !in cs) ==> r == s
  {
    if s == [] then []
    else if s[0] in cs then Remove(s[1..], cs)
    else [s[0]] + Remove(s[1..], cs)
  }

  // ---------------------------------------------------------------------
  // White space

  /** `s` without its leading white space. */
  function DropSpaces(s: string): string
  {
    if s != [] && IsSpace(s[0]) then DropSpaces(s[1..]) else s
  }

  lemma {:induction false} DropSpacesFacts(s: string)
    ensures |DropSpaces(s)| <= |s|
    ensures DropSpaces(s) == [] || !IsSpace(DropSpaces(s)[0])
    ensures s != [] && IsSpace(s[0]) ==> |DropSpaces(s)| < |s|
    ensures s != [] && !IsSpace(s[0]) ==> DropSpaces(s) == s
    decreases |s|
  {
    if s != [] && IsSpace(s[0]) {
      DropSpacesFacts(s[1..]);
    }
  }

  /** `s` without its trailing white space. */
  function DropTrailingSpaces(s: string): string
  {
    if s != [] && IsSpace(s[|s| - 1]) then DropTrailingSpaces(s[..|s| - 1]) else s
  }

  /** QString::trimmed. */
  function Trim(s: string): string { DropTrailingSpaces(DropSpaces(s)) }

  /** A string that neither starts nor ends with white space is its own trimmed form. */
  lemma TrimIdentity(s: string)
    requires s == [] || (!IsSpace(s[0]) && !IsSpace(s[|s| - 1]))
    ensures Trim(s) == s
  {
  }

  /**
   * The body of QString::simplified, applied to a string that does not start
   * with white space: every run of white space becomes one ' ', a run at the
   * end disappears.
   */
  function Collapse(s: string): (r: string)
    requires s == [] || !IsSpace(s[0])
    ensures r == [] || (!IsSpace(r[0]) && !IsSpace(r[|r| - 1]))
    ensures forall i :: 0 <= i < |r| && IsSpace(r[i]) ==> r[i] == ' '
    ensures forall i :: 0 <= i < |r| - 1 && IsSpace(r[i]) ==> !IsSpace(r[i + 1])
    decreases |s|
  {
    if s == [] then []
    else
      var rest := s[1..];
      if rest != [] && IsSpace(rest[0]) then
        var t := DropSpaces(rest);
        DropSpacesFacts(rest);
        if t == [] then [s[0]] else [s[0], ' '] + Collapse(t)
      else
        var c := Collapse(rest);
        [s[0]] + c
  }

  /**
   * QString::simplified: no white space at either end and every inner run of
   * white space replaced by a single space.
   */
  function Simplified(s: string): (r: string)
    ensures r == [] || (!IsSpace(r[0]) && !IsSpace(r[|r| - 1]))
    ensures forall i :: 0 <= i < |r| && IsSpace(r[i]) ==> r[i] == ' '
    ensures forall i :: 0 <= i < |r| - 1 && IsSpace(r[i]) ==> !IsSpace(r[i + 1])
  {
    DropSpacesFacts(s);
    Collapse(DropSpaces(s))
  }

  // ---------------------------------------------------------------------
  // Splitting

  /**
   * QString::split on a character class, keeping empty parts: one part more
   * than there are separator characters.
   */
  function Split(s: string, seps: set<char>): (r: seq<string>)
    ensures |r| >= 1
  {
    if s == [] then [""]
    else if s[0] in seps then [""] + Split(s[1..], seps)
    else
      var t := Split(s[1..], seps);
      [[s[0]] + t[0]] + t[1..]
  }

  /** The parts of `s` split on `seps` that are not empty (Qt's SkipEmptyParts). */
  function SplitSkipEmpty(s: string, seps: set<char>): (r: seq<string>)
    ensures forall k :: 0 <= k < |r| ==> r[k] != []
  {
    NonEmpty(Split(s, seps))
  }

  function NonEmpty(parts: seq<string>): (r: seq<string>)
    ensures forall k :: 0 <= k < |r| ==> r[k] != []
    ensures |r| <= |parts|
  {
    if parts == [] then []
    else if parts[0] == [] then NonEmpty(parts[1..])
    else [parts[0]] + NonEmpty(parts[1..])
  }

  /** Splitting a string that starts with a separator-free part and one separator. */
  lemma {:induction false} SplitAtSeparator(a: string, c: char, b: string, seps: set<char>)
    requires forall x :: x in a ==> x !in seps
    requires c in seps
    ensures Split(a + [c] + b, seps) == [a] + Split(b, seps)
    decreases |a|
  {
    if a == [] {
      assert a + [c] + b == [c] + b;
      assert ([c] + b)[1..] == b;
    } else {
      SplitAtSeparator(a[1..], c, b, seps);
      assert (a + [c] + b)[1..] == a[1..] + [c] + b;
      assert [a[0]] + a[1..] == a;
    }
  }

  /** A string without separators is a single part. */
  lemma {:induction false} SplitNoSeparator(a: string, seps: set<char>)
    requires forall x :: x in a ==> x !in seps
    ensures Split(a, seps) == [a]
    decreases |a|
  {
    if a != [] {
      SplitNoSeparator(a[1..], seps);
      assert [a[0]] + a[1..] == a;
    }
  }

  // ---------------------------------------------------------------------
  // Numbers: parsing

  /** The value of digit `c` in `base` (2..16, either letter case), or -1. */
  function DigitValue(c: char, base: nat): (v: int)
    ensures -1 <= v < base
  {
    var d :=
      if '0' <= c <= '9' then c as int - '0' as int
      else if 'a' <= c <= 'f' then c as int - 'a' as int + 10
      else if 'A' <= c <= 'F' then c as int - 'A' as int + 10
      else -1;
    if d < base then d else -1
  }

  predicate AllDigits(s: string, base: nat)
  {
    s == [] || (AllDigits(s[..|s| - 1], base) && DigitValue(s[|s| - 1], base) >= 0)
  }

  /** The number that a string of digits denotes, most significant digit first. */
  function DigitsValue(s: string, base: nat): (v: nat)
    requires AllDigits(s, base)
  {
    if s == [] then 0
    else DigitsValue(s[..|s| - 1], base) * base + DigitValue(s[|s| - 1], base)
  }

  /** The unsigned magnitude of a trimmed, sign-less number; base 16 allows a `0x` prefix. */
  function Magnitude(t: string, base: nat): (r: Option<nat>)
  {
    var d := if base == 16 && |t| >= 2 && t[0] == '0' && (t[1] == 'x' || t[1] == 'X') then t[2..] else t;
    if d != [] && AllDigits(d, base) then Some(DigitsValue(d, base)) else None
  }

  /**
   * The integer QString::toLongLong(ok, base) reads: white space around it,
   * an optional sign, then one or more digits of `base`; no range limit.
   */
  function ParseInteger(s: string, base: nat): (r: Option<int>)
  {
    var t := Trim(s);
    if t != [] && (t[0] == '+' || t[0] == '-') then
      var m := Magnitude(t[1..], base);
      if m.None? then None else Some(if t[0] == '-' then -(m.value as int) else m.value as int)
    else
      var m := Magnitude(t, base);
      if m.None? then None else Some(m.value as int)
  }

  /** QString::toInt: a decimal number in the range of a 32-bit int. */
  function ToInt(s: string): (r: Option<int>)
    ensures r.Some? ==> -0x8000_0000 <= r.value < 0x8000_0000
  {
    var p := ParseInteger(s, 10);
    if p.Some? && -0x8000_0000 <= p.value < 0x8000_0000 then p else None
  }

  /** QString::toShort: a decimal number in the range of a 16-bit short. */
  function ToShort(s: string): (r: Option<int>)
    ensures r.Some? ==> -0x8000 <= r.value < 0x8000
  {
    var p := ParseInteger(s, 10);
    if p.Some? && -0x8000 <= p.value < 0x8000 then p else None
  }

  /** QString::toUShort(ok, 16): a hexadecimal number in the range of a 16-bit unsigned short. */
  function ToUShortHex(s: string): (r: Option<int>)
    ensures r.Some? ==> 0 <= r.value < 0x1_0000
  {
    var p := ParseInteger(s, 16);
    if p.Some? && 0 <= p.value < 0x1_0000 then p else None
  }

  /** `x` times ten to the power `e`. */
  function ScaleBy(x: real, e: int): (r: real)
    ensures x > 0.0 ==> r > 0.0
    ensures x == 0.0 ==> r == 0.0
    decreases if e >= 0 then e else -e
  {
    if e == 0 then x
    else if e > 0 then ScaleBy(x * 10.0, e - 1)
    else ScaleBy(x / 10.0, e + 1)
  }

  /** The value of `digits[.digits]` with at least one digit in all; `None` otherwise. */
  function ParseMantissa(m: string): Option<real>
  {
    var dot := IndexOf(m, '.');
    var whole := if dot < 0 then m else m[..dot];
    var frac := if dot < 0 then [] else m[dot + 1..];
    if |whole| + |frac| > 0 && AllDigits(whole, 10) && AllDigits(frac, 10) then
      Some(DigitsValue(whole, 10) as real + ScaleBy(DigitsValue(frac, 10) as real, -|frac|))
    else None
  }

  /**
   * The number QString::toDouble reads, as an exact rational: white space
   * around it, an optional sign, a mantissa with an optional decimal point
   * and an optional exponent `e[sign]digits`.
   */
  function ParseReal(s: string): (r: Option<real>)
  {
    var t := Trim(s);
    var neg := t != [] && t[0] == '-';
    var u := if t != [] && (t[0] == '+' || t[0] == '-') then t[1..] else t;
    var e := IndexOf(ToLower(u), 'e');
    var mant := if e < 0 then u else u[..e];
    var exp := if e < 0 then Some(0) else ParseExponent(u[e + 1..]);
    var m := ParseMantissa(mant);
    if m.None? || exp.None? then None
    else Some(ScaleBy(if neg then -m.value else m.value, exp.value))
  }

  function ParseExponent(s: string): Option<int>
  {
    if s != [] && (s[0] == '+' || s[0] == '-') then
      if |s| > 1 && AllDigits(s[1..], 10) then
        Some(if s[0] == '-' then -(DigitsValue(s[1..], 10) as int) else DigitsValue(s[1..], 10) as int)
      else None
    else if s != [] && AllDigits(s, 10) then Some(DigitsValue(s, 10) as int)
    else None
  }

  // ---------------------------------------------------------------------
  // Numbers: formatting

  function DigitChar(d: nat, base: nat): (c: char)
    requires d < base <= 16
    ensures DigitValue(c, base) == d
  {
    if d < 10 then ('0' as int + d) as char else ('a' as int + d - 10) as char
  }

  /** The digits of `n` in `base`, most significant first, no leading zeros ("0" for zero). */
  function NatToString(n: nat, base: nat): (r: string)
    requires 2 <= base <= 16
    ensures r != []
    decreases n
  {
    if n < base then [DigitChar(n, base)]
    else
      DivMod(n, base);
      NatToString(n / base, base) + [DigitChar(n % base, base)]
  }

  /** The digits NatToString writes are digits of `base` and denote `n`. */
  lemma {:induction false} NatToStringValue(n: nat, base: nat)
    requires 2 <= base <= 16
    ensures AllDigits(NatToString(n, base), base)
    ensures DigitsValue(NatToString(n, base), base) == n
    decreases n
  {
    var r := NatToString(n, base);
    if n >= base {
      DivMod(n, base);
      var p := NatToString(n / base, base);
      NatToStringValue(n / base, base);
      assert r[..|r| - 1] == p;
    }
  }

  /** Every character of a string of digits is a digit. */
  lemma {:induction false} AllDigitsAt(s: string, base: nat, i: nat)
    requires AllDigits(s, base) && i < |s|
    ensures DigitValue(s[i], base) >= 0
    decreases |s|
  {
    if i < |s| - 1 {
      AllDigitsAt(s[..|s| - 1], base, i);
    }
  }

  lemma DivMod(n: nat, base: nat)
    requires 2 <= base
    ensures (n / base) * base + n % base == n
    ensures n >= base ==> n / base < n
  {
  }

  /** printf("%d"). */
  function IntToString(n: int): (r: string)
  {
    if n < 0 then "-" + NatToString(-n, 10) else NatToString(n, 10)
  }

  /** printf("%02d"): at least two characters, zero-padded on the left. */
  function Pad2(n: int): (r: string)
    ensures |r| >= 2
  {
    if 0 <= n < 10 then "0" + NatToString(n, 10)
    else if n >= 10 then
      var r := NatToString(n, 10);
      assert |r| >= 2 by {
        assert NatToString(n, 10) == NatToString(n / 10, 10) + [DigitChar(n % 10, 10)];
      }
      r
    else "-" + NatToString(-n, 10)
  }

  /** The decimal rendering of a number is made of ASCII digits only. */
  lemma {:induction false} NatToStringDigits(n: nat)
    ensures forall c :: c in NatToString(n, 10) ==> IsAsciiDigit(c)
    decreases n
  {
    if n >= 10 { NatToStringDigits(n / 10); }
  }

  /** Parsing what IntToString printed gives the number back. */
  lemma IntToStringRoundTrip(n: int)
    ensures ParseInteger(IntToString(n), 10) == Some(n)
  {
    var s := IntToString(n);
    var t := NatToString(if n < 0 then -n else n, 10);
    NatToStringValue(if n < 0 then -n else n, 10);
    AllDigitsAt(t, 10, 0);
    AllDigitsAt(t, 10, |t| - 1);
    assert Magnitude(t, 10) == Some(if n < 0 then -n else n);
    if n < 0 {
      assert s[0] == '-' && s[1..] == t && s[|s| - 1] == t[|t| - 1];
    }
    TrimIdentity(s);
  }

  /** Two-digit numbers print as two digits and read back as themselves. */
  lemma Pad2RoundTrip(n: int)
    requires 0 <= n < 100
    ensures |Pad2(n)| == 2 && IsAsciiDigit(Pad2(n)[0]) && IsAsciiDigit(Pad2(n)[1])
    ensures ParseInteger(Pad2(n), 10) == Some(n)
  {
    var s := Pad2(n);
    NatToStringValue(n, 10);
    if n < 10 {
      assert s == "0" + [DigitChar(n, 10)];
      assert s[..1] == "0";
    } else {
      assert n / 10 < 10;
      assert NatToString(n / 10, 10) == [DigitChar(n / 10, 10)];
      assert s == [DigitChar(n / 10, 10), DigitChar(n % 10, 10)];
    }
    assert s[..1] == [s[0]];
    assert AllDigits(s, 10) && DigitsValue(s, 10) == n;
    AllDigitsAt(s, 10, 0);
    AllDigitsAt(s, 10, 1);
    assert !IsSpace(s[0]) && !IsSpace(s[1]);
    TrimIdentity(s);
  }
}
