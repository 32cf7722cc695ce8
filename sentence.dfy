/**
 * The sending side of the NMEA simulator. A sentence is framed with `$` and
 * `*`. Its checksum is computed over the characters between them and written
 * in hexadecimal after the `*`, and the line is assembled with QString::arg.
 *
 * The checksum loop reads each character through a signed `char` before it
 * widens it to `uint`. So a byte from 128 up contributes its 32-bit sign
 * extension, and the hexadecimal field then grows to eight digits.
 */
module Sentence {
  import opened Text
  import opened Bits

  // ---------------------------------------------------------------------
  // The checksum

  /** uint(QChar::toAscii()) where `char` is signed: bytes from 128 up are sign-extended to 32 bits. */
  function CharCode(c: char): nat
  {
    var b := ToAscii(c);
    if b < 128 then b else b + 0xFFFF_FF00
  }

  /** The XOR that calcCheckSum(pos, s) returns: the codes of s[1], ..., s[pos - 1]. */
  function XorUpTo(s: string, pos: int): nat
    requires pos <= |s|
    decreases pos
  {
    if pos <= 1 then 0 else Xor(XorUpTo(s, pos - 1), CharCode(s[pos - 1]))
  }

  /** The XOR of the bytes s[1], ..., s[pos - 1] themselves, as NMEA 0183 defines the checksum. */
  function ByteSum(s: string, pos: int): (r: Byte)
    requires pos <= |s|
    decreases pos
  {
    if pos <= 1 then 0
    else
      var prev := ByteSum(s, pos - 1);
      XorByte(prev, ToAscii(s[pos - 1]));
      Xor(prev, ToAscii(s[pos - 1]))
  }

  /** calcCheckSum */
  method CalcCheckSum(pos: int, sentence: string) returns (sum: nat)
    requires pos <= |sentence|
    ensures sum == XorUpTo(sentence, pos)
    ensures sum < 0x1_0000_0000
  {
    sum := 0;
    var i := 1;
    while i < pos
      invariant 1 <= i && (i <= pos || i == 1)
      invariant sum == if i <= pos then XorUpTo(sentence, i) else 0
    {
      sum := Xor(sum, CharCode(sentence[i]));
      i := i + 1;
    }
    XorUpToBelow(sentence, pos);
  }

  /** The XOR of 32-bit codes fits the `uint` it is kept in. */
  lemma {:induction false} XorUpToBelow(s: string, pos: int)
    requires pos <= |s|
    ensures XorUpTo(s, pos) < 0x1_0000_0000
    decreases pos
  {
    Pow2Values();
    if pos > 1 {
      XorUpToBelow(s, pos - 1);
      XorBelow(XorUpTo(s, pos - 1), CharCode(s[pos - 1]), 32);
    }
  }

  /** The low byte of the sign-extended sum is the XOR of the bytes. */
  lemma {:induction false} XorUpToLowByte(s: string, pos: int)
    requires pos <= |s|
    ensures XorUpTo(s, pos) % 256 == ByteSum(s, pos)
    decreases pos
  {
    if pos > 1 {
      XorUpToLowByte(s, pos - 1);
      CharCodeLowByte(s[pos - 1]);
      Pow2Values();
      XorLow(XorUpTo(s, pos - 1), CharCode(s[pos - 1]), 8);
    }
  }

  lemma CharCodeLowByte(c: char)
    ensures CharCode(c) % 256 == ToAscii(c)
  {
    var b := ToAscii(c);
    if b >= 128 {
      DivUnique(CharCode(c), 256, 0xFF_FFFF, b);
    }
  }

  /** Over characters below 128 nothing is sign-extended: the two sums agree. */
  lemma {:induction false} XorUpToAscii(s: string, pos: int)
    requires pos <= |s|
    requires forall i :: 1 <= i < pos ==> s[i] as int < 128
    ensures XorUpTo(s, pos) == ByteSum(s, pos)
    decreases pos
  {
    if pos > 1 {
      XorUpToAscii(s, pos - 1);
    }
  }

  // ---------------------------------------------------------------------
  // QString::arg

  /** An escape of QString::arg: its number and how many characters it spans. */
  datatype Escape = Escape(number: nat, length: nat)

  function DigitOf(c: char): nat
    requires IsAsciiDigit(c)
  {
    c as int - '0' as int
  }

  /** The escape `%n`, `%nn`, `%Ln` or `%Lnn` that `s` starts with, if any. */
  function EscapeAt(s: string): (r: Option<Escape>)
    ensures r.Some? ==> |s| >= 2 && s[0] == '%' && 2 <= r.value.length <= |s| && r.value.number < 100
    ensures r.None? && s != [] && s[0] == '%' && |s| >= 2 && s[1] != 'L' ==> !IsAsciiDigit(s[1])
    ensures s != [] && s[0] != '%' ==> r.None?
  {
    if |s| < 2 || s[0] != '%' then None
    else
      var k := if s[1] == 'L' then 2 else 1;
      if k >= |s| || !IsAsciiDigit(s[k]) then None
      else if k + 1 < |s| && IsAsciiDigit(s[k + 1]) then
        Some(Escape(10 * DigitOf(s[k]) + DigitOf(s[k + 1]), k + 2))
      else Some(Escape(DigitOf(s[k]), k + 1))
  }

  /** The lowest escape number in `s`, scanning from the left as findArgEscapes does. */
  function MinEscape(s: string): (r: Option<nat>)
    decreases |s|
  {
    if s == [] then None
    else
      var e := EscapeAt(s);
      if e.None? then MinEscape(s[1..])
      else
        var rest := MinEscape(s[e.value.length..]);
        Some(if rest.Some? && rest.value < e.value.number then rest.value else e.value.number)
  }

  /** `s` with every escape numbered `n` replaced by `a`; the inserted text is not scanned again. */
  function ReplaceArg(s: string, n: nat, a: string): string
    decreases |s|
  {
    if s == [] then []
    else
      var e := EscapeAt(s);
      if e.None? then [s[0]] + ReplaceArg(s[1..], n, a)
      else (if e.value.number == n then a else s[..e.value.length]) + ReplaceArg(s[e.value.length..], n, a)
  }

  /** QString::arg(a): the lowest-numbered escapes become `a`; a string without escapes comes back unchanged. */
  function Arg(s: string, a: string): string
  {
    var m := MinEscape(s);
    if m.None? then s else ReplaceArg(s, m.value, a)
  }

  /** Text without `%` holds no escape: the scan passes over it and the replacement keeps it. */
  lemma {:induction false} ArgSkipsPlainText(x: string, y: string, n: nat, a: string)
    requires '%' !in x
    ensures MinEscape(x + y) == MinEscape(y)
    ensures ReplaceArg(x + y, n, a) == x + ReplaceArg(y, n, a)
    decreases |x|
  {
    if x != [] {
      var s := x + y;
      assert s[0] == x[0] != '%';
      assert EscapeAt(s).None?;
      assert s[1..] == x[1..] + y;
      assert '%' !in x[1..] by {
        forall i | 0 <= i < |x| - 1 ensures x[1..][i] != '%' {
          assert x[1..][i] == x[i + 1];
        }
      }
      ArgSkipsPlainText(x[1..], y, n, a);
      assert ReplaceArg(s, n, a) == [x[0]] + ReplaceArg(x[1..] + y, n, a);
      assert [x[0]] + (x[1..] + ReplaceArg(y, n, a)) == x + ReplaceArg(y, n, a);
    } else {
      assert x + y == y;
    }
  }

  /** A string without `%` is left as it is by arg. */
  lemma ArgOnPlainText(x: string, a: string)
    requires '%' !in x
    ensures MinEscape(x) == None
    ensures Arg(x, a) == x
  {
    ArgSkipsPlainText(x, [], 0, a);
    assert x + [] == x;
  }

  /** The one-escape template "%1" becomes its argument. */
  lemma ArgSingle(a: string)
    ensures Arg("%1", a) == a
  {
    assert EscapeAt("%1") == Some(Escape(1, 2));
    assert "%1"[2..] == [];
    assert a + [] == a;
  }

  /** The template "%1%2\r\n" takes its first argument in place of "%1" and keeps "%2" for the next. */
  lemma ArgTemplate(a: string)
    ensures Arg("%1%2\r\n", a) == a + "%2\r\n"
  {
    var t := "%1%2\r\n";
    assert EscapeAt(t) == Some(Escape(1, 2));
    assert t[2..] == "%2\r\n";
    assert EscapeAt("%2\r\n") == Some(Escape(2, 2));
    assert "%2\r\n"[2..] == "\r\n";
    ArgSkipsPlainText("\r\n", [], 1, a);
    ArgSkipsPlainText("\r\n", [], 2, a);
    assert "\r\n" + [] == "\r\n";
    assert MinEscape("%2\r\n") == Some(2);
    assert MinEscape(t) == Some(1);
    assert ReplaceArg("%2\r\n", 1, a) == "%2\r\n";
  }

  /** The second arg on the assembled line: the checksum replaces "%2" when the framed text holds no `%`. */
  lemma ArgChecksum(s: string, h: string)
    requires '%' !in s
    ensures Arg(s + "%2\r\n", h) == s + h + "\r\n"
  {
    ArgSkipsPlainText(s, "%2\r\n", 2, h);
    assert EscapeAt("%2\r\n") == Some(Escape(2, 2));
    assert "%2\r\n"[2..] == "\r\n";
    ArgSkipsPlainText("\r\n", [], 2, h);
    assert "\r\n" + [] == "\r\n";
    assert MinEscape("%2\r\n") == Some(2);
    assert ReplaceArg("%2\r\n", 2, h) == h + "\r\n";
  }

  // ---------------------------------------------------------------------
  // The hexadecimal field

  /** `s` right-aligned in a field of `width`, filled on the left with `fill`. */
  function PadLeft(s: string, width: nat, fill: char): (r: string)
    ensures |r| == if |s| >= width then |s| else width
    ensures r[|r| - |s|..] == s
    ensures forall i :: 0 <= i < |r| - |s| ==> r[i] == fill
  {
    if |s| >= width then s else seq(width - |s|, _ => fill) + s
  }

  /** QString("%1").arg(n, 2, 16, QChar('0')).toUpper(): n in hexadecimal, at least two digits. */
  function HexField(n: nat): string
  {
    ToUpper(Arg("%1", PadLeft(NatToString(n, 16), 2, '0')))
  }

  predicate IsUpperHexDigit(c: char)
  {
    ('0' <= c <= '9') || ('A' <= c <= 'F')
  }

  /** Upper-casing a character does not change its value as a hexadecimal digit. */
  lemma UpperDigitValue(c: char)
    ensures DigitValue(UpperChar(c), 16) == DigitValue(c, 16)
    ensures DigitValue(c, 16) >= 0 ==> IsUpperHexDigit(UpperChar(c))
  {
  }

  /** Two strings whose characters have the same digit values denote the same number. */
  lemma {:induction false} SameDigits(s: string, t: string, base: nat)
    requires |s| == |t|
    requires forall i :: 0 <= i < |s| ==> DigitValue(s[i], base) == DigitValue(t[i], base)
    ensures AllDigits(s, base) <==> AllDigits(t, base)
    ensures AllDigits(s, base) ==> DigitsValue(s, base) == DigitsValue(t, base)
    decreases |s|
  {
    if s != [] {
      SameDigits(s[..|s| - 1], t[..|t| - 1], base);
    }
  }

  /** A leading zero changes nothing. */
  lemma {:induction false} LeadingZero(s: string, base: nat)
    requires 2 <= base <= 16
    requires AllDigits(s, base)
    ensures AllDigits("0" + s, base)
    ensures DigitsValue("0" + s, base) == DigitsValue(s, base)
    decreases |s|
  {
    if s != [] {
      assert ("0" + s)[..|s|] == "0" + s[..|s| - 1];
      LeadingZero(s[..|s| - 1], base);
    } else {
      assert "0" + s == "0";
      assert "0"[..0] == [];
    }
  }

  /** The value of a string of digits splits at its last two digits. */
  lemma LastTwoDigits(s: string)
    requires AllDigits(s, 16) && |s| >= 2
    ensures AllDigits(s[..|s| - 2], 16) && AllDigits(s[|s| - 2..], 16)
    ensures DigitsValue(s, 16) == DigitsValue(s[..|s| - 2], 16) * 256 + DigitsValue(s[|s| - 2..], 16)
    ensures DigitsValue(s[|s| - 2..], 16) < 256
  {
    var u, v := s[..|s| - 2], s[|s| - 2..];
    var s1 := s[..|s| - 1];
    assert AllDigits(s1, 16);
    assert s1[..|s1| - 1] == u;
    var d0, d1 := DigitValue(s[|s| - 2], 16), DigitValue(s[|s| - 1], 16);
    assert DigitsValue(s1, 16) == DigitsValue(u, 16) * 16 + d0;
    assert v[..1] == [s[|s| - 2]] && v[1] == s[|s| - 1];
    assert [s[|s| - 2]][..0] == [];
    assert DigitsValue(v, 16) == d0 * 16 + d1;
  }

  /** QString::toLongLong(ok, 16) reads a string of hexadecimal digits as their value. */
  lemma ParseHexDigits(w: string)
    requires w != [] && AllDigits(w, 16)
    ensures ParseInteger(w, 16) == Some(DigitsValue(w, 16) as int)
  {
    AllDigitsAt(w, 16, 0);
    AllDigitsAt(w, 16, |w| - 1);
    if |w| >= 2 {
      AllDigitsAt(w, 16, 1);
    }
    TrimIdentity(w);
  }

  /** The digits of a number below 256 in base 16: one or two. */
  lemma HexLength(n: nat)
    ensures n < 16 ==> |NatToString(n, 16)| == 1
    ensures 16 <= n < 256 ==> |NatToString(n, 16)| == 2
    ensures n >= 256 ==> |NatToString(n, 16)| >= 3
  {
    if n >= 16 {
      assert NatToString(n, 16) == NatToString(n / 16, 16) + [DigitChar(n % 16, 16)];
      if n / 16 >= 16 {
        assert NatToString(n / 16, 16) == NatToString(n / 16 / 16, 16) + [DigitChar(n / 16 % 16, 16)];
      }
    }
  }

  /** n in base 16, zero-padded to two digits: digits that denote n, exactly two when n is below 256. */
  lemma PaddedHex(n: nat)
    ensures var p := PadLeft(NatToString(n, 16), 2, '0');
      AllDigits(p, 16) && DigitsValue(p, 16) == n && |p| >= 2 && (|p| == 2 <==> n < 256)
  {
    var d := NatToString(n, 16);
    var p := PadLeft(d, 2, '0');
    NatToStringValue(n, 16);
    HexLength(n);
    if |d| < 2 {
      assert p == "0" + d;
      LeadingZero(d, 16);
    }
  }

  /** Upper-cased hexadecimal digits are upper-case hexadecimal digits with the same value. */
  lemma UpperHex(p: string)
    requires AllDigits(p, 16)
    ensures var h := ToUpper(p);
      (forall c :: c in h ==> IsUpperHexDigit(c))
      && AllDigits(h, 16) && DigitsValue(h, 16) == DigitsValue(p, 16)
  {
    var h := ToUpper(p);
    forall i | 0 <= i < |p|
      ensures DigitValue(h[i], 16) == DigitValue(p[i], 16) && IsUpperHexDigit(h[i])
    {
      UpperDigitValue(p[i]);
      AllDigitsAt(p, 16, i);
    }
    SameDigits(p, h, 16);
  }

  /** The last two of a string of hexadecimal digits read back as the low byte of its value. */
  lemma ReadLowByte(h: string)
    requires AllDigits(h, 16) && |h| >= 2
    ensures ToUShortHex(Right(h, 2)) == Some(DigitsValue(h, 16) % 256)
  {
    var low := h[|h| - 2..];
    assert Right(h, 2) == low;
    LowByteDigits(h, low);
  }

  lemma LowByteDigits(h: string, low: string)
    requires AllDigits(h, 16) && |h| >= 2 && low == h[|h| - 2..]
    ensures ToUShortHex(low) == Some(DigitsValue(h, 16) % 256)
  {
    LastTwoDigits(h);
    var v := DigitsValue(low, 16);
    ReadByte(low);
    DivUnique(DigitsValue(h, 16), 256, DigitsValue(h[..|h| - 2], 16), v);
  }

  /** Two hexadecimal digits read back as an unsigned short. */
  lemma ReadByte(w: string)
    requires AllDigits(w, 16) && w != [] && DigitsValue(w, 16) < 256
    ensures ToUShortHex(w) == Some(DigitsValue(w, 16))
  {
    ParseHexDigits(w);
  }

  /**
   * The hexadecimal field is upper-case hexadecimal digits, at least two of
   * them, exactly two when n is below 256. It reads back as n, and its last
   * two digits read back as the low byte of n.
   */
  lemma HexFieldFacts(n: nat)
    ensures |HexField(n)| >= 2
    ensures |HexField(n)| == 2 <==> n < 256
    ensures forall c :: c in HexField(n) ==> IsUpperHexDigit(c)
    ensures ParseInteger(HexField(n), 16) == Some(n)
    ensures ToUShortHex(Right(HexField(n), 2)) == Some(n % 256)
  {
    var p := PadLeft(NatToString(n, 16), 2, '0');
    PaddedHex(n);
    ArgSingle(p);
    UpperHex(p);
    ParseHexDigits(ToUpper(p));
    HexFieldLowByte(n);
  }

  /** The last two digits of the hexadecimal field read back as the low byte of n. */
  lemma HexFieldLowByte(n: nat)
    ensures ToUShortHex(Right(HexField(n), 2)) == Some(n % 256)
  {
    var p := PadLeft(NatToString(n, 16), 2, '0');
    PaddedHex(n);
    ArgSingle(p);
    UpperHex(p);
    ReadLowByte(ToUpper(p));
  }

  /** The hexadecimal field has two digits exactly when n is below 256, more otherwise. */
  lemma HexFieldWidth(n: nat)
    ensures |HexField(n)| >= 2
    ensures |HexField(n)| == 2 <==> n < 256
  {
    PaddedHex(n);
    ArgSingle(PadLeft(NatToString(n, 16), 2, '0'));
  }

  // ---------------------------------------------------------------------
  // Sending

  /** The sentence between the `$` and the `*` that framing adds, or finds already there. */
  function Body(p: string): string
  {
    var i := if StartsWith(p, "$") then 1 else 0;
    var j := if EndsWith(p, "*") && |p| > i then |p| - 1 else |p|;
    p[i..j]
  }

  /** The sentence with `$` put in front and `*` at the end, unless already there. */
  function Framed(p: string): (r: string)
  {
    (if StartsWith(p, "$") then "" else "$") + p + (if EndsWith(p, "*") then "" else "*")
  }

  /** Whatever the sentence, the framed text is `$`, its body, `*`. */
  lemma FramedShape(p: string)
    ensures Framed(p) == "$" + Body(p) + "*"
  {
    var i := if StartsWith(p, "$") then 1 else 0;
    var j := if EndsWith(p, "*") && |p| > i then |p| - 1 else |p|;
    assert p == p[..i] + p[i..j] + p[j..];
    assert StartsWith(p, "$") ==> p[..i] == "$";
    assert EndsWith(p, "*") ==> p[|p| - 1..] == "*";
    if StartsWith(p, "$") && EndsWith(p, "*") {
      assert |p| > 1 by {
        assert p[0] == '$' && p[|p| - 1] == '*';
      }
    }
  }

  /** The line send() writes for `sentence`, as written. */
  function SendText(sentence: string): string
  {
    var s := Framed(sentence);
    Arg(Arg("%1%2\r\n", s), HexField(XorUpTo(s, |s| - 1)))
  }

  /** The first half of send(): `$` in front unless there, `*` at the end unless there. */
  method FrameSentence(sentence: string) returns (s: string)
    ensures s == Framed(sentence)
  {
    s := "";
    if !StartsWith(sentence, "$") {
      s := "$";
    }
    s := s + sentence;
    if !EndsWith(sentence, "*") {
      s := s + "*";
    }
  }

  /** Sentence::send, without the write to the descriptor and the echo on standard output. */
  method Send(sentence: string) returns (line: string)
    ensures line == SendText(sentence)
  {
    var s := FrameSentence(sentence);
    var pos := |s| - 1;
    var sum := CalcCheckSum(pos, s);
    var hex := HexField(sum);
    line := Arg(Arg("%1%2\r\n", s), hex);
    SendTextOf(sentence, s, hex);
  }

  lemma SendTextOf(sentence: string, s: string, hex: string)
    requires s == Framed(sentence) && hex == HexField(XorUpTo(s, |s| - 1))
    ensures SendText(sentence) == Arg(Arg("%1%2\r\n", s), hex)
  {
  }

  /** For a sentence without `%`, the line is the framed sentence, the checksum field and CR LF. */
  lemma SendShape(p: string)
    requires '%' !in p
    ensures var s := Framed(p);
      SendText(p) == s + HexField(XorUpTo(s, |s| - 1)) + "\r\n"
  {
    var s := Framed(p);
    FramedShape(p);
    assert '%' !in s;
    ArgTemplate(s);
    ArgChecksum(s, HexField(XorUpTo(s, |s| - 1)));
  }

  /**
   * The line as NMEA 0183 frames it: `$`, the body, `*`, the XOR of the
   * body's bytes in two upper-case hexadecimal digits, CR LF.
   */
  function Frame(p: string): string
  {
    var s := Framed(p);
    s + HexField(ByteSum(s, |s| - 1)) + "\r\n"
  }

  /**
   * A framed line is `$`, the body, `*`, two upper-case hexadecimal digits
   * that read back as the XOR of the body's bytes, and CR LF.
   */
  lemma FrameLayout(p: string)
    ensures var s := Framed(p);
      var n := ByteSum(s, |s| - 1);
      var h := HexField(n);
      Frame(p) == "$" + Body(p) + "*" + h + "\r\n"
      && |h| == 2 && IsUpperHexDigit(h[0]) && IsUpperHexDigit(h[1])
      && ParseInteger(h, 16) == Some(n)
  {
    var s := Framed(p);
    FramedShape(p);
    var n := ByteSum(s, |s| - 1);
    HexFieldFacts(n);
    assert HexField(n)[0] in HexField(n) && HexField(n)[1] in HexField(n);
  }

  /** Between its `$` and `*`, the framed text holds only characters of the sentence. */
  lemma FramedChars(p: string, i: int)
    requires 1 <= i < |Framed(p)| - 1
    ensures Framed(p)[i] in p
  {
    FramedShape(p);
    assert Framed(p)[i] == Body(p)[i - 1];
  }

  /** On ASCII sentences without `%`, send() writes exactly the NMEA 0183 line. */
  lemma SendIsFrameOnAscii(p: string)
    requires '%' !in p
    requires forall i :: 0 <= i < |p| ==> p[i] as int < 128
    ensures SendText(p) == Frame(p)
  {
    AsciiSum(p);
    SendShape(p);
  }

  /** Over an ASCII sentence the sign-extended sum is the byte sum. */
  lemma AsciiSum(p: string)
    requires forall i :: 0 <= i < |p| ==> p[i] as int < 128
    ensures XorUpTo(Framed(p), |Framed(p)| - 1) == ByteSum(Framed(p), |Framed(p)| - 1)
  {
    var s := Framed(p);
    forall i | 1 <= i < |s| - 1
      ensures s[i] as int < 128
    {
      FramedChars(p, i);
    }
    XorUpToAscii(s, |s| - 1);
  }

  /**
   * However long the checksum field send() writes, its last two digits read
   * back as the checksum of the NMEA 0183 line.
   */
  lemma ChecksumLowDigits(s: string, pos: int)
    requires pos <= |s|
    ensures ToUShortHex(Right(HexField(XorUpTo(s, pos)), 2)) == Some(ByteSum(s, pos))
  {
    HexFieldLowByte(XorUpTo(s, pos));
    XorUpToLowByte(s, pos);
  }

  // ---------------------------------------------------------------------
  // Where send() departs from the NMEA 0183 line

  /**
   * A Latin-1 character such as 'é' is sign-extended: send() writes its
   * checksum with more than two digits, where the NMEA 0183 line carries
   * the two digits of the byte itself.
   */
  lemma SignExtendedChecksum(c: char)
    requires 128 <= c as int < 256
    ensures var s := "$" + [c] + "*";
      Framed([c]) == s
      && XorUpTo(s, 2) == c as int + 0xFFFF_FF00
      && SendText([c]) == s + HexField(c as int + 0xFFFF_FF00) + "\r\n"
      && |HexField(c as int + 0xFFFF_FF00)| > 2
      && Frame([c]) == s + HexField(c as int) + "\r\n"
      && |HexField(c as int)| == 2
  {
    var s := "$" + [c] + "*";
    assert Framed([c]) == s;
    assert s[1] == c;
    XorZero(c as int + 0xFFFF_FF00);
    XorZero(c as int);
    assert ByteSum(s, 2) == c as int;
    SendShape([c]);
    HexFieldWidth(c as int + 0xFFFF_FF00);
    HexFieldWidth(c as int);
  }

  lemma AppendAssoc(a: string, b: string, c: string)
    ensures (a + b) + c == a + (b + c)
  {
  }

  /** The second arg on a line whose text still holds "%1": it takes the checksum, "%2" stays. */
  lemma ArgAfterPayloadEscape(h: string)
    ensures MinEscape("%1*%2\r\n") == Some(1)
    ensures ReplaceArg("%1*%2\r\n", 1, h) == h + "*%2\r\n"
  {
    var u := "%1*%2\r\n";
    assert EscapeAt(u) == Some(Escape(1, 2));
    assert u[2..] == "*" + "%2\r\n";
    ArgSkipsPlainText("*", "%2\r\n", 1, h);
    assert EscapeAt("%2\r\n") == Some(Escape(2, 2));
    assert "%2\r\n"[2..] == "\r\n";
    ArgSkipsPlainText("\r\n", [], 1, h);
    assert "\r\n" + [] == "\r\n";
    assert MinEscape("%2\r\n") == Some(2);
    assert ReplaceArg("%2\r\n", 1, h) == "%2\r\n";
  }

  /**
   * A sentence ending in "%1" has that escape taken by the second arg: the
   * checksum lands in its place and "%2" stays on the line, where Frame
   * keeps the sentence as it is and appends the checksum.
   */
  lemma ChainedArgReplacesPayload(x: string)
    requires '%' !in x && (x == [] || x[0] != '$')
    ensures var s := "$" + x + "%1*";
      Framed(x + "%1") == s
      && SendText(x + "%1") == "$" + x + HexField(XorUpTo(s, |s| - 1)) + "*%2\r\n"
  {
    var p := x + "%1";
    var s := "$" + x + "%1*";
    assert Framed(p) == s by {
      assert p[0] != '$' && p[|p| - 1] == '1';
    }
    var h := HexField(XorUpTo(s, |s| - 1));
    var t := Arg("%1%2\r\n", s);
    assert t == ("$" + x) + "%1*%2\r\n" by {
      ArgTemplate(s);
      JoinTail("$" + x);
    }
    assert Arg(t, h) == "$" + x + h + "*%2\r\n" by {
      ArgOnPayloadEscape("$" + x, h);
    }
  }

  lemma JoinTail(a: string)
    ensures (a + "%1*") + "%2\r\n" == a + "%1*%2\r\n"
  {
    assert "%1*" + "%2\r\n" == "%1*%2\r\n";
    AppendAssoc(a, "%1*", "%2\r\n");
  }

  lemma ArgOnPayloadEscape(pre: string, h: string)
    requires '%' !in pre
    ensures Arg(pre + "%1*%2\r\n", h) == pre + h + "*%2\r\n"
  {
    ArgSkipsPlainText(pre, "%1*%2\r\n", 1, h);
    ArgAfterPayloadEscape(h);
    AppendAssoc(pre, h, "*%2\r\n");
  }
}
