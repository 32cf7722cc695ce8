/**
 * Properties of the OpenAir coordinate scanner: how parseCoordinatePart
 * weighs the numbers of a part (degrees, minutes, seconds or hundredths of
 * a minute), where the hemisphere letter sends the value, and what
 * parseCoordinate makes of a whole `DD:MM:SS N DDD:MM:SS E` coordinate.
 * Values are in ten-thousandths of a minute.
 */
module OpenAirCoordinates {
  import opened Text
  import opened OpenAir
  import opened OpenAirProperties

  /** Characters of a coordinate other than its hemisphere letters. */
  predicate Plain(c: char)
  {
    IsAsciiDigit(c) || c == ':' || c == '.' || c == ' '
  }

  predicate PlainText(s: string)
  {
    forall i :: 0 <= i < |s| ==> Plain(s[i])
  }

  predicate NoDigits(s: string)
  {
    forall i :: 0 <= i < |s| ==> !IsAsciiDigit(s[i])
  }

  /** Spaces only. */
  predicate Blank(s: string)
  {
    forall i :: 0 <= i < |s| ==> s[i] == ' '
  }

  /** The value the scanner gives the number `a` on its own. */
  function NumberValue(a: string): Option<int>
  {
    RunValue(a, 0, |a|)
  }

  /** On a numeral, the scanner's digit fold is the decimal value QString::toInt reads. */
  lemma {:induction false} RunNumberDigits(a: string, k: nat)
    requires Numeral(a) && k <= |a|
    ensures AllDigits(a[..k], 10) && RunNumber(a, 0, k) == DigitsValue(a[..k], 10)
  {
    if k > 0 {
      RunNumberDigits(a, k - 1);
      assert a[..k][..k - 1] == a[..k - 1];
      assert a[..k][k - 1] == a[k - 1];
    }
  }

  /** The value of a numeral is what QString::toInt gives for it, including its failure past 32 bits. */
  lemma NumberValueIsToInt(a: string)
    requires Numeral(a)
    ensures NumberValue(a) == ToInt(a)
  {
    RunNumberDigits(a, |a|);
    assert a[..|a|] == a;
    NumeralValue(a);
  }

  /** The run of digits parseCoordinatePart finds is worth what QString::toInt makes of its text. */
  lemma RunValueIsToInt(line: string, p: nat, n: nat)
    requires 0 < n && p + n <= |line|
    requires forall i :: p <= i < p + n ==> IsAsciiDigit(line[i])
    ensures RunValue(line, p, n) == ToInt(line[p..p + n])
  {
    var a := line[p..p + n];
    assert forall i :: 0 <= i < |a| ==> a[i] == line[p + i];
    RunNumberAt(line, p, a, n);
    NumberValueIsToInt(a);
  }

  /** A number the scanner accepts: digits only, within 32 bits. */
  predicate Number(a: string)
  {
    Numeral(a) && NumberValue(a).Some?
  }

  /**
   * `v` is `d` degrees, `m` minutes and `s` seconds in ten-thousandths of a
   * minute, the seconds rounded to the nearest unit: 10000/60 = 1000/6 per
   * second.
   */
  predicate IsDmsValue(v: int, d: string, m: string, s: string)
    requires Number(d) && Number(m) && Number(s)
  {
    var rest := v - NumberValue(d).value * 600000 - NumberValue(m).value * 10000;
    -3 < 6 * rest - 1000 * NumberValue(s).value <= 3
  }

  /** The seconds weight is the seconds rounded to ten-thousandths of a minute (rint of s * 166.67). */
  lemma SecondsRounded(s: nat)
    ensures -3 < 6 * Weight(2, false, s) - 1000 * s <= 3
  {
  }

  lemma PlainConcat(x: string, y: string)
    requires PlainText(x) && PlainText(y)
    ensures PlainText(x + y)
  {
    assert forall i :: |x| <= i < |x + y| ==> (x + y)[i] == y[i - |x|];
  }

  lemma NumberPlain(a: string)
    requires Numeral(a)
    ensures PlainText(a)
  {
  }

  lemma DmsPlain(d: string, m: string, s: string)
    requires Numeral(d) && Numeral(m) && Numeral(s)
    ensures PlainText(DmsText(d, m, s))
  {
    PlainConcat(d, ":");
    PlainConcat(d + ":", m);
    PlainConcat(d + ":" + m, ":");
    PlainConcat(d + ":" + m + ":", s);
  }

  /** The loop's state after a number of value `v` that ends at `next` and is followed by `c`. */
  function After(st: PartState, next: nat, c: char, v: int): PartState
  {
    var w := st.value + Weight(st.index, st.decimal, v);
    if c == ':' then PartState(next + 1, st.index + 1, false, w, true, false)
    else if c == '.' then PartState(next + 1, st.index + 1, true, w, true, false)
    else PartState(next, st.index, st.decimal, w, true, false)
  }

  /** Past characters that are no digits, the digit search finds the number `a` at `p`, whole. */
  lemma RunAt(line: string, from: nat, p: nat, a: string)
    requires Numeral(a) && from <= p && p + |a| <= |line| && line[p..p + |a|] == a
    requires forall i :: from <= i < p ==> !IsAsciiDigit(line[i])
    requires p + |a| == |line| || !IsAsciiDigit(line[p + |a|])
    ensures FindFrom(line, Digits, from) == p && RunLength(line, Digits, p) == |a|
  {
    FindFromSkips(line, Digits, from, p);
    assert forall i :: p <= i < p + |a| ==> line[i] == a[i - p];
    assert InClass(line[p], Digits);
    RunLengthIs(line, Digits, p, |a|);
  }

  /** No digit from `from` on: the search fails. */
  lemma NoRunAfter(line: string, from: nat)
    requires from <= |line|
    requires forall i :: from <= i < |line| ==> !IsAsciiDigit(line[i])
    ensures FindFrom(line, Digits, from) == -1
  {
    FindFromSkips(line, Digits, from, |line|);
  }

  /**
   * The digit search from `from` finds the number `a` at `p`, whole, and
   * `c` right after it.
   */
  predicate NumberAt(line: string, from: nat, p: nat, a: string, c: char)
  {
    FindFrom(line, Digits, from) == p && p + |a| < |line| &&
    RunLength(line, Digits, p) == |a| && line[p..p + |a|] == a && line[p + |a|] == c
  }

  /**
   * One pass of parseCoordinatePart's loop: the number found at `p` is
   * read whole and weighted by the current factor, and the character
   * after it is the separator.
   */
  lemma NumberStep(line: string, st: PartState, p: nat, a: string, c: char)
    requires st.from <= |line| && NumberAt(line, st.from, p, a, c) && NumberValue(a).Some?
    ensures PartStep(line, st) == After(st, p + |a|, c, NumberValue(a).value)
  {
    RunNumberAt(line, p, a, |a|);
    StepValue(line, st, p, |a|, NumberValue(a).value);
  }

  /** The digits at `p` are worth what the number `a` found there is worth. */
  lemma {:induction false} RunNumberAt(line: string, p: nat, a: string, k: nat)
    requires p + |a| <= |line| && line[p..p + |a|] == a && k <= |a|
    ensures RunNumber(line, p, k) == RunNumber(a, 0, k)
  {
    if k > 0 {
      RunNumberAt(line, p, a, k - 1);
      assert line[p + k - 1] == a[k - 1];
    }
  }

  lemma StepValue(line: string, st: PartState, p: nat, n: nat, v: int)
    requires st.from <= |line|
    requires FindFrom(line, Digits, st.from) == p && p + n < |line|
    requires RunLength(line, Digits, p) == n && RunValue(line, p, n) == Some(v)
    ensures PartStep(line, st) == After(st, p + n, line[p + n], v)
  {
    var sep := Separator(line, p + n, st.index, st.decimal);
    assert PartStep(line, st) == PartState(sep.0, sep.1, sep.2, st.value + Weight(st.index, st.decimal, v), true, false);
  }

  /** No digit from the loop's position on: it ends with what it has. */
  lemma NoMoreNumbersAt(line: string, st: PartState)
    requires st.from <= |line| && FindFrom(line, Digits, st.from) == -1
    ensures PartScan(line, st) == (st.value, st.found)
  {
  }

  /** Three passes that each find a number, and no number after them: the loop ends after the third. */
  lemma ChainThree(line: string, s0: PartState, s1: PartState, s2: PartState, s3: PartState)
    requires s0.from < |line|
    requires !s0.stopped && s0.index < 3 && PartStep(line, s0) == s1
    requires !s1.stopped && s1.index < 3 && PartStep(line, s1) == s2
    requires !s2.stopped && s2.index < 3 && PartStep(line, s2) == s3
    requires FindFrom(line, Digits, s3.from) == -1
    ensures PartScan(line, s0) == (s3.value, s3.found)
  {
    NoMoreNumbersAt(line, s3);
    assert PartScan(line, s2) == PartScan(line, s3);
    assert PartScan(line, s1) == PartScan(line, s2);
  }

  /** `D:M:S` or `D:M.S`: three numbers, the last after `c`. */
  function Three(d: string, m: string, c: char, s: string): string
  {
    d + ":" + m + [c] + s
  }

  /** `D:M:S`, three numbers separated by colons. */
  function DmsText(d: string, m: string, s: string): string
  {
    Three(d, m, ':', s)
  }

  /** `D:M.H`, degrees and minutes with hundredths. */
  function DecimalText(d: string, m: string, h: string): string
  {
    Three(d, m, '.', h)
  }

  /** Where the three numbers and their separators sit in `pre D:M.S rest`. */
  lemma ThreeLayout(pre: string, d: string, m: string, c: char, s: string, rest: string)
    ensures var line := pre + Three(d, m, c, s) + rest;
      var p2 := |pre| + |d| + 1;
      var p3 := p2 + |m| + 1;
      |line| == p3 + |s| + |rest| &&
      line[..|pre|] == pre && line[|pre|..|pre| + |d|] == d && line[|pre| + |d|] == ':' &&
      line[p2..p2 + |m|] == m && line[p2 + |m|] == c &&
      line[p3..p3 + |s|] == s && line[p3 + |s|..] == rest
  {
  }

  /**
   * From `p` on the text reads `D:M`, then `c`, `S` and a blank, with no
   * digit before `p` nor after the blank.
   */
  predicate ThreeAt(line: string, p: nat, d: string, m: string, c: char, s: string)
  {
    var p2 := p + |d| + 1;
    var p3 := p2 + |m| + 1;
    p3 + |s| < |line| &&
    (forall i :: 0 <= i < p ==> !IsAsciiDigit(line[i])) &&
    line[p..p + |d|] == d && line[p + |d|] == ':' &&
    line[p2..p2 + |m|] == m && line[p2 + |m|] == c &&
    line[p3..p3 + |s|] == s && line[p3 + |s|] == ' ' &&
    (forall i :: p3 + |s| <= i < |line| ==> !IsAsciiDigit(line[i]))
  }

  /** Three numbers in a row from `p`: the loop weighs each and stops after the third. */
  lemma ScanThreeAt(line: string, p: nat, d: string, m: string, c: char, s: string)
    requires Number(d) && Number(m) && Number(s) && (c == ':' || c == '.')
    requires ThreeAt(line, p, d, m, c, s)
    ensures PartScan(line, PartStart) ==
      (NumberValue(d).value * 600000 + NumberValue(m).value * 10000 + Weight(2, c == '.', NumberValue(s).value), true)
  {
    var p2 := p + |d| + 1;
    var p3 := p2 + |m| + 1;
    var v1 := NumberValue(d).value * 600000;
    var v2 := v1 + NumberValue(m).value * 10000;
    var s1 := PartState(p2, 1, false, v1, true, false);
    var s2 := PartState(p3, 2, c == '.', v2, true, false);
    var s3 := PartState(p3 + |s|, 2, c == '.', v2 + Weight(2, c == '.', NumberValue(s).value), true, false);
    DegreesStep(line, p, d, m, c, s);
    MinutesStep(line, p, d, m, c, s, s1);
    LastStep(line, p, d, m, c, s, s2);
    ChainThree(line, PartStart, s1, s2, s3);
  }

  /** The first pass reads the degrees and moves past the colon. */
  lemma DegreesStep(line: string, p: nat, d: string, m: string, c: char, s: string)
    requires Number(d) && ThreeAt(line, p, d, m, c, s)
    ensures PartStep(line, PartStart) == PartState(p + |d| + 1, 1, false, NumberValue(d).value * 600000, true, false)
  {
    RunAt(line, 0, p, d);
    NumberStep(line, PartStart, p, d, ':');
  }

  /** The second pass reads the minutes and moves past `c`, which marks the last number as decimals or not. */
  lemma MinutesStep(line: string, p: nat, d: string, m: string, c: char, s: string, st: PartState)
    requires Number(m) && (c == ':' || c == '.') && ThreeAt(line, p, d, m, c, s)
    requires st.from == p + |d| + 1 && st.index == 1
    ensures PartStep(line, st) ==
      PartState(p + |d| + |m| + 2, 2, c == '.', st.value + NumberValue(m).value * 10000, true, false)
  {
    RunAt(line, st.from, st.from, m);
    NumberStep(line, st, st.from, m, c);
  }

  /** The third pass reads the last number and stops at the blank; no digit follows. */
  lemma LastStep(line: string, p: nat, d: string, m: string, c: char, s: string, st: PartState)
    requires Number(s) && ThreeAt(line, p, d, m, c, s)
    requires st.from == p + |d| + |m| + 2
    ensures PartStep(line, st) ==
      PartState(st.from + |s|, st.index, st.decimal, st.value + Weight(st.index, st.decimal, NumberValue(s).value), true, false)
    ensures FindFrom(line, Digits, st.from + |s|) == -1
  {
    RunAt(line, st.from, st.from, s);
    NumberStep(line, st, st.from, s, ' ');
    NoRunAfter(line, st.from + |s|);
  }

  /** The value of three numbers: degrees, minutes, and seconds or hundredths of a minute. */
  lemma ThreeNumbersScan(pre: string, d: string, m: string, c: char, s: string, rest: string)
    requires Blank(pre) && Number(d) && Number(m) && Number(s) && (c == ':' || c == '.')
    requires NoDigits(rest) && rest != [] && rest[0] == ' '
    ensures PartScan(pre + Three(d, m, c, s) + rest, PartStart) ==
      (NumberValue(d).value * 600000 + NumberValue(m).value * 10000 + Weight(2, c == '.', NumberValue(s).value), true)
  {
    var line := pre + Three(d, m, c, s) + rest;
    var p3 := |pre| + |d| + |m| + 2;
    ThreeLayout(pre, d, m, c, s, rest);
    assert forall i :: 0 <= i < |pre| ==> line[i] == line[..|pre|][i];
    assert line[p3 + |s|] == line[p3 + |s|..][0];
    assert forall i :: p3 + |s| <= i < |line| ==> line[i] == line[p3 + |s|..][i - (p3 + |s|)];
    ScanThreeAt(line, |pre|, d, m, c, s);
  }

  /** After `D:M:S` and a blank, the scan holds degrees, minutes and rounded seconds. */
  lemma DmsScan(pre: string, d: string, m: string, s: string, rest: string)
    requires Blank(pre) && Number(d) && Number(m) && Number(s)
    requires NoDigits(rest) && rest != [] && rest[0] == ' '
    ensures var scan := PartScan(pre + DmsText(d, m, s) + rest, PartStart);
      scan.1 && IsDmsValue(scan.0, d, m, s)
  {
    ThreeNumbersScan(pre, d, m, ':', s, rest);
    SecondsRounded(NumberValue(s).value);
  }

  /**
   * `D:M.H`: what follows a decimal point counts in hundredths of a minute
   * (factor 100), whatever its number of digits.
   */
  lemma DecimalMinutesScan(pre: string, d: string, m: string, h: string, rest: string)
    requires Blank(pre) && Number(d) && Number(m) && Number(h)
    requires NoDigits(rest) && rest != [] && rest[0] == ' '
    ensures PartScan(pre + DecimalText(d, m, h) + rest, PartStart) ==
      (NumberValue(d).value * 600000 + NumberValue(m).value * 10000 + NumberValue(h).value * 100, true)
  {
    ThreeNumbersScan(pre, d, m, '.', h, rest);
  }

  /** Where a part ended by the letter `h` puts its value `v`: N and S set the latitude, E and W the longitude. */
  function Placed(h: char, v: int, lat: int, lon: int): (bool, int, int)
  {
    match h
    case 'N' => (true, v, lon)
    case 'S' => (true, -v, lon)
    case 'E' => (true, lat, v)
    case _ => (true, lat, -v)
  }

  /** A part whose only hemisphere letter is its last character, past the start. */
  lemma HemisphereAtEnd(line: string, v: int, lat: int, lon: int)
    requires |line| >= 2 && line[|line| - 1] in Hemispheres
    requires forall j :: 0 <= j < |line| - 1 ==> line[j] !in Hemispheres
    ensures Hemisphere(line, v, lat, lon) == Placed(line[|line| - 1], v, lat, lon)
  {
    var h := line[|line| - 1];
    var k := |line| - 1;
    assert IndexOf(line, h) == k;
    forall c | c in Hemispheres && c != h
      ensures IndexOf(line, c) == -1
    {
      assert line[k] != c;
    }
  }

  /** A hemisphere letter at the very start of a part does not count: the part fails. */
  lemma LeadingHemisphereFails(line: string, v: int, lat: int, lon: int)
    requires |line| >= 1 && line[0] in Hemispheres
    requires forall j :: 1 <= j < |line| ==> line[j] !in Hemispheres
    ensures Hemisphere(line, v, lat, lon) == (false, lat, lon)
  {
    forall c | c in Hemispheres
      ensures IndexOf(line, c) <= 0
    {
    }
  }

  /** A part without a digit is refused, and neither coordinate changes. */
  lemma PartWithoutDigitsFails(line: string, lat: int, lon: int)
    requires NoDigits(line)
    ensures CoordinatePart(line, lat, lon) == (false, lat, lon)
  {
    if line != [] {
      FindFromSkips(line, Digits, 0, |line|);
      assert PartStep(line, PartStart).stopped;
      assert PartScan(line, PartStart) == PartScan(line, PartStep(line, PartStart)) == (0, false);
    }
  }

  /** A part with no N, S, E or W past its first character is refused, whatever its numbers. */
  lemma PartWithoutHemisphereFails(line: string, lat: int, lon: int)
    requires forall j :: 1 <= j < |line| ==> line[j] !in Hemispheres
    ensures CoordinatePart(line, lat, lon) == (false, lat, lon)
  {
    forall c | c in Hemispheres
      ensures IndexOf(line, c) <= 0
    {
    }
  }

  /** A blank, `D:M:S`, a blank and a hemisphere letter: the part is accepted and signed by the letter. */
  lemma DmsPart(pre: string, d: string, m: string, s: string, h: char, lat: int, lon: int)
    requires Blank(pre) && Number(d) && Number(m) && Number(s) && h in Hemispheres
    ensures var line := pre + DmsText(d, m, s) + " " + [h];
      var v := PartScan(line, PartStart).0;
      IsDmsValue(v, d, m, s) && CoordinatePart(line, lat, lon) == Placed(h, v, lat, lon)
  {
    var rest := " " + [h];
    var line := pre + DmsText(d, m, s) + rest;
    assert line == pre + DmsText(d, m, s) + " " + [h];
    assert NoDigits(rest);
    DmsScan(pre, d, m, s, rest);
    DmsPlain(d, m, s);
    assert PlainText(pre);
    PlainConcat(pre, DmsText(d, m, s));
    PlainConcat(pre + DmsText(d, m, s), " ");
    assert line == (pre + DmsText(d, m, s) + " ") + [h];
    HemisphereAtEnd(line, PartScan(line, PartStart).0, lat, lon);
  }

  /** The text of a coordinate in degrees, minutes and seconds. */
  function DmsCoordinateText(d1: string, m1: string, s1: string, h1: char,
                             d2: string, m2: string, s2: string, h2: char): string
  {
    DmsText(d1, m1, s1) + " " + [h1] + " " + DmsText(d2, m2, s2) + " " + [h2]
  }

  lemma PlainUpper(s: string)
    requires PlainText(s)
    ensures ToUpper(s) == s
  {
  }

  /** The first hemisphere letter sits at `k`. */
  lemma FirstHemisphereAt(line: string, k: nat)
    requires k < |line| && line[k] in Hemispheres
    requires forall j :: 0 <= j < k ==> line[j] !in Hemispheres
    ensures FirstOf(line, Hemispheres) == k
  {
  }

  /**
   * Two plain parts, each ended by a hemisphere letter: parseCoordinate
   * splits after the first letter and parses the parts in turn, the
   * second starting from what the first set.
   */
  lemma CoordinateSplit(first: string, second: string)
    requires |first| >= 1 && PlainText(first[..|first| - 1]) && first[|first| - 1] in Hemispheres
    requires |second| >= 1 && PlainText(second[..|second| - 1]) && second[|second| - 1] in Hemispheres
    ensures var p1 := CoordinatePart(first, 0, 0);
      var p2 := CoordinatePart(second, p1.1, p1.2);
      Coordinate(first + second) == (p1.0 && p2.0, Point(p2.1, p2.2))
  {
    var line := first + second;
    UpperParts(first, second);
    forall j | 0 <= j < |first| - 1
      ensures line[j] !in Hemispheres
    {
      assert line[j] == first[..|first| - 1][j];
    }
    FirstHemisphereAt(line, |first| - 1);
    assert Left(line, |first|) == first;
    assert From(line, |first|) == second;
  }

  /**
   * parseCoordinate on `D:M:S N D:M:S E` (or S, W): both parts are
   * accepted, the first gives the latitude and the second the longitude,
   * each signed by its hemisphere.
   */
  lemma DmsCoordinate(d1: string, m1: string, s1: string, h1: char,
                      d2: string, m2: string, s2: string, h2: char)
    requires Number(d1) && Number(m1) && Number(s1) && (h1 == 'N' || h1 == 'S')
    requires Number(d2) && Number(m2) && Number(s2) && (h2 == 'E' || h2 == 'W')
    ensures var r := Coordinate(DmsCoordinateText(d1, m1, s1, h1, d2, m2, s2, h2));
      r.0 &&
      IsDmsValue(if h1 == 'N' then r.1.lat else -r.1.lat, d1, m1, s1) &&
      IsDmsValue(if h2 == 'E' then r.1.lon else -r.1.lon, d2, m2, s2)
  {
    var first := "" + DmsText(d1, m1, s1) + " " + [h1];
    var second := " " + DmsText(d2, m2, s2) + " " + [h2];
    assert DmsCoordinateText(d1, m1, s1, h1, d2, m2, s2, h2) == first + second;
    assert PlainText(first[..|first| - 1]) by {
      DmsPlain(d1, m1, s1);
      PlainConcat(DmsText(d1, m1, s1), " ");
      assert first[..|first| - 1] == DmsText(d1, m1, s1) + " ";
    }
    assert PlainText(second[..|second| - 1]) by {
      DmsPlain(d2, m2, s2);
      PlainConcat(" ", DmsText(d2, m2, s2));
      PlainConcat(" " + DmsText(d2, m2, s2), " ");
      assert second[..|second| - 1] == " " + DmsText(d2, m2, s2) + " ";
    }
    CoordinateSplit(first, second);
    DmsPart("", d1, m1, s1, h1, 0, 0);
    var p1 := CoordinatePart(first, 0, 0);
    DmsPart(" ", d2, m2, s2, h2, p1.1, p1.2);
  }

  /** Upper-casing leaves two plain parts, each ended by a hemisphere letter, as they are. */
  lemma UpperParts(first: string, second: string)
    requires |first| >= 1 && PlainText(first[..|first| - 1]) && first[|first| - 1] in Hemispheres
    requires |second| >= 1 && PlainText(second[..|second| - 1]) && second[|second| - 1] in Hemispheres
    ensures ToUpper(first + second) == first + second
  {
    var line := first + second;
    forall i | 0 <= i < |line|
      ensures UpperChar(line[i]) == line[i]
    {
      if i < |first| - 1 {
        assert line[i] == first[..|first| - 1][i];
      } else if |first| <= i < |line| - 1 {
        assert line[i] == second[..|second| - 1][i - |first|];
      }
    }
  }
}
