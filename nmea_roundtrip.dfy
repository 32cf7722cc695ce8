/**
 * The simulator's encoder against Cumulus's decoder: a sentence framed by
 * the encoder is accepted by the decoder's checks, and its fields are the
 * sentence's own. The same round trip shows a GSV sentence that passes the
 * checks but is shorter than the fields the decoder goes on to read.
 */
module NmeaRoundTrip {
  import opened Text
  import opened Bits
  import opened GpsNmea
  import opened Sentence
  import GpsNmeaProperties

  /** A sentence body that the decoder reads back as framed: no `$`, `*`, carriage return or line feed. */
  predicate PlainBody(b: string)
  {
    forall i :: 0 <= i < |b| ==> b[i] != '$' && b[i] != '*' && b[i] != '\r' && b[i] != '\n'
  }

  /** The last `*` of x * y, when y has none. */
  lemma LastStar(x: string, y: string)
    requires '*' !in y
    ensures LastIndexOf(x + "*" + y, '*') == |x|
  {
    var s := x + "*" + y;
    assert s[|x|] == '*';
  }

  /** The bytes the encoder sums are the bytes the decoder sums. */
  lemma {:induction false} ByteSumIsXorSum(b: string, k: nat)
    requires PlainBody(b) && k <= |b|
    ensures ByteSum("$" + b + "*", k + 1) == XorSum(b[..k])
    decreases k
  {
    var s := "$" + b + "*";
    if k == 0 {
      assert b[..0] == [];
    } else {
      ByteSumIsXorSum(b, k - 1);
      assert s[k] == b[k - 1];
      assert b[k - 1] in b;
      XorSumStep(b, k - 1);
    }
  }

  /** Removing CR and LF from a text without them followed by CR LF. */
  lemma {:induction false} StripEnd(t: string)
    requires forall i :: 0 <= i < |t| ==> t[i] != '\r' && t[i] != '\n'
    ensures Strip(t + "\r\n") == t
    decreases |t|
  {
    if t == [] {
      assert t + "\r\n" == "\r\n";
      assert "\r\n"[1..] == "\n";
      assert "\n"[1..] == [];
    } else {
      StripEnd(t[1..]);
      assert (t + "\r\n")[1..] == t[1..] + "\r\n";
      assert [t[0]] + t[1..] == t;
    }
  }

  /** `$` b `*` h holds no CR or LF. */
  lemma LineChars(b: string, h: string)
    requires PlainBody(b) && forall c :: c in h ==> IsUpperHexDigit(c)
    ensures var t := "$" + b + "*" + h;
      forall i :: 0 <= i < |t| ==> t[i] != '\r' && t[i] != '\n'
  {
    var t := "$" + b + "*" + h;
    forall i | 0 <= i < |t|
      ensures t[i] != '\r' && t[i] != '\n'
    {
      if 1 <= i <= |b| {
        assert t[i] == b[i - 1];
      } else if i > |b| + 1 {
        assert t[i] == h[i - |b| - 2];
        assert h[i - |b| - 2] in h;
      }
    }
  }

  /** The decoder's sum over `$` b `*` h up to the `*`: the encoder's sum over the body. */
  lemma BodySum(b: string, h: string)
    requires PlainBody(b)
    ensures NmeaChecksum("$" + b + "*" + h, |b| + 1) == ByteSum("$" + b + "*", |b| + 1)
  {
    BodyBetween(b, h);
    assert UpToStar(b) == b by {
      assert '*' !in b by { BodyChars(b); }
    }
    ByteSumIsXorSum(b, |b|);
    assert b[..|b|] == b;
  }

  lemma BodyBetween(b: string, h: string)
    ensures ("$" + b + "*" + h)[1..|b| + 1] == b
  {
  }

  lemma BodyChars(b: string)
    requires PlainBody(b)
    ensures '$' !in b && '*' !in b && '\r' !in b && '\n' !in b
  {
  }

  /** The transmitted value of a line ending in h: h's last two digits. */
  lemma TailValue(x: string, h: string, n: Byte)
    requires |h| >= 2 && ToUShortHex(Right(h, 2)) == Some(n)
    ensures CheckValue(x + h) == n
  {
    assert Right(x + h, 2) == Right(h, 2);
  }

  /** The checksum of `$` b `*` h read up to its last `*`. */
  lemma BodyChecksum(b: string, h: string)
    requires PlainBody(b)
    requires |h| >= 2 && forall c :: c in h ==> IsUpperHexDigit(c)
    requires ToUShortHex(Right(h, 2)) == Some(ByteSum("$" + b + "*", |b| + 1))
    ensures LastIndexOf("$" + b + "*" + h, '*') == |b| + 1
    ensures ChecksumOk("$" + b + "*" + h, |b| + 1)
  {
    assert '*' !in h;
    LastStar("$" + b, h);
    BodySum(b, h);
    TailValue("$" + b + "*", h, ByteSum("$" + b + "*", |b| + 1));
  }

  /**
   * A line made of `$`, a body, `*`, a field of upper-case hexadecimal
   * digits whose last two carry the XOR of the body, and CR LF passes the
   * decoder's checks.
   */
  lemma BodyLineAccepted(b: string, h: string)
    requires PlainBody(b)
    requires |h| >= 2 && forall c :: c in h ==> IsUpperHexDigit(c)
    requires ToUShortHex(Right(h, 2)) == Some(ByteSum("$" + b + "*", |b| + 1))
    ensures AcceptedLine("$" + b + "*" + h + "\r\n")
  {
    BodyChecksum(b, h);
    CheckedLineAccepted(b, h);
  }

  /** A line whose text before CR LF passes the checksum check is accepted. */
  lemma CheckedLineAccepted(b: string, h: string)
    requires PlainBody(b) && forall c :: c in h ==> IsUpperHexDigit(c)
    requires var t := "$" + b + "*" + h;
      LastIndexOf(t, '*') == |b| + 1 && ChecksumOk(t, |b| + 1)
    ensures AcceptedLine("$" + b + "*" + h + "\r\n")
  {
    StripLine(b, h);
  }

  lemma StripLine(b: string, h: string)
    requires PlainBody(b) && forall c :: c in h ==> IsUpperHexDigit(c)
    ensures Strip("$" + b + "*" + h + "\r\n") == "$" + b + "*" + h
  {
    LineChars(b, h);
    StripEnd("$" + b + "*" + h);
  }

  /** The same, with the framing of a sentence as send() builds it. */
  lemma LineAccepted(p: string, h: string)
    requires PlainBody(Body(p))
    requires |h| >= 2 && forall c :: c in h ==> IsUpperHexDigit(c)
    requires ToUShortHex(Right(h, 2)) == Some(ByteSum(Framed(p), |Framed(p)| - 1))
    ensures AcceptedLine(Framed(p) + h + "\r\n")
  {
    FramedShape(p);
    BodyLineAccepted(Body(p), h);
  }

  /** The NMEA 0183 line of a sentence whose body holds no `$`, `*`, CR or LF passes the decoder's checks. */
  lemma FrameAccepted(p: string)
    requires PlainBody(Body(p))
    ensures AcceptedLine(Frame(p))
  {
    var s := Framed(p);
    var n := ByteSum(s, |s| - 1);
    HexFieldFacts(n);
    LineAccepted(p, HexField(n));
  }

  /**
   * What send() writes for such a sentence without `%` passes the checks
   * too, however long its checksum field: the decoder reads only its last
   * two digits.
   */
  lemma SendAccepted(p: string)
    requires PlainBody(Body(p)) && '%' !in p
    ensures AcceptedLine(SendText(p))
  {
    var s := Framed(p);
    var n := XorUpTo(s, |s| - 1);
    SendShape(p);
    HexFieldFacts(n);
    ChecksumLowDigits(s, |s| - 1);
    LineAccepted(p, HexField(n));
  }

  /** Splitting text that ends in a separator and a part without separators. */
  lemma {:induction false} SplitLast(a: string, c: char, h: string, seps: set<char>)
    requires c in seps && forall x :: x in h ==> x !in seps
    ensures Split(a + [c] + h, seps) == Split(a, seps) + [h]
    decreases |a|
  {
    if a == [] {
      assert a + [c] + h == [c] + h;
      assert ([c] + h)[1..] == h;
      SplitNoSeparator(h, seps);
    } else {
      assert (a + [c] + h)[1..] == a[1..] + [c] + h;
      SplitLast(a[1..], c, h, seps);
    }
  }

  /** The decoder's fields of a framed sentence followed by hexadecimal digits: those of `$` and the body, then the digits. */
  lemma LineFields(p: string, h: string)
    requires PlainBody(Body(p))
    requires forall c :: c in h ==> IsUpperHexDigit(c)
    ensures Fields(Framed(p) + h + "\r\n") == Split("$" + Body(p), FieldSeparators) + [h]
  {
    var b := Body(p);
    FramedShape(p);
    StripLine(b, h);
    assert "$" + b + "*" + h == ("$" + b) + ['*'] + h;
    SplitLast("$" + b, '*', h, FieldSeparators);
  }

  /** The decoder's fields of a framed line: those of `$` and the body, then the checksum field. */
  lemma FrameFields(p: string)
    requires PlainBody(Body(p))
    ensures var s := Framed(p);
      Fields(Frame(p)) == Split("$" + Body(p), FieldSeparators) + [HexField(ByteSum(s, |s| - 1))]
  {
    var s := Framed(p);
    HexFieldFacts(ByteSum(s, |s| - 1));
    LineFields(p, HexField(ByteSum(s, |s| - 1)));
  }

  // ---------------------------------------------------------------------
  // A GSV sentence shorter than the fields the decoder reads

  /** The GSV sentence of a receiver with no satellite in view. */
  const EmptyGsv := "GPGSV,1,1,00"

  /** Four separator-free parts joined by commas split back into those parts. */
  lemma SplitFour(a: string, b: string, c: string, d: string)
    requires forall x :: x in a ==> x !in FieldSeparators
    requires forall x :: x in b ==> x !in FieldSeparators
    requires forall x :: x in c ==> x !in FieldSeparators
    requires forall x :: x in d ==> x !in FieldSeparators
    ensures Split(a + "," + (b + "," + (c + "," + d)), FieldSeparators) == [a, b, c, d]
  {
    var seps := FieldSeparators;
    SplitNoSeparator(d, seps);
    SplitAtSeparator(c, ',', d, seps);
    SplitAtSeparator(b, ',', c + "," + d, seps);
    SplitAtSeparator(a, ',', b + "," + (c + "," + d), seps);
  }

  lemma EmptyGsvBody()
    ensures Body(EmptyGsv) == EmptyGsv
    ensures PlainBody(EmptyGsv)
  {
    assert !StartsWith(EmptyGsv, "$") by { assert EmptyGsv[0] == 'G'; }
    assert !EndsWith(EmptyGsv, "*") by { assert EmptyGsv[|EmptyGsv| - 1] == '0'; }
  }

  lemma EmptyGsvParts()
    ensures PlainBody(Body(EmptyGsv))
    ensures Split("$" + Body(EmptyGsv), FieldSeparators) == ["$GPGSV", "1", "1", "00"]
  {
    EmptyGsvBody();
    assert "$" + EmptyGsv == "$GPGSV" + "," + ("1" + "," + ("1" + "," + "00"));
    SplitFour("$GPGSV", "1", "1", "00");
  }

  /**
   * "$GPGSV,1,1,00" framed with its checksum passes the decoder's checks
   * and has five fields. With the series counter at 1 the GSV branch as
   * written reads field 7, past the end of the list.
   */
  lemma ShortGsvReadsPastEnd()
    ensures var line := Frame(EmptyGsv);
      var f := Fields(line);
      AcceptedLine(line) && |f| == 5 && f[0] == "$GPGSV" && GsvNumber(f) == 1
      && GsvReads(f, 1, 7) && 7 >= |f|
  {
    EmptyGsvParts();
    FrameAccepted(EmptyGsv);
    ShortGsvLine(EmptyGsv);
  }

  /** Any sentence whose fields are those of "GPGSV,1,1,00" gives such a list of fields. */
  lemma ShortGsvLine(p: string)
    requires PlainBody(Body(p))
    requires Split("$" + Body(p), FieldSeparators) == ["$GPGSV", "1", "1", "00"]
    ensures var f := Fields(Frame(p));
      |f| == 5 && f[0] == "$GPGSV" && GsvNumber(f) == 1 && GsvReads(f, 1, 7)
  {
    FrameFieldsOfShortGsv(p);
    FiveFieldsGsv(Fields(Frame(p)));
  }

  lemma FrameFieldsOfShortGsv(p: string)
    requires PlainBody(Body(p))
    requires Split("$" + Body(p), FieldSeparators) == ["$GPGSV", "1", "1", "00"]
    ensures var f := Fields(Frame(p)); |f| == 5 && f[0] == "$GPGSV" && f[2] == "1"
  {
    var s := Framed(p);
    var h := HexField(ByteSum(s, |s| - 1));
    assert forall c :: c in h ==> IsUpperHexDigit(c) by {
      HexFieldFacts(ByteSum(s, |s| - 1));
    }
    ShortGsvFields(p, h);
    assert Frame(p) == s + h + "\r\n";
  }

  lemma ShortGsvFields(p: string, h: string)
    requires PlainBody(Body(p)) && forall c :: c in h ==> IsUpperHexDigit(c)
    requires Split("$" + Body(p), FieldSeparators) == ["$GPGSV", "1", "1", "00"]
    ensures var f := Fields(Framed(p) + h + "\r\n"); |f| == 5 && f[0] == "$GPGSV" && f[2] == "1"
  {
    LineFields(p, h);
    FiveParts(Fields(Framed(p) + h + "\r\n"), h);
  }

  lemma FiveParts(f: seq<string>, h: string)
    requires f == ["$GPGSV", "1", "1", "00"] + [h]
    ensures |f| == 5 && f[0] == "$GPGSV" && f[2] == "1"
  {
  }

  /** Five fields whose series number is 1: the branch as written reads field 7. */
  lemma FiveFieldsGsv(f: seq<string>)
    requires |f| == 5 && f[2] == "1"
    ensures GsvNumber(f) == 1 && GsvReads(f, 1, 7)
  {
    IntToStringRoundTrip(1);
    assert IntToString(1) == "1";
  }

  /** The decoder as modelled, with its check of eight fields, passes that line by and only marks the link as alive. */
  lemma ShortGsvIgnored(st: NmeaState, cfg: Config)
    requires !st.signalsBlocked
    ensures Step(st, Frame(EmptyGsv), cfg) == DataOk(st)
  {
    EmptyGsvParts();
    FrameAccepted(EmptyGsv);
    FrameFields(EmptyGsv);
    GpsNmeaProperties.ShortOrUnknownSentenceIgnored(st, Frame(EmptyGsv), cfg);
  }
}
