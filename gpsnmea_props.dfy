/**
 * Properties of the NMEA decoder: which lines are taken, what the checksum
 * catches, the order of the link states, the decoding of coordinates, time
 * and date, the altitude reconciliation, the GSV series and the timeouts.
 */
module GpsNmeaProperties {
  import opened Text
  import opened Bits
  import opened GpsNmea

  // ---------------------------------------------------------------------
  // Line acceptance

  /** A line that does not start with `$` or holds no `*` is dropped before anything changes. */
  lemma MalformedLineRejected(st: NmeaState, line: string, cfg: Config)
    requires line == [] || line[0] != '$' || '*' !in line
    ensures Step(st, line, cfg) == st
  {
    if line != [] && line[0] == '$' {
      assert '*' !in Strip(line);
    }
  }

  /** The checksum of a text is the XOR of the checksums of its parts. */
  lemma {:induction false} XorSumAppend(a: string, b: string)
    ensures XorSum(a + b) == Xor(XorSum(a), XorSum(b))
    decreases |b|
  {
    if b == [] {
      assert a + b == a;
      XorZero(XorSum(a));
    } else {
      var n := |b| - 1;
      assert (a + b)[..|a + b| - 1] == a + b[..n];
      XorSumAppend(a, b[..n]);
      XorAssoc(XorSum(a), XorSum(b[..n]), Masked(b[n]));
    }
  }

  /** The last two of three XORed terms can be swapped. */
  lemma XorSwap(p: nat, a: nat, b: nat)
    ensures Xor(Xor(p, a), b) == Xor(Xor(p, b), a)
  {
    XorAssoc(p, a, b);
    XorComm(a, b);
    XorAssoc(p, b, a);
  }

  /** Replacing one character changes the checksum by the old and the new character's bytes. */
  lemma {:induction false} XorSumUpdate(u: string, i: nat, c: char)
    requires i < |u|
    ensures XorSum(u[i := c]) == Xor(Xor(XorSum(u), Masked(u[i])), Masked(c))
    decreases |u|
  {
    var v := u[i := c];
    var n := |u| - 1;
    var p := XorSum(u[..n]);
    if i == n {
      assert v[..n] == u[..n];
      XorCancel(p, Masked(u[n]));
    } else {
      assert v[..n] == u[..n][i := c];
      XorSumUpdate(u[..n], i, c);
      XorSwap(Xor(p, Masked(u[i])), Masked(c), Masked(u[n]));
      XorSwap(p, Masked(u[i]), Masked(u[n]));
    }
  }

  /** Changing a character that is not a `*` keeps the position of the last `*`. */
  lemma LastStarKept(s: string, k: nat, c: char)
    requires k < |s| && s[k] != '*' && c != '*'
    ensures LastIndexOf(s[k := c], '*') == LastIndexOf(s, '*')
  {
    var s' := s[k := c];
    var p, q := LastIndexOf(s, '*'), LastIndexOf(s', '*');
    assert forall j :: 0 <= j < |s| ==> (s'[j] == '*' <==> s[j] == '*');
    if p >= 0 {
      assert s'[p] == '*';
    }
    if q >= 0 {
      assert s[q] == '*';
    }
  }

  /** The text the checksum covers: from after the `$` to before the first `*`. */
  lemma ChecksumSpan(s: string, j: nat, p: nat)
    requires 1 <= j <= p < |s| && s[j] == '*' && '*' !in s[..j]
    ensures UpToStar(s[1..p]) == s[1..j]
  {
    var t := s[1..p];
    if j < p {
      assert t[j - 1] == '*';
      assert t[..j - 1] == s[1..j];
      assert forall i :: 0 <= i < j - 1 ==> t[i] == s[..j][i + 1];
    } else {
      assert '*' !in t by {
        forall i | 0 <= i < |t| ensures t[i] != '*' { assert t[i] == s[..j][i + 1]; }
      }
    }
  }

  /** A line without CR or LF is its own stripped form, also after a character other than CR and LF is put in. */
  lemma StripNoBreaks(s: string, k: nat, c: char)
    requires '\n' !in s && '\r' !in s && k < |s| && c != '\n' && c != '\r'
    ensures Strip(s) == s && Strip(s[k := c]) == s[k := c]
  {
    var s' := s[k := c];
    assert forall i :: 0 <= i < |s'| ==> s'[i] == (if i == k then c else s[i]);
    assert '\n' !in s' && '\r' !in s';
  }

  /** Replacing one byte of a checksummed text by a different one always changes the checksum. */
  lemma XorChangeDetected(sum: nat, a: nat, b: nat)
    requires a != b
    ensures Xor(Xor(sum, a), b) != sum
  {
    if Xor(Xor(sum, a), b) == sum {
      XorCancel(Xor(sum, a), b);
      XorCancel(a, sum);
      XorCancel(b, sum);
      assert false;
    }
  }

  /** The checksum of a line changes when one character between the `$` and the first `*` is replaced by another of the Latin-1 range. */
  lemma ChecksumChanged(s: string, k: nat, c: char)
    requires 1 <= k < IndexOf(s, '*') <= LastIndexOf(s, '*')
    requires s[k] != '$' && s[k] as int < 256
    requires c != s[k] && c as int < 256 && c != '$' && c != '*'
    ensures LastIndexOf(s[k := c], '*') == LastIndexOf(s, '*')
    ensures NmeaChecksum(s[k := c], LastIndexOf(s, '*')) != NmeaChecksum(s, LastIndexOf(s, '*'))
  {
    var s' := s[k := c];
    var p := LastIndexOf(s, '*');
    LastStarKept(s, k, c);
    var j := IndexOf(s, '*');
    assert '*' !in s[..j];
    assert '*' !in s'[..j] by {
      forall i | 0 <= i < j ensures s'[i] != '*' { }
    }
    ChecksumSpan(s, j, p);
    ChecksumSpan(s', j, p);
    assert s'[1..j] == s[1..j][k - 1 := c];
    XorSumUpdate(s[1..j], k - 1, c);
    XorChangeDetected(XorSum(s[1..j]), Masked(s[k]), Masked(c));
  }

  /** The transmitted checksum is read from the last two characters only. */
  lemma CheckValueKept(s: string, k: nat, c: char)
    requires k < |s| - 2
    ensures CheckValue(s[k := c]) == CheckValue(s)
  {
    assert s[k := c][|s| - 2..] == s[|s| - 2..];
  }

  /**
   * The checksum catches every single-character error in the payload: a
   * taken line in which one character before the first `*` is replaced by
   * another character of the Latin-1 range (other than `$`, `*`, CR and
   * LF) is dropped.
   */
  lemma CorruptedLineRejected(st: NmeaState, line: string, k: nat, c: char, cfg: Config)
    requires !st.signalsBlocked && AcceptedLine(line)
    requires '\n' !in line && '\r' !in line
    requires 1 <= k < IndexOf(line, '*') && k < |line| - 2
    requires line[k] != '$' && line[k] as int < 256
    requires c != line[k] && c as int < 256 && c !in {'$', '*', '\n', '\r'}
    ensures !AcceptedLine(line[k := c])
    ensures Step(st, line[k := c], cfg) == st
  {
    StripNoBreaks(line, k, c);
    CheckValueKept(line, k, c);
    ChecksumChanged(line, k, c);
  }

  // ---------------------------------------------------------------------
  // The link states

  /** `b` comes from `a` by appending events only, and a connected link stays connected. */
  predicate Extends(a: NmeaState, b: NmeaState)
  {
    a.events <= b.events && (a.link.status != NotConnected ==> b.link.status != NotConnected)
  }

  lemma ExtendsTrans(a: NmeaState, b: NmeaState, c: NmeaState)
    requires Extends(a, b) && Extends(b, c)
    ensures Extends(a, c)
  {
    assert c.events[..|a.events|] == b.events[..|b.events|][..|a.events|];
  }

  /** Each field handler only adds events and keeps the link up. */
  lemma LinkStepsExtend(st: NmeaState, mode: string, cfg: Config)
    ensures Extends(st, FixOk(st)) && Extends(st, ClockUpdateSpec(st, cfg)) && Extends(st, GsaFixSpec(st, mode))
  {
  }

  lemma FixStepsExtend(st: NmeaState, a: string, b: string, c: string, d: string)
    ensures Extends(st, ExtractTimeSpec(st, a)) && Extends(st, ExtractDateSpec(st, a))
    ensures Extends(st, ExtractCoordSpec(st, a, b, c, d))
  {
  }

  lemma MotionStepsExtend(st: NmeaState, a: string)
    ensures Extends(st, ExtractKnotSpeedSpec(st, a)) && Extends(st, ExtractHeadingSpec(st, a))
    ensures Extends(st, ExtractSatcountSpec(st, a)) && Extends(st, ConstellationSpec(st, a))
  {
  }

  lemma AltitudeStepExtends(st: NmeaState, a: string, b: string, c: string, d: string, qnh: int)
    ensures Extends(st, ExtractGgaAltitudeSpec(st, a, b, c, d, qnh))
  {
  }

  lemma RmcExtends(st: NmeaState, f: seq<string>, cfg: Config)
    requires |f| >= 10
    ensures Extends(st, RmcSpec(st, f, cfg))
  {
    if f[2] != "V" {
      var s0 := FixOk(st);
      var s1 := ExtractTimeSpec(s0, f[1]);
      var s2 := ExtractDateSpec(s1, f[9]);
      var s3 := ExtractKnotSpeedSpec(s2, f[7]);
      var s4 := ExtractCoordSpec(s3, f[3], f[4], f[5], f[6]);
      var s5 := ExtractHeadingSpec(s4, f[8]);
      LinkStepsExtend(st, "", cfg);
      FixStepsExtend(s0, f[1], "", "", "");
      FixStepsExtend(s1, f[9], "", "", "");
      MotionStepsExtend(s2, f[7]);
      FixStepsExtend(s3, f[3], f[4], f[5], f[6]);
      MotionStepsExtend(s4, f[8]);
      LinkStepsExtend(s5, "", cfg);
      ExtendsTrans(st, s0, s1);
      ExtendsTrans(st, s1, s2);
      ExtendsTrans(st, s2, s3);
      ExtendsTrans(st, s3, s4);
      ExtendsTrans(st, s4, s5);
      ExtendsTrans(st, s5, ClockUpdateSpec(s5, cfg));
    }
  }

  lemma GgaExtends(st: NmeaState, f: seq<string>, qnh: int)
    requires |f| >= 15
    ensures Extends(st, GgaSpec(st, f, qnh))
  {
    if f[6] != "0" {
      var cfg := Config(qnh, false, false);
      var s0 := FixOk(st);
      var s1 := ExtractTimeSpec(s0, f[1]);
      var s2 := ExtractCoordSpec(s1, f[2], f[3], f[4], f[5]);
      var sep := GgaSeparation(f);
      var s3 := ExtractGgaAltitudeSpec(s2, f[9], f[10], sep.0, sep.1, qnh);
      LinkStepsExtend(st, "", cfg);
      FixStepsExtend(s0, f[1], "", "", "");
      FixStepsExtend(s1, f[2], f[3], f[4], f[5]);
      AltitudeStepExtends(s2, f[9], f[10], sep.0, sep.1, qnh);
      MotionStepsExtend(s3, f[7]);
      ExtendsTrans(st, s0, s1);
      ExtendsTrans(st, s1, s2);
      ExtendsTrans(st, s2, s3);
      ExtendsTrans(st, s3, ExtractSatcountSpec(s3, f[7]));
    }
  }

  lemma GllExtends(st: NmeaState, f: seq<string>)
    requires |f| >= 7
    ensures Extends(st, GllSpec(st, f))
  {
    if f[6] == "A" {
      var cfg := Config(1013, false, false);
      var s0 := FixOk(st);
      var s1 := ExtractTimeSpec(s0, f[5]);
      LinkStepsExtend(st, "", cfg);
      FixStepsExtend(s0, f[5], "", "", "");
      FixStepsExtend(s1, f[1], f[2], f[3], f[4]);
      ExtendsTrans(st, s0, s1);
      ExtendsTrans(st, s1, ExtractCoordSpec(s1, f[1], f[2], f[3], f[4]));
    }
  }

  lemma GsaExtends(st: NmeaState, f: seq<string>)
    requires |f| >= 3
    ensures Extends(st, ExtractConstellationSpec(st, f))
  {
    var s0 := GsaFixSpec(st, f[2]);
    LinkStepsExtend(st, f[2], Config(1013, false, false));
    MotionStepsExtend(s0, Constellation(f));
    ExtendsTrans(st, s0, ConstellationSpec(s0, Constellation(f)));
  }

  /** The handlers only add events, and none of them takes the link away. */
  lemma DispatchExtends(st: NmeaState, f: seq<string>, cfg: Config)
    requires |f| >= 1
    ensures Extends(st, Dispatch(st, f, cfg))
  {
    var id := f[0];
    if id == "$GPRMC" && |f| >= 10 {
      RmcExtends(st, f, cfg);
    } else if id == "$GPGLL" && |f| >= 7 {
      GllExtends(st, f);
    } else if id == "$GPGGA" && |f| >= 15 {
      GgaExtends(st, f, cfg.qnh);
    } else if id == "$GPGSA" && |f| >= 18 {
      GsaExtends(st, f);
    }
  }

  /**
   * Every taken line first announces the link: from notConnected the
   * decoder reports noFix and the connection before whatever the sentence
   * itself reports (a validFix included), and the link is up afterwards.
   */
  lemma ConnectedBeforeFix(st: NmeaState, line: string, cfg: Config)
    requires !st.signalsBlocked && AcceptedLine(line)
    ensures Step(st, line, cfg).link.status != NotConnected
    ensures st.link.status == NotConnected ==>
      st.events + [StatusChange(NoFix), ConnectedChange(true)] <= Step(st, line, cfg).events
    ensures st.link.status != NotConnected ==> st.events <= Step(st, line, cfg).events
  {
    DispatchExtends(DataOk(st), Fields(line), cfg);
  }

  /** fixOK: validFix with the fix timer running; validFix is reported only when the status was another one. */
  lemma FixOkSetsValidFix(st: NmeaState)
    ensures FixOk(st).link.status == ValidFix && FixOk(st).link.fixTimerRunning
    ensures FixOk(st).events == st.events + (if st.link.status != ValidFix then [StatusChange(ValidFix)] else [])
  {
  }

  // ---------------------------------------------------------------------
  // Dispatch

  /**
   * Sentences with too few fields for their handler, and sentences of
   * other types, are ignored: a taken line then only marks the link.
   */
  lemma ShortOrUnknownSentenceIgnored(st: NmeaState, line: string, cfg: Config)
    requires !st.signalsBlocked && AcceptedLine(line)
    requires var f := Fields(line);
      (f[0] == "$GPRMC" && |f| < 10) || (f[0] == "$GPGLL" && |f| < 7) || (f[0] == "$GPGGA" && |f| < 15)
      || (f[0] == "$PGRMZ" && |f| < 4) || (f[0] == "$GPGSA" && |f| < 18) || (f[0] == "$GPGSV" && |f| < 8)
      || (f[0] == "$GPDTM" && |f| < 9)
      || f[0] !in {"$GPRMC", "$GPGLL", "$GPGGA", "$PGRMZ", "$GPGSA", "$GPGSV", "$GPDTM"}
    ensures Step(st, line, cfg) == DataOk(st)
  {
  }

  /** A sentence that reports no fix (RMC status V, GLL status other than A, GGA quality 0) only marks the link. */
  lemma NoFixSentenceIgnored(st: NmeaState, f: seq<string>, cfg: Config)
    requires |f| >= 15
    ensures f[2] == "V" ==> RmcSpec(st, f, cfg) == st
    ensures f[6] != "A" ==> GllSpec(st, f) == st
    ensures f[6] == "0" ==> GgaSpec(st, f, cfg.qnh) == st
  {
  }

  // ---------------------------------------------------------------------
  // Decoded values and their change events

  /**
   * A decoded coordinate is the exact one rounded to a thousandth of a
   * minute: within 5 units of 1/600000 degree of degrees plus minutes, and
   * negated in the southern or western hemisphere.
   */
  lemma DecodeAngleAccuracy(s: string, degDigits: nat, hemisphere: string, negative: string)
    ensures var exact := IntField(Left(s, degDigits)) as real * 600000.0 + RealField(From(s, degDigits)) * 10000.0;
      var v := DecodeAngle(s, degDigits, hemisphere, negative) as real;
      var signed := if hemisphere == negative then -v else v;
      -5.0 <= signed - exact <= 5.0
  {
    var x := RealField(From(s, degDigits)) * 1000.0;
    var r := RoundHalfEven(x);
    assert -0.5 <= r as real - x <= 0.5;
    assert (r * 10) as real - x * 10.0 == (r as real - x) * 10.0;
  }

  /** The two hemispheres of the same digits give opposite coordinates. */
  lemma DecodeAngleHemispheres(s: string, degDigits: nat, other: string, negative: string)
    requires other != negative
    ensures DecodeAngle(s, degDigits, negative, negative) == -DecodeAngle(s, degDigits, other, negative)
  {
  }

  /**
   * The position handler stores the decoded position and reports a new
   * position exactly when it differs from the stored one; handling the same
   * fields again changes nothing.
   */
  lemma CoordReportedOnChange(st: NmeaState, slat: string, slatNS: string, slon: string, slonEW: string)
    ensures var r := ExtractCoordSpec(st, slat, slatNS, slon, slonEW);
      r.last.coord == DecodeCoord(slat, slatNS, slon, slonEW)
      && (r.events == st.events + [NewPosition] <==> st.last.coord != DecodeCoord(slat, slatNS, slon, slonEW))
      && (r.events == st.events <==> st.last.coord == DecodeCoord(slat, slatNS, slon, slonEW))
      && ExtractCoordSpec(r, slat, slatNS, slon, slonEW) == r
  {
  }

  /** The time handler keeps a valid time and reports a new fix exactly when the time changed; an invalid time changes nothing. */
  lemma TimeReportedOnChange(st: NmeaState, s: string)
    ensures var r := ExtractTimeSpec(st, s);
      (DecodeTime(s).None? ==> r == st)
      && (DecodeTime(s).Some? ==> r.last.time == DecodeTime(s))
      && (r.events == st.events + [NewFix] <==> DecodeTime(s).Some? && st.last.time != DecodeTime(s))
      && ExtractTimeSpec(r, s) == r
  {
  }

  /** Speed, heading and satellite count are reported exactly when they change, and handling the same field again changes nothing. */
  lemma MotionReportedOnChange(st: NmeaState, s: string)
    ensures var r := ExtractKnotSpeedSpec(st, s);
      r.last.speed == Knots(RealField(s)) && (r.events == st.events + [NewSpeed] <==> st.last.speed != Knots(RealField(s)))
      && ExtractKnotSpeedSpec(r, s) == r
    ensures var r := ExtractHeadingSpec(st, s);
      r.last.heading == RealField(s) && (r.events == st.events + [NewHeading] <==> st.last.heading != RealField(s))
      && ExtractHeadingSpec(r, s) == r
    ensures var r := ExtractSatcountSpec(st, s);
      r.satInfo.satCount == IntField(s) && (r.events == st.events + [NewSatConstellation] <==> st.satInfo.satCount != IntField(s))
      && ExtractSatcountSpec(r, s) == r
  {
  }

  // ---------------------------------------------------------------------
  // Altitudes

  /**
   * The QNH correction rint(d * 8.6) in integers: (86 d + 5) / 10, rounded
   * down. The product is never halfway between two integers, so the
   * rounding rule of rint for ties never applies.
   */
  lemma QnhCorrectionExact(d: int)
    ensures QnhCorrection(d) == (86 * d + 5) / 10
    ensures var x := d as real * 8.6; x - x.Floor as real != 0.5
  {
    var n := 86 * d;
    var q, m := n / 10, n % 10;
    assert n == 10 * q + m && 0 <= m < 10;
    assert m % 2 == 0 by {
      assert n == 2 * (43 * d);
      assert m == n - 10 * q == 2 * (43 * d - 5 * q);
    }
    var x := d as real * 8.6;
    assert x == q as real + m as real / 10.0;
    assert x.Floor == q;
    if m < 5 {
      assert (86 * d + 5) / 10 == q by { assert 86 * d + 5 == 10 * q + (m + 5); }
    } else {
      assert (86 * d + 5) / 10 == q + 1 by { assert 86 * d + 5 == 10 * (q + 1) + (m - 5); }
    }
  }

  /** The standard altitude: the MSL altitude plus (86 (1013 - QNH) + 5) / 10 meters. */
  lemma StdAltitudeExact(msl: real, qnh: int)
    ensures StdAltitude(msl, qnh) == msl + ((86 * (1013 - qnh) + 5) / 10) as real
  {
    QnhCorrectionExact(1013 - qnh);
  }

  /**
   * The altitudes a GGA altitude `a` and geoid separation `s` give: with
   * MSL delivered the GNSS altitude is a + s, with HAE delivered the MSL
   * altitude is a - s, with a user correction it is a less the
   * correction. The standard altitude follows the MSL altitude and is
   * recomputed, and a new altitude reported, only when that changed.
   */
  lemma GgaAltitudeReconciled(st: NmeaState, altitude: string, unitAlt: string,
                              heightOfGeoid: string, unitHeight: string, qnh: int)
    ensures var a, s := Meters(altitude, unitAlt), Meters(heightOfGeoid, unitHeight);
      var r := ExtractGgaAltitudeSpec(st, altitude, unitAlt, heightOfGeoid, unitHeight, qnh);
      (st.deliveredAltitude == MSL ==> r.altitude.gnss == a + s && r.altitude.msl == a)
      && (st.deliveredAltitude == HAE ==> r.altitude.gnss == a && r.altitude.msl == a - s)
      && (st.deliveredAltitude == USER ==> r.altitude.gnss == a && r.altitude.msl == a - st.userAltitudeCorrection)
      && r.altitude.std == (if r.altitude.msl != st.altitude.msl then StdAltitude(r.altitude.msl, qnh) else st.altitude.std)
      && r.altitude.pressure == st.altitude.pressure
      && (r.events == st.events + [NewAltitude] <==> r.altitude.msl != st.altitude.msl)
      && (r.events == st.events <==> r.altitude.msl == st.altitude.msl)
  {
  }

  /** "0" read as a decimal number. */
  lemma ZeroText()
    ensures RealField("0") == 0.0
  {
    var z := "0";
    TrimIdentity(z);
    assert ToLower(z) == "0";
    assert IndexOf(ToLower(z), 'e') == -1;
    assert IndexOf(z, '.') == -1;
    assert AllDigits(z, 10) && DigitsValue(z, 10) == 0 by {
      assert z[..0] == [];
    }
    assert ParseMantissa(z) == Some(0.0);
  }

  /** A GGA sentence with an empty geoid separation is read with a separation of 0 m. */
  lemma EmptySeparationIsZero(f: seq<string>)
    requires |f| >= 13 && f[11] == ""
    ensures Meters(GgaSeparation(f).0, GgaSeparation(f).1) == 0.0
  {
    ZeroText();
  }

  // ---------------------------------------------------------------------
  // GSV series

  /** A GSV sentence whose sequence number is not the one expected is ignored; the counter stays where it is. */
  lemma GsvOutOfSequenceIgnored(st: NmeaState, f: seq<string>)
    requires |f| >= 8 && GsvNumber(f) != st.gsv.cntSivSentence
    ensures ExtractSatsInViewSpec(st, f) == st
  {
  }

  /** With the eight fields the dispatch demands, every field the GSV branch reads is there. */
  lemma GsvReadsInRange(f: seq<string>, cnt: Uint32)
    requires |f| >= 8
    ensures forall i :: GsvReads(f, cnt, i) ==> i < |f|
  {
  }

  /** The satellites of a sentence are appended after those already collected. */
  lemma {:induction false} GsvSatellitesFromAppend(a: seq<SIVInfo>, b: seq<SIVInfo>, f: seq<string>, k: nat)
    ensures GsvSatellitesFrom(a + b, f, k) == a + GsvSatellitesFrom(b, f, k)
    decreases 20 - k
  {
    if !(k > 16 || k + 3 >= |f|) {
      var sat := SatFromFields(f[k], f[k + 1], f[k + 2], f[k + 3]);
      if sat.Some? {
        assert AddSat(a + b, f, k) == a + AddSat(b, f, k);
      }
      GsvSatellitesFromAppend(a, AddSat(b, f, k), f, k + 4);
    }
  }

  lemma GsvSatellitesAppend(list: seq<SIVInfo>, f: seq<string>)
    ensures GsvSatellites(list, f) == list + GsvSatellites([], f)
  {
    GsvSatellitesFromAppend(list, [], f, 4);
    assert list + [] == list;
  }

  /** The sentences of a well-formed GSV series of n sentences: numbered 1 to n, each announcing n. */
  predicate GsvSeries(fs: seq<seq<string>>)
  {
    1 <= |fs| < 0xFFFF_FFFF
    && forall i :: 0 <= i < |fs| ==> |fs[i]| >= 8 && GsvNumber(fs[i]) == i + 1 && GsvTotal(fs[i]) == |fs|
  }

  /** The state after the GSV sentences `fs`, one after the other. */
  function FeedGsv(st: NmeaState, fs: seq<seq<string>>): NmeaState
    requires forall i :: 0 <= i < |fs| ==> |fs[i]| >= 8
  {
    if fs == [] then st else ExtractSatsInViewSpec(FeedGsv(st, fs[..|fs| - 1]), fs[|fs| - 1])
  }

  /** The satellites of the sentences `fs`, in order. */
  function SeriesSatellites(fs: seq<seq<string>>): seq<SIVInfo>
  {
    if fs == [] then [] else SeriesSatellites(fs[..|fs| - 1]) + GsvSatellites([], fs[|fs| - 1])
  }

  /** The unsigned counter of a series of fewer than 2^32 - 1 sentences does not wrap around. */
  lemma CounterStep(g: SivSeries, total: Uint32)
    requires 1 <= g.cntSivSentence <= total < 0xFFFF_FFFF
    ensures SeriesEnds(g, total) <==> g.cntSivSentence == total
    ensures !SeriesEnds(g, total) ==> NextSivSeries(g, total).cntSivSentence == g.cntSivSentence + 1
  {
  }

  /**
   * A GSV sentence in sequence: its satellites follow those collected
   * before (none for the first sentence), the counter moves to the next
   * number, and only the last sentence of the series (number equal to the
   * total) publishes the collected satellites, reports them and sets the
   * counter back to 1.
   */
  lemma GsvInSequence(st: NmeaState, f: seq<string>)
    requires |f| >= 8 && GsvNumber(f) == st.gsv.cntSivSentence
    requires 1 <= GsvNumber(f) <= GsvTotal(f) < 0xFFFF_FFFF
    ensures var r := ExtractSatsInViewSpec(st, f);
      var list := (if GsvNumber(f) == 1 then [] else st.gsv.sivInfoInternal) + GsvSatellites([], f);
      if GsvNumber(f) == GsvTotal(f) then
        r.gsv == SivSeries(list, list, 1) && r.events == st.events + [NewSatInViewInfo]
      else
        r.gsv == SivSeries(list, st.gsv.sivInfo, GsvNumber(f) + 1) && r.events == st.events
  {
    var g := st.gsv;
    var total := GsvTotal(f);
    var list := GsvSatellites(if g.cntSivSentence == 1 then [] else g.sivInfoInternal, f);
    GsvSatellitesAppend(if g.cntSivSentence == 1 then [] else g.sivInfoInternal, f);
    CounterStep(g.(sivInfoInternal := list), total);
    CounterStep(g, total);
  }

  /** Within a series, after its first k sentences (k before the last one) the counter expects sentence k + 1 and nothing is published yet. */
  lemma {:induction false} GsvSeriesPrefix(st: NmeaState, fs: seq<seq<string>>, k: nat)
    requires GsvSeries(fs) && st.gsv.cntSivSentence == 1 && 1 <= k < |fs|
    ensures var r := FeedGsv(st, fs[..k]);
      r.gsv == SivSeries(SeriesSatellites(fs[..k]), st.gsv.sivInfo, k + 1) && r.events == st.events
  {
    var pre := fs[..k - 1];
    assert fs[..k][..k - 1] == pre;
    var f := fs[k - 1];
    assert fs[..k][k - 1] == f;
    assert |f| >= 8 && GsvNumber(f) == k && GsvTotal(f) == |fs|;
    if k == 1 {
      assert pre == [];
      GsvInSequence(st, f);
    } else {
      GsvSeriesPrefix(st, fs, k - 1);
      GsvInSequence(FeedGsv(st, pre), f);
    }
  }

  /**
   * A complete series read from its first sentence on publishes exactly the
   * satellites of its sentences, in order, reports them once and leaves the
   * counter at 1 for the next series.
   */
  lemma GsvCompleteSeries(st: NmeaState, fs: seq<seq<string>>)
    requires GsvSeries(fs) && st.gsv.cntSivSentence == 1
    ensures var r := FeedGsv(st, fs);
      r.gsv == SivSeries(SeriesSatellites(fs), SeriesSatellites(fs), 1)
      && r.events == st.events + [NewSatInViewInfo]
  {
    var n := |fs|;
    var f := fs[n - 1];
    assert fs[..n - 1] == fs[..n][..n - 1];
    assert |f| >= 8 && GsvNumber(f) == n && GsvTotal(f) == n;
    if n == 1 {
      GsvInSequence(st, f);
    } else {
      GsvSeriesPrefix(st, fs, n - 1);
      GsvInSequence(FeedGsv(st, fs[..n - 1]), f);
    }
  }

  // ---------------------------------------------------------------------
  // Timeouts and the clock

  /**
   * The fix timeout acts only on a valid fix: the status falls back to
   * noFix, the fix timer stops, and position, speed, heading, altitudes
   * and satellite data return to their initial values; time and date
   * stay. A second expiry changes nothing more.
   */
  lemma FixTimeoutResets(st: NmeaState, now: Time)
    ensures st.link.status != ValidFix ==> FixTimeoutSpec(st, now) == st
    ensures var r := FixTimeoutSpec(st, now);
      st.link.status == ValidFix ==>
        r.link == st.link.(status := NoFix, fixTimerRunning := false)
        && r.events == st.events + [StatusChange(NoFix)]
        && r.last == st.last.(coord := Point(0, 0), speed := UnsetSpeed, heading := -1.0)
        && r.altitude == st.altitude.(msl := 0.0, gnss := 0.0, pressure := 0.0)
        && r.satInfo == SatInfo(1, 999, 0, "", Some(now))
        && r.gsv == st.gsv
    ensures FixTimeoutSpec(FixTimeoutSpec(st, now), now) == FixTimeoutSpec(st, now)
  {
  }

  /**
   * With the ignore flag set, the connection timeout only clears the flag;
   * the next expiry takes a connected link down, reports notConnected and
   * resets the fix data.
   */
  lemma ConnectionTimeoutSkippedOnce(st: NmeaState, now1: Time, now2: Time)
    requires st.link.ignoreConnectionLost
    ensures ConnectionTimeoutSpec(st, now1) == st.(link := st.link.(ignoreConnectionLost := false))
    ensures var r := ConnectionTimeoutSpec(ConnectionTimeoutSpec(st, now1), now2);
      st.link.status != NotConnected ==>
        r.link.status == NotConnected && r.events == st.events + [StatusChange(NotConnected)]
        && r.last.coord == Point(0, 0) && r.satInfo == SatInfo(1, 999, 0, "", Some(now2))
  {
  }

  /** A lost link is not reported twice. */
  lemma ConnectionTimeoutWhenDisconnected(st: NmeaState, now: Time)
    requires st.link.status == NotConnected
    ensures ConnectionTimeoutSpec(st, now) == st.(link := st.link.(ignoreConnectionLost := false))
  {
  }

  /**
   * Setting the system clock (a valid date, root rights) restarts the fix
   * timer and makes the next connection timeout pass without taking the
   * link down; without root rights or a valid date nothing happens.
   */
  lemma ClockSyncSkipsNextTimeout(st: NmeaState, now: Time)
    ensures !ValidDate(st.last.date) ==> SetSystemClockSpec(st, true) == st
    ensures SetSystemClockSpec(st, false) == st
    ensures ValidDate(st.last.date) ==>
      var r := SetSystemClockSpec(st, true);
      r.link.fixTimerRunning && r.events == st.events + [ClockSynchronized]
      && ConnectionTimeoutSpec(r, now).link.status == st.link.status
  {
  }

  /** The clock is updated from at most one RMC sentence: afterwards the update is no longer pending, or not configured. */
  lemma ClockUpdatedOnce(st: NmeaState, cfg: Config)
    ensures var r := ClockUpdateSpec(st, cfg);
      (!r.link.clockUpdatePending || !cfg.syncSystemClock) && ClockUpdateSpec(r, cfg) == r
  {
  }

  // ---------------------------------------------------------------------
  // Time, date and constellation texts

  /** A two-digit field reads back as its number. */
  lemma IntFieldPad2(n: int)
    requires 0 <= n < 100
    ensures |Pad2(n)| == 2 && IntField(Pad2(n)) == n
  {
    Pad2RoundTrip(n);
  }

  /** The three two-digit numbers of a `ddmmyy` or `hhmmss` field are where the decoder reads them. */
  lemma SixDigits(a: int, b: int, c: int, rest: string)
    requires 0 <= a < 100 && 0 <= b < 100 && 0 <= c < 100
    ensures var t := Pad2(a) + Pad2(b) + Pad2(c) + rest;
      IntField(Left(t, 2)) == a && IntField(Mid(t, 2, 2)) == b && IntField(Mid(t, 4, 2)) == c
  {
    IntFieldPad2(a);
    IntFieldPad2(b);
    IntFieldPad2(c);
    var t := Pad2(a) + Pad2(b) + Pad2(c) + rest;
    assert Left(t, 2) == Pad2(a);
    assert Mid(t, 2, 2) == Pad2(b);
    assert Mid(t, 4, 2) == Pad2(c);
  }

  lemma DateDigits(a: int, b: int, c: int)
    requires 0 <= a < 100 && 0 <= b < 100 && 0 <= c < 100
    ensures var t := Pad2(a) + Pad2(b) + Pad2(c);
      IntField(Left(t, 2)) == a && IntField(Mid(t, 2, 2)) == b && IntField(Right(t, 2)) == c
  {
    IntFieldPad2(a);
    IntFieldPad2(b);
    IntFieldPad2(c);
    var t := Pad2(a) + Pad2(b) + Pad2(c);
    assert Left(t, 2) == Pad2(a);
    assert Mid(t, 2, 2) == Pad2(b);
    assert Right(t, 2) == Pad2(c);
  }

  /** `hhmmss` (with any fraction after it) decodes to the time it was written from. */
  lemma DecodeTimeRoundTrip(h: int, m: int, sec: int, rest: string)
    requires ValidTime(h, m, sec)
    ensures DecodeTime(Pad2(h) + Pad2(m) + Pad2(sec) + rest) == Some(Time(h, m, sec))
  {
    SixDigits(h, m, sec, rest);
  }

  /** `ddmmyy` decodes to the date of this century it was written from. */
  lemma DecodeDateRoundTrip(d: Date)
    requires ValidDate(d) && 2000 <= d.year < 2100
    ensures DecodeDate(Pad2(d.day) + Pad2(d.month) + Pad2(d.year - 2000)) == Some(d)
  {
    var t := Pad2(d.day) + Pad2(d.month) + Pad2(d.year - 2000);
    DateDigits(d.day, d.month, d.year - 2000);
    DecodeDateOf(t, d);
  }

  /** A field whose three pairs read as the day, the month and the year in this century decodes to that date. */
  lemma DecodeDateOf(t: string, d: Date)
    requires ValidDate(d)
    requires IntField(Left(t, 2)) == d.day && IntField(Mid(t, 2, 2)) == d.month
    requires IntField(Right(t, 2)) + 2000 == d.year
    ensures DecodeDate(t) == Some(d)
  {
  }

  /** The number of non-empty fields among the fields 3 to `i` - 1. */
  function SatelliteCount(f: seq<string>, i: nat): nat
    requires i <= |f|
  {
    if i <= 3 then 0 else SatelliteCount(f, i - 1) + (if f[i - 1] != [] then 1 else 0)
  }

  /** With satellite numbers below 100, the constellation text holds two characters per satellite, each pair reading back as its number. */
  lemma {:induction false} ConstellationPairs(f: seq<string>, i: nat)
    requires i <= |f|
    requires forall j :: 3 <= j < i && f[j] != [] ==> 0 <= IntField(f[j]) < 100
    ensures |ConstellationUpTo(f, i)| == 2 * SatelliteCount(f, i)
    ensures i > 3 && f[i - 1] != [] ==>
      IntField(ConstellationUpTo(f, i)[|ConstellationUpTo(f, i)| - 2..]) == IntField(f[i - 1])
  {
    if i > 3 {
      ConstellationPairs(f, i - 1);
      if f[i - 1] != [] {
        var n := IntField(f[i - 1]);
        IntFieldPad2(n);
        var c := ConstellationUpTo(f, i);
        assert c[|c| - 2..] == Pad2(n);
      }
    }
  }
}
