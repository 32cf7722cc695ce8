/**
 * The NMEA 0183 decoder of the glider computer and its link/fix state
 * machine (class GpsNmea).
 *
 * A line from the GPS receiver is accepted when it starts with `$`, holds a
 * `*` and its last two characters, read as hexadecimal, equal the XOR of
 * the characters between the `$` and the first `*`. An accepted line marks
 * the link as connected and is split at `,`, `*` and `:` into fields; the
 * first field selects one of the handlers for RMC, GLL, GGA, GSA, GSV, DTM
 * and Garmin's PGRMZ. The handlers store time, date, speed, position,
 * heading, altitudes and satellite data and emit a change event only when
 * a stored value changes. Two timers take the fix and the connection away
 * again when no data comes in.
 *
 * Every operation is a method of the class that updates its fields, proved
 * against a function on the snapshot `NmeaState`; the properties are
 * lemmas about those functions. Emitted signals are appended to the field
 * `events`. Configuration (QNH, clock synchronisation, root rights) and the
 * current time are parameters.
 */
module GpsNmea {
  import opened Text
  import opened Bits

  // ---------------------------------------------------------------------
  // Values

  /** connectedStatus */
  datatype Status = NotConnected | NoFix | ValidFix

  /** A valid QTime (hour, minute, second); a null QTime is `None` where one can occur. */
  datatype Time = Time(hour: int, minute: int, second: int)

  /** A QDate. */
  datatype Date = Date(year: int, month: int, day: int)

  /** A QPoint in 1/600000 degree: x is the latitude, y the longitude. */
  datatype Point = Point(x: int, y: int)

  /** The stored speed: the initial sentinel Speed(-1.0) or a speed read in knots. */
  datatype Speed = UnsetSpeed | Knots(knots: real)

  /** What altitude the receiver delivers: above mean sea level, above the ellipsoid, or with a user correction. */
  datatype AltitudeReference = MSL | HAE | USER

  datatype SatInfo = SatInfo(fixValidity: int, fixAccuracy: int, satCount: int,
                             constellation: string, constellationTime: Option<Time>)

  /** One satellite in view: id, elevation, azimuth and signal strength (-1 when not reported). */
  datatype SIVInfo = SIVInfo(id: int, elevation: int, azimuth: int, db: int)

  /** The signals GpsNmea emits, and the one user message it posts. */
  datatype Event =
    | StatusChange(status: Status)
    | ConnectedChange(connected: bool)
    | NewFix | NewSpeed | NewPosition | NewHeading | NewAltitude
    | NewSatConstellation | NewSatInViewInfo
    | ClockSynchronized

  /** The configuration the decoder consults: QNH in hPa, whether to set the system clock, and whether the process runs as root. */
  datatype Config = Config(qnh: int, syncSystemClock: bool, isSuperUser: bool)

  type Uint32 = x: int | 0 <= x < 0x1_0000_0000

  /** A C `int` converted to `uint`: the value modulo 2^32. */
  function ToUint32(x: int): Uint32 { x % 0x1_0000_0000 }

  /** Feet in meters (the conversion of the Altitude class, which is not part of this model). */
  const FeetToMeters: real := 0.3048

  /** The fix timeout in milliseconds. */
  const FixTimeout: int := 25000

  /** The characters the line is split at. */
  const FieldSeparators: set<char> := {',', '*', ':'}

  // ---------------------------------------------------------------------
  // The checksum

  /** What one character adds to the checksum: nothing for `$`, its byte otherwise. */
  function Masked(c: char): Byte
  {
    if c == '$' then 0 else ToAscii(c)
  }

  /** The XOR of the bytes of `t`, leaving out every `$`. */
  function XorSum(t: string): (r: Byte)
  {
    if t == [] then 0
    else
      var prev := XorSum(t[..|t| - 1]);
      var b := Masked(t[|t| - 1]);
      XorByte(prev, b);
      Xor(prev, b)
  }

  /** `t` up to, not including, its first `*`. */
  function UpToStar(t: string): (r: string)
    ensures '*' !in r
    ensures r == t || (|r| < |t| && t[|r|] == '*')
    ensures r == t[..|r|]
  {
    var k := IndexOf(t, '*');
    if k < 0 then t else t[..k]
  }

  /**
   * What calcCheckSum(pos, sentence) computes: the XOR of the characters
   * from index 1 to before `pos`, skipping `$` and stopping at the first `*`.
   */
  function NmeaChecksum(s: string, pos: int): Byte
    requires pos <= |s|
  {
    XorSum(UpToStar(if pos >= 1 then s[1..pos] else []))
  }

  /** The transmitted checksum: the last two characters as a hexadecimal unsigned short, cut to a byte. */
  function CheckValue(s: string): Byte
  {
    OrZero(ToUShortHex(Right(s, 2))) % 256
  }

  predicate ChecksumOk(s: string, pos: int)
    requires pos <= |s|
  {
    CheckValue(s) == NmeaChecksum(s, pos)
  }

  /** calcCheckSum */
  method CalcCheckSum(pos: int, sentence: string) returns (sum: Byte)
    requires pos <= |sentence|
    ensures sum == NmeaChecksum(sentence, pos)
  {
    ghost var t := if pos >= 1 then sentence[1..pos] else [];
    sum := 0;
    var i := 1;
    while i < pos
      invariant 1 <= i <= |t| + 1
      invariant '*' !in t[..i - 1]
      invariant sum == XorSum(t[..i - 1])
    {
      var c := ToAscii(sentence[i]);
      assert t[i - 1] == sentence[i];
      XorSumStep(t, i - 1);
      if c == '*' as int {
        UpToFirstStar(t, i - 1);
        return;
      }
      if c != '$' as int {
        XorByte(sum, c);
        sum := Xor(sum, c);
      }
      i := i + 1;
    }
    assert t[..i - 1] == t;
  }

  lemma XorSumStep(t: string, k: nat)
    requires k < |t|
    ensures t[..k + 1][..k] == t[..k]
    ensures XorSum(t[..k + 1]) == Xor(XorSum(t[..k]), Masked(t[k]))
    ensures '*' !in t[..k] && t[k] != '*' ==> '*' !in t[..k + 1]
  {
    assert t[..k + 1][..k] == t[..k];
  }

  lemma UpToFirstStar(t: string, k: nat)
    requires k < |t| && t[k] == '*' && '*' !in t[..k]
    ensures UpToStar(t) == t[..k]
  {
  }

  /** checkCheckSum */
  method CheckCheckSum(pos: int, sentence: string) returns (ok: bool)
    requires pos <= |sentence|
    ensures ok <==> ChecksumOk(sentence, pos)
  {
    var check := CheckValue(sentence);
    var sum := CalcCheckSum(pos, sentence);
    ok := check == sum;
  }

  // ---------------------------------------------------------------------
  // Field decoding

  /** QString::toInt() of a field: 0 when the field is not a 32-bit decimal number. */
  function IntField(s: string): int
  {
    OrZero(ToInt(s))
  }

  /** QString::toDouble() of a field: 0 when the field is not a number. */
  function RealField(s: string): real
  {
    OrZeroReal(ParseReal(s))
  }

  predicate ValidTime(h: int, m: int, s: int)
  {
    0 <= h < 24 && 0 <= m < 60 && 0 <= s < 60
  }

  predicate IsLeapYear(y: int)
  {
    (y % 4 == 0 && y % 100 != 0) || y % 400 == 0
  }

  function DaysInMonth(y: int, m: int): int
    requires 1 <= m <= 12
  {
    if m == 2 then (if IsLeapYear(y) then 29 else 28)
    else if m == 4 || m == 6 || m == 9 || m == 11 then 30
    else 31
  }

  /** QDate::isValid for the years a two-digit NMEA year can give (1991 to 2099). */
  predicate ValidDate(d: Date)
  {
    1 <= d.month <= 12 && 1 <= d.day <= DaysInMonth(d.year, d.month)
  }

  /** The time in an `hhmmss[.sss]` field, `None` when QTime would be invalid. */
  function DecodeTime(s: string): (r: Option<Time>)
    ensures r.Some? ==> ValidTime(r.value.hour, r.value.minute, r.value.second)
  {
    var t := Time(IntField(Left(s, 2)), IntField(Mid(s, 2, 2)), IntField(Mid(s, 4, 2)));
    if ValidTime(t.hour, t.minute, t.second) then Some(t) else None
  }

  /** The date in a `ddmmyy` field (years from 2000 on), `None` when QDate would be invalid. */
  function DecodeDate(s: string): (r: Option<Date>)
    ensures r.Some? ==> ValidDate(r.value)
  {
    var d := Date(IntField(Right(s, 2)) + 2000, IntField(Mid(s, 2, 2)), IntField(Left(s, 2)));
    if ValidDate(d) then Some(d) else None
  }

  /** rint: the nearest integer, ties to the even one. */
  function RoundHalfEven(x: real): (r: int)
    ensures -0.5 <= r as real - x <= 0.5
    ensures (r as real - x == 0.5 || x - r as real == 0.5) ==> r % 2 == 0
  {
    var f := x.Floor;
    var d := x - f as real;
    if d < 0.5 then f
    else if d > 0.5 then f + 1
    else if f % 2 == 0 then f
    else f + 1
  }

  /**
   * One coordinate: `degDigits` leading digits of degrees, then decimal
   * minutes, rounded to thousandths of a minute and given in 1/600000
   * degree; negative in the hemisphere `negative` names.
   */
  function DecodeAngle(s: string, degDigits: nat, hemisphere: string, negative: string): int
  {
    var deg := IntField(Left(s, degDigits));
    var minutes := RealField(From(s, degDigits));
    var v := deg * 600000 + RoundHalfEven(minutes * 1000.0) * 10;
    if hemisphere == negative then -v else v
  }

  /** The position in `ddmm.mmm`,`N|S`,`dddmm.mmm`,`E|W` fields. */
  function DecodeCoord(slat: string, slatNS: string, slon: string, slonEW: string): Point
  {
    Point(DecodeAngle(slat, 2, slatNS, "S"), DecodeAngle(slon, 3, slonEW, "W"))
  }

  /** An altitude field in meters: `f` or `F` in the unit field selects feet. */
  function Meters(value: string, unit: string): real
  {
    var v := RealField(value);
    if ToLower(unit) == "f" then v * FeetToMeters else v
  }

  /** rint((1013 - qnh) * 8.6): the standard-altitude correction in meters. */
  function QnhCorrection(qnhDiff: int): int
  {
    RoundHalfEven(qnhDiff as real * 8.6)
  }

  /** sprintf("%02d", field.toInt()) */
  function TwoDigits(field: string): string
  {
    Pad2(IntField(field))
  }

  /** The satellite numbers of the fields 3 to `i` - 1 of a GSA sentence, two digits each; empty fields add nothing. */
  function ConstellationUpTo(f: seq<string>, i: nat): string
    requires i <= |f|
  {
    if i <= 3 then []
    else if f[i - 1] != [] then ConstellationUpTo(f, i - 1) + TwoDigits(f[i - 1])
    else ConstellationUpTo(f, i - 1)
  }

  /** The constellation of a GSA sentence: the two-digit numbers of its non-empty fields 3 to 14. */
  function Constellation(f: seq<string>): string
  {
    ConstellationUpTo(f, if |f| < 15 then |f| else 15)
  }

  /** The constellation text of a GSA sentence, built field by field. */
  method ConstellationText(sentence: seq<string>) returns (result: string)
    requires |sentence| >= 3
    ensures result == Constellation(sentence)
  {
    result := "";
    var end := if |sentence| < 15 then |sentence| else 15;
    for i := 3 to end
      invariant result == ConstellationUpTo(sentence, i)
    {
      if sentence[i] != [] {
        result := result + TwoDigits(sentence[i]);
      }
    }
  }

  /** One satellite of a GSV sentence, or nothing when its id field is empty. */
  function SatFromFields(id: string, elev: string, azimuth: string, snr: string): Option<SIVInfo>
  {
    if id == [] then None
    else Some(SIVInfo(IntField(id), IntField(elev), IntField(azimuth),
                      if snr == [] then -1 else IntField(snr)))
  }

  function AppendSat(list: seq<SIVInfo>, s: Option<SIVInfo>): seq<SIVInfo>
  {
    if s.Some? then list + [s.value] else list
  }

  function AddSat(list: seq<SIVInfo>, f: seq<string>, k: nat): seq<SIVInfo>
    requires k + 3 < |f|
  {
    AppendSat(list, SatFromFields(f[k], f[k + 1], f[k + 2], f[k + 3]))
  }

  // ---------------------------------------------------------------------
  // The decoder's state and its transitions

  /** The link state: connectedStatus, the connection-lost suppression, the fix timer and the one-time clock update of RMC. */
  datatype Link = Link(status: Status, ignoreConnectionLost: bool, fixTimerRunning: bool, clockUpdatePending: bool)

  /** The last time, date, speed, position and heading read. */
  datatype LastFix = LastFix(time: Option<Time>, date: Date, speed: Speed, coord: Point, heading: real)

  /** The last altitudes, in meters: above mean sea level, GNSS, standard (QNH-corrected) and pressure. */
  datatype Altitudes = Altitudes(msl: real, gnss: real, std: real, pressure: real)

  /** The GSV series: the satellites of the series being read, those of the last complete one, and the number of the sentence expected next. */
  datatype SivSeries = SivSeries(sivInfoInternal: seq<SIVInfo>, sivInfo: seq<SIVInfo>, cntSivSentence: Uint32)

  datatype NmeaState = NmeaState(
    link: Link, last: LastFix, altitude: Altitudes, satInfo: SatInfo, gsv: SivSeries,
    mapDatum: string, deliveredAltitude: AltitudeReference, userAltitudeCorrection: real,
    signalsBlocked: bool, events: seq<Event>)

  /** dataOK: the first good line moves the link from notConnected to noFix. */
  function DataOk(st: NmeaState): NmeaState
  {
    if st.link.status == NotConnected then
      st.(link := st.link.(status := NoFix), events := st.events + [StatusChange(NoFix), ConnectedChange(true)])
    else st
  }

  /** fixOK: restarts the fix timer and moves to validFix. */
  function FixOk(st: NmeaState): NmeaState
  {
    if st.link.status != ValidFix then
      st.(link := st.link.(fixTimerRunning := true, status := ValidFix), events := st.events + [StatusChange(ValidFix)])
    else st.(link := st.link.(fixTimerRunning := true))
  }

  function ExtractTimeSpec(st: NmeaState, s: string): NmeaState
  {
    var t := DecodeTime(s);
    if t.Some? && st.last.time != t then st.(last := st.last.(time := t), events := st.events + [NewFix]) else st
  }

  function ExtractDateSpec(st: NmeaState, s: string): NmeaState
  {
    var d := DecodeDate(s);
    if d.Some? then st.(last := st.last.(date := d.value)) else st
  }

  function ExtractKnotSpeedSpec(st: NmeaState, s: string): NmeaState
  {
    var v := Knots(RealField(s));
    if v != st.last.speed then st.(last := st.last.(speed := v), events := st.events + [NewSpeed]) else st
  }

  function ExtractCoordSpec(st: NmeaState, slat: string, slatNS: string, slon: string, slonEW: string): NmeaState
  {
    var p := DecodeCoord(slat, slatNS, slon, slonEW);
    if p != st.last.coord then st.(last := st.last.(coord := p), events := st.events + [NewPosition]) else st
  }

  function ExtractHeadingSpec(st: NmeaState, s: string): NmeaState
  {
    var h := RealField(s);
    if h != st.last.heading then st.(last := st.last.(heading := h), events := st.events + [NewHeading]) else st
  }

  /**
   * The GNSS altitude and the MSL altitude a GGA altitude and geoid
   * separation give, by the altitude reference the receiver delivers.
   */
  function ReconcileAltitude(delivered: AltitudeReference, userCorrection: real, alt: real, sep: real): (real, real)
  {
    match delivered
    case HAE => (alt, alt - sep)
    case USER => (alt, alt - userCorrection)
    case MSL => (alt + sep, alt)
  }

  /** The standard altitude of an MSL altitude: corrected by the QNH unless that is 1013 hPa. */
  function StdAltitude(msl: real, qnh: int): real
  {
    var qnhDiff := 1013 - qnh;
    if qnhDiff != 0 then msl + QnhCorrection(qnhDiff) as real else msl
  }

  /** A new MSL altitude: stored, with its standard altitude, and announced when it differs from the last one. */
  function MslAltitudeSpec(st: NmeaState, msl: real, qnh: int): NmeaState
  {
    if st.altitude.msl != msl then
      st.(altitude := st.altitude.(msl := msl, std := StdAltitude(msl, qnh)), events := st.events + [NewAltitude])
    else st
  }

  /** __ExtractAltitude with four arguments (GGA). */
  function ExtractGgaAltitudeSpec(st: NmeaState, altitude: string, unitAlt: string,
                                  heightOfGeoid: string, unitHeight: string, qnh: int): NmeaState
  {
    var gm := ReconcileAltitude(st.deliveredAltitude, st.userAltitudeCorrection,
                                Meters(altitude, unitAlt), Meters(heightOfGeoid, unitHeight));
    MslAltitudeSpec(st.(altitude := st.altitude.(gnss := gm.0)), gm.1, qnh)
  }

  /** __ExtractAltitude with two arguments (PGRMZ). */
  function ExtractPgrmzAltitudeSpec(st: NmeaState, number: string, unit: string): NmeaState
  {
    var res := Meters(number, unit);
    if st.altitude.msl != res then st.(altitude := st.altitude.(msl := res), events := st.events + [NewAltitude]) else st
  }

  /** The fix mode of a GSA sentence: anything but "1" (no fix) counts as a fix and is stored. */
  function GsaFixSpec(st: NmeaState, mode: string): NmeaState
  {
    if mode != "1" then
      var s := FixOk(st);
      s.(satInfo := s.satInfo.(fixValidity := IntField(mode)))
    else st
  }

  /** A new constellation text: stored with the time of the last fix and announced when it changed. */
  function ConstellationSpec(st: NmeaState, result: string): NmeaState
  {
    if result != st.satInfo.constellation then
      st.(satInfo := st.satInfo.(constellationTime := st.last.time, constellation := result),
          events := st.events + [NewSatConstellation])
    else st
  }

  function ExtractConstellationSpec(st: NmeaState, f: seq<string>): NmeaState
    requires |f| >= 3
  {
    ConstellationSpec(GsaFixSpec(st, f[2]), Constellation(f))
  }

  function ExtractSatcountSpec(st: NmeaState, s: string): NmeaState
  {
    var count := IntField(s);
    if count != st.satInfo.satCount then
      st.(satInfo := st.satInfo.(satCount := count), events := st.events + [NewSatConstellation])
    else st
  }

  /** The satellites of the groups of four fields from index `k` on (at most up to the group at 16) appended to `list`. */
  function GsvSatellitesFrom(list: seq<SIVInfo>, f: seq<string>, k: nat): seq<SIVInfo>
    decreases 20 - k
  {
    if k > 16 || k + 3 >= |f| then list else GsvSatellitesFrom(AddSat(list, f, k), f, k + 4)
  }

  /** The satellites a GSV sentence with `f` fields adds to `list`: those of the fields 4-7, 8-11, 12-15 and 16-19 that are there. */
  function GsvSatellites(list: seq<SIVInfo>, f: seq<string>): seq<SIVInfo>
  {
    GsvSatellitesFrom(list, f, 4)
  }

  /** The sequence number and the series length of a GSV sentence, as the unsigned counter compares them. */
  function GsvNumber(f: seq<string>): Uint32 requires |f| >= 3 { ToUint32(IntField(f[2])) }
  function GsvTotal(f: seq<string>): Uint32 requires |f| >= 2 { ToUint32(IntField(f[1])) }

  /** Whether the sentence that moves the counter of `g` on is the last of a series of `total`. */
  predicate SeriesEnds(g: SivSeries, total: Uint32)
  {
    ToUint32(g.cntSivSentence + 1) > total
  }

  /**
   * The end of a GSV sentence that was in sequence: the counter moves on,
   * and past the last sentence of the series the list is published and the
   * counter starts again at 1.
   */
  function NextSivSeries(g: SivSeries, total: Uint32): SivSeries
  {
    if SeriesEnds(g, total) then g.(cntSivSentence := 1, sivInfo := g.sivInfoInternal)
    else g.(cntSivSentence := ToUint32(g.cntSivSentence + 1))
  }

  /** A GSV sentence in sequence: its satellites are added (to an empty list for the first one) and the counter moves on. */
  function GsvSentence(g: SivSeries, f: seq<string>): SivSeries
    requires |f| >= 8
  {
    var list := GsvSatellites(if g.cntSivSentence == 1 then [] else g.sivInfoInternal, f);
    NextSivSeries(g.(sivInfoInternal := list), GsvTotal(f))
  }

  /** ExtractSatsInViewSpec in the steps the decoder takes: add the satellites, then move the counter on. */
  lemma GsvSentenceSteps(st: NmeaState, f: seq<string>, g1: SivSeries, g2: SivSeries, e2: seq<Event>)
    requires |f| >= 8 && st.gsv.cntSivSentence == GsvNumber(f)
    requires g1 == st.gsv.(sivInfoInternal := GsvSatellites(if st.gsv.cntSivSentence == 1 then [] else st.gsv.sivInfoInternal, f))
    requires g2 == NextSivSeries(g1, GsvTotal(f))
    requires e2 == if SeriesEnds(g1, GsvTotal(f)) then st.events + [NewSatInViewInfo] else st.events
    ensures ExtractSatsInViewSpec(st, f) == st.(gsv := g2, events := e2)
  {
  }

  function ExtractSatsInViewSpec(st: NmeaState, f: seq<string>): NmeaState
    requires |f| >= 8
  {
    if st.gsv.cntSivSentence != GsvNumber(f) then st
    else
      st.(gsv := GsvSentence(st.gsv, f),
          events := if SeriesEnds(st.gsv, GsvTotal(f)) then st.events + [NewSatInViewInfo] else st.events)
  }

  /**
   * Whether __ExtractSatsInView reads the field `i` of a GSV sentence with the
   * fields `f` while its counter is `cnt`, as the code is written: index 2
   * always; when the sentence is in sequence, index 1 and the first group
   * 4 to 7 whatever the number of fields, and each further group of four
   * that its length check lets through. The sentence dispatch calls it with
   * no check of its own on the number of fields.
   */
  predicate GsvReads(f: seq<string>, cnt: Uint32, i: int)
    ensures GsvReads(f, cnt, i) ==> 1 <= i <= 19
  {
    i == 2 ||
    (|f| > 2 && GsvNumber(f) == cnt &&
      ((1 <= i <= 7 && i != 3) ||
       (|f| > 11 && 8 <= i <= 11) ||
       (|f| > 15 && 12 <= i <= 15) ||
       (|f| > 19 && 16 <= i <= 19)))
  }

  /**
   * setSystemClock: with a valid date and root rights the fix timer is
   * restarted, the next connection timeout is to be ignored and the user
   * is told. (A QDateTime made of a valid date and a null time is valid,
   * at midnight.)
   */
  function SetSystemClockSpec(st: NmeaState, isSuperUser: bool): NmeaState
  {
    if !ValidDate(st.last.date) || !isSuperUser then st
    else st.(link := st.link.(fixTimerRunning := true, ignoreConnectionLost := true), events := st.events + [ClockSynchronized])
  }

  /** The one clock update of an RMC sentence: done once, when configured. */
  function ClockUpdateSpec(st: NmeaState, cfg: Config): NmeaState
  {
    if st.link.clockUpdatePending && cfg.syncSystemClock then
      SetSystemClockSpec(st.(link := st.link.(clockUpdatePending := false)), cfg.isSuperUser)
    else st
  }

  function RmcSpec(st: NmeaState, f: seq<string>, cfg: Config): NmeaState
    requires |f| >= 10
  {
    if f[2] == "V" then st
    else
      var s1 := ExtractTimeSpec(FixOk(st), f[1]);
      var s2 := ExtractKnotSpeedSpec(ExtractDateSpec(s1, f[9]), f[7]);
      var s3 := ExtractHeadingSpec(ExtractCoordSpec(s2, f[3], f[4], f[5], f[6]), f[8]);
      ClockUpdateSpec(s3, cfg)
  }

  function GllSpec(st: NmeaState, f: seq<string>): NmeaState
    requires |f| >= 7
  {
    if f[6] != "A" then st
    else ExtractCoordSpec(ExtractTimeSpec(FixOk(st), f[5]), f[1], f[2], f[3], f[4])
  }

  /** The geoid separation and its unit; an empty separation is read as 0 m. */
  function GgaSeparation(f: seq<string>): (string, string)
    requires |f| >= 13
  {
    if f[11] == "" then ("0", "M") else (f[11], f[12])
  }

  function GgaSpec(st: NmeaState, f: seq<string>, qnh: int): NmeaState
    requires |f| >= 15
  {
    if f[6] == "0" then st
    else
      var s1 := ExtractCoordSpec(ExtractTimeSpec(FixOk(st), f[1]), f[2], f[3], f[4], f[5]);
      var sep := GgaSeparation(f);
      ExtractSatcountSpec(ExtractGgaAltitudeSpec(s1, f[9], f[10], sep.0, sep.1, qnh), f[7])
  }

  function PgrmzSpec(st: NmeaState, f: seq<string>): NmeaState
    requires |f| >= 4
  {
    if f[3] == "3" then ExtractPgrmzAltitudeSpec(st, f[1], f[2]) else st
  }

  /** The handler the first field selects; too short sentences and unknown identifiers change nothing. */
  function Dispatch(st: NmeaState, f: seq<string>, cfg: Config): NmeaState
    requires |f| >= 1
  {
    var id := f[0];
    if id == "$GPRMC" then (if |f| < 10 then st else RmcSpec(st, f, cfg))
    else if id == "$GPGLL" then (if |f| < 7 then st else GllSpec(st, f))
    else if id == "$GPGGA" then (if |f| < 15 then st else GgaSpec(st, f, cfg.qnh))
    else if id == "$PGRMZ" then (if |f| < 4 then st else PgrmzSpec(st, f))
    else if id == "$GPGSA" then (if |f| < 18 then st else ExtractConstellationSpec(st, f))
    else if id == "$GPGSV" then (if |f| < 8 then st else ExtractSatsInViewSpec(st, f))
    else if id == "$GPDTM" then (if |f| < 9 then st else st.(mapDatum := f[8]))
    else st
  }

  /** The line without its carriage returns and line feeds. */
  function Strip(line: string): string
  {
    Remove(line, {'\n', '\r'})
  }

  /** Whether slot_sentence takes the line: `$` first, a `*`, and a matching checksum. */
  predicate AcceptedLine(line: string)
  {
    line != [] && line[0] == '$'
    && var s := Strip(line);
    var i := LastIndexOf(s, '*');
    i != -1 && ChecksumOk(s, i)
  }

  function Fields(line: string): (f: seq<string>)
    ensures |f| >= 1
  {
    Split(Strip(line), FieldSeparators)
  }

  /** slot_sentence: the state after one line from the receiver. */
  function Step(st: NmeaState, line: string, cfg: Config): NmeaState
  {
    if st.signalsBlocked || !AcceptedLine(line) then st
    else Dispatch(DataOk(st), Fields(line), cfg)
  }

  /** The position, altitudes, speed, heading and satellite data a lost fix or link leaves; time, date and standard altitude stay. */
  function ResetFixData(st: NmeaState, now: Time): NmeaState
  {
    st.(altitude := st.altitude.(msl := 0.0, gnss := 0.0, pressure := 0.0),
        last := st.last.(coord := Point(0, 0), speed := UnsetSpeed, heading := -1.0),
        satInfo := SatInfo(1, 999, 0, "", Some(now)))
  }

  /** _slotTimeout: the connection timer expired at `now`. */
  function ConnectionTimeoutSpec(st: NmeaState, now: Time): NmeaState
  {
    if st.link.ignoreConnectionLost then st.(link := st.link.(ignoreConnectionLost := false))
    else if st.link.status != NotConnected then
      ResetFixData(st.(link := st.link.(status := NotConnected), events := st.events + [StatusChange(NotConnected)]), now)
    else st
  }

  /** _slotTimeoutFix: the fix timer expired at `now`. */
  function FixTimeoutSpec(st: NmeaState, now: Time): NmeaState
  {
    if st.link.status == ValidFix then
      ResetFixData(st.(link := st.link.(status := NoFix, fixTimerRunning := false),
                       events := st.events + [StatusChange(NoFix)]), now)
    else st
  }

  // ---------------------------------------------------------------------
  // The decoder object

  /**
   * The decoder. Its members are grouped by concern into the records
   * above (link state, last fix, altitudes, satellite data, GSV series);
   * each method updates the members the source's method updates.
   */
  class GpsNmea {
    var link: Link
    var last: LastFix
    var altitude: Altitudes
    var satInfo: SatInfo
    var gsv: SivSeries
    var mapDatum: string
    var deliveredAltitude: AltitudeReference
    var userAltitudeCorrection: real
    /** QObject::signalsBlocked() */
    var signalsBlocked: bool
    /** The signals emitted so far, oldest first. */
    var events: seq<Event>

    ghost function State(): NmeaState
      reads this
    {
      NmeaState(link, last, altitude, satInfo, gsv, mapDatum, deliveredAltitude, userAltitudeCorrection,
                signalsBlocked, events)
    }

    /**
     * The singleton's construction: not connected, no time, the map centre
     * as position, the fix timer started, altitudes and GSV counter reset.
     */
    constructor (mapCenter: Point, today: Date, now: Time, delivered: AltitudeReference, userCorrection: real)
      ensures State() == NmeaState(Link(NotConnected, false, true, true),
                                   LastFix(None, today, UnsetSpeed, mapCenter, -1.0),
                                   Altitudes(0.0, 0.0, 0.0, 0.0), SatInfo(1, 999, 0, "", Some(now)),
                                   SivSeries([], [], 1), "", delivered, userCorrection, false, [])
    {
      link := Link(NotConnected, false, true, true);
      altitude := Altitudes(0.0, 0.0, 0.0, 0.0);
      last := LastFix(None, today, UnsetSpeed, mapCenter, -1.0);
      gsv := SivSeries([], [], 1);
      satInfo := SatInfo(1, 999, 0, "", Some(now));
      deliveredAltitude := delivered;
      userAltitudeCorrection := userCorrection;
      mapDatum := "";
      signalsBlocked := false;
      events := [];
    }

    method DataOK()
      modifies this
      ensures State() == DataOk(old(State()))
    {
      if link.status == NotConnected {
        link := link.(status := NoFix);
        events := events + [StatusChange(link.status), ConnectedChange(link.status != NotConnected)];
      }
    }

    method FixOK()
      modifies this
      ensures State() == FixOk(old(State()))
    {
      link := link.(fixTimerRunning := true);
      if link.status != ValidFix {
        link := link.(status := ValidFix);
        events := events + [StatusChange(link.status)];
      }
    }

    method ExtractTime(timestring: string)
      modifies this
      ensures State() == ExtractTimeSpec(old(State()), timestring)
    {
      var res := DecodeTime(timestring);
      if res.None? {
        return;
      }
      if last.time != res {
        events := events + [NewFix];
        last := last.(time := res);
      }
    }

    method ExtractDate(datestring: string)
      modifies this
      ensures State() == ExtractDateSpec(old(State()), datestring)
    {
      var res := DecodeDate(datestring);
      if res.Some? {
        last := last.(date := res.value);
      }
    }

    method ExtractKnotSpeed(speedstring: string)
      modifies this
      ensures State() == ExtractKnotSpeedSpec(old(State()), speedstring)
    {
      var res := Knots(RealField(speedstring));
      if res != last.speed {
        last := last.(speed := res);
        events := events + [NewSpeed];
      }
    }

    method ExtractCoord(slat: string, slatNS: string, slon: string, slonEW: string)
      modifies this
      ensures State() == ExtractCoordSpec(old(State()), slat, slatNS, slon, slonEW)
    {
      var res := DecodeCoord(slat, slatNS, slon, slonEW);
      if last.coord != res {
        last := last.(coord := res);
        events := events + [NewPosition];
      }
    }

    method ExtractHeading(headingstring: string)
      modifies this
      ensures State() == ExtractHeadingSpec(old(State()), headingstring)
    {
      var res := RealField(headingstring);
      if res != last.heading {
        last := last.(heading := res);
        events := events + [NewHeading];
      }
    }

    /** __ExtractAltitude with four arguments (GGA). */
    method ExtractGgaAltitude(alt: string, unitAlt: string, heightOfGeoid: string, unitHeight: string, qnh: int)
      modifies this
      ensures State() == ExtractGgaAltitudeSpec(old(State()), alt, unitAlt, heightOfGeoid, unitHeight, qnh)
    {
      var gm := ReconcileAltitude(deliveredAltitude, userAltitudeCorrection,
                                  Meters(alt, unitAlt), Meters(heightOfGeoid, unitHeight));
      altitude := altitude.(gnss := gm.0);
      var res := gm.1;
      if altitude.msl != res {
        altitude := altitude.(msl := res, std := res);
        var qnhDiff := 1013 - qnh;
        if qnhDiff != 0 {
          var delta := QnhCorrection(qnhDiff);
          altitude := altitude.(std := res + delta as real);
        }
        events := events + [NewAltitude];
      }
    }

    /** __ExtractAltitude with two arguments (PGRMZ). */
    method ExtractPgrmzAltitude(number: string, unit: string)
      modifies this
      ensures State() == ExtractPgrmzAltitudeSpec(old(State()), number, unit)
    {
      var res := Meters(number, unit);
      if altitude.msl != res {
        altitude := altitude.(msl := res);
        events := events + [NewAltitude];
      }
    }

    method ExtractConstellation(sentence: seq<string>)
      requires |sentence| >= 3
      modifies this
      ensures State() == ExtractConstellationSpec(old(State()), sentence)
    {
      if sentence[2] != "1" {
        FixOK();
        satInfo := satInfo.(fixValidity := IntField(sentence[2]));
      }
      var result := ConstellationText(sentence);
      if result != satInfo.constellation {
        satInfo := satInfo.(constellationTime := last.time, constellation := result);
        events := events + [NewSatConstellation];
      }
    }

    method ExtractSatcount(satcount: string)
      modifies this
      ensures State() == ExtractSatcountSpec(old(State()), satcount)
    {
      var count := IntField(satcount);
      if count != satInfo.satCount {
        satInfo := satInfo.(satCount := count);
        events := events + [NewSatConstellation];
      }
    }

    /** __ExtractSatsInView for one satellite: appended unless its id is empty. */
    method ExtractSat(id: string, elev: string, azimuth: string, snr: string)
      modifies this`gsv
      ensures gsv == old(gsv).(sivInfoInternal := AppendSat(old(gsv.sivInfoInternal), SatFromFields(id, elev, azimuth, snr)))
    {
      if id == [] {
        return;
      }
      var db := if snr == [] then -1 else IntField(snr);
      var sivi := SIVInfo(IntField(id), IntField(elev), IntField(azimuth), db);
      gsv := gsv.(sivInfoInternal := gsv.sivInfoInternal + [sivi]);
    }

    /** The satellites of one GSV sentence, appended to the series being read. */
    method ExtractSats(sentence: seq<string>)
      requires |sentence| >= 8
      modifies this`gsv
      ensures gsv == old(gsv).(sivInfoInternal := GsvSatellites(old(gsv.sivInfoInternal), sentence))
    {
      ghost var l0 := gsv.sivInfoInternal;
      ExtractSat(sentence[4], sentence[5], sentence[6], sentence[7]);
      ghost var l1 := gsv.sivInfoInternal;
      assert GsvSatellitesFrom(l0, sentence, 4) == GsvSatellitesFrom(l1, sentence, 8);
      if |sentence| > 11 {
        ExtractSat(sentence[8], sentence[9], sentence[10], sentence[11]);
      }
      ghost var l2 := gsv.sivInfoInternal;
      assert GsvSatellitesFrom(l1, sentence, 8) == GsvSatellitesFrom(l2, sentence, 12);
      if |sentence| > 15 {
        ExtractSat(sentence[12], sentence[13], sentence[14], sentence[15]);
      }
      ghost var l3 := gsv.sivInfoInternal;
      assert GsvSatellitesFrom(l2, sentence, 12) == GsvSatellitesFrom(l3, sentence, 16);
      if |sentence| > 19 {
        ExtractSat(sentence[16], sentence[17], sentence[18], sentence[19]);
      }
      assert GsvSatellitesFrom(l3, sentence, 16) == GsvSatellitesFrom(gsv.sivInfoInternal, sentence, 20);
    }

    /** __ExtractSatsInView for a whole GSV sentence. */
    method ExtractSatsInView(sentence: seq<string>)
      requires |sentence| >= 8
      modifies this
      ensures State() == ExtractSatsInViewSpec(old(State()), sentence)
    {
      if gsv.cntSivSentence != GsvNumber(sentence) {
        return;
      }
      if gsv.cntSivSentence == 1 {
        gsv := gsv.(sivInfoInternal := []);
      }
      ExtractSats(sentence);
      ghost var g1 := gsv;
      NextSivSentence(GsvTotal(sentence));
      GsvSentenceSteps(old(State()), sentence, g1, gsv, events);
    }

    /** The end of a GSV sentence in sequence: the counter moves on; past the last sentence the series is published. */
    method NextSivSentence(total: Uint32)
      modifies this`gsv, this`events
      ensures gsv == NextSivSeries(old(gsv), total)
      ensures events == if SeriesEnds(old(gsv), total) then old(events) + [NewSatInViewInfo] else old(events)
    {
      gsv := gsv.(cntSivSentence := ToUint32(gsv.cntSivSentence + 1));
      if gsv.cntSivSentence > total {
        gsv := gsv.(cntSivSentence := 1, sivInfo := gsv.sivInfoInternal);
        events := events + [NewSatInViewInfo];
      }
    }

    method SetSystemClock(isSuperUser: bool)
      modifies this
      ensures State() == SetSystemClockSpec(old(State()), isSuperUser)
    {
      if !ValidDate(last.date) {
        return;
      }
      if !isSuperUser {
        return;
      }
      link := link.(fixTimerRunning := true, ignoreConnectionLost := true);
      events := events + [ClockSynchronized];
    }

    /** slot_sentence */
    method SlotSentence(sentenceIn: string, cfg: Config)
      modifies this
      ensures State() == Step(old(State()), sentenceIn, cfg)
    {
      if signalsBlocked {
        return;
      }
      var ok, slst := ReadLine(sentenceIn);
      if !ok {
        return;
      }
      DataOK();
      DispatchSentence(slst, cfg);
    }

    /** The handler the first field selects. */
    method DispatchSentence(slst: seq<string>, cfg: Config)
      requires |slst| >= 1
      modifies this
      ensures State() == Dispatch(old(State()), slst, cfg)
    {
      if slst[0] == "$GPRMC" {
        if |slst| >= 10 {
          HandleRmc(slst, cfg);
        }
      } else if slst[0] == "$GPGLL" {
        if |slst| >= 7 {
          HandleGll(slst);
        }
      } else if slst[0] == "$GPGGA" {
        if |slst| >= 15 {
          HandleGga(slst, cfg.qnh);
        }
      } else if slst[0] == "$PGRMZ" {
        if |slst| >= 4 && slst[3] == "3" {
          ExtractPgrmzAltitude(slst[1], slst[2]);
        }
      } else if slst[0] == "$GPGSA" {
        if |slst| >= 18 {
          ExtractConstellation(slst);
        }
      } else if slst[0] == "$GPGSV" {
        if |slst| >= 8 {
          ExtractSatsInView(slst);
        }
      } else if slst[0] == "$GPDTM" {
        if |slst| >= 9 {
          mapDatum := slst[8];
        }
      }
    }

    /** The RMC branch of slot_sentence: a valid fix gives time, date, speed, position and heading. */
    method HandleRmc(slst: seq<string>, cfg: Config)
      requires |slst| >= 10
      modifies this
      ensures State() == RmcSpec(old(State()), slst, cfg)
    {
      if slst[2] == "V" {
        return;
      }
      FixOK();
      ExtractTime(slst[1]);
      ExtractDate(slst[9]);
      ExtractKnotSpeed(slst[7]);
      ExtractCoord(slst[3], slst[4], slst[5], slst[6]);
      ExtractHeading(slst[8]);
      UpdateClock(cfg);
    }

    /** The function-static clock update of the RMC handler: once, when configured. */
    method UpdateClock(cfg: Config)
      modifies this
      ensures State() == ClockUpdateSpec(old(State()), cfg)
    {
      if link.clockUpdatePending && cfg.syncSystemClock {
        link := link.(clockUpdatePending := false);
        SetSystemClock(cfg.isSuperUser);
      }
    }

    /** The GLL branch of slot_sentence: a valid fix gives time and position. */
    method HandleGll(slst: seq<string>)
      requires |slst| >= 7
      modifies this
      ensures State() == GllSpec(old(State()), slst)
    {
      if slst[6] == "A" {
        FixOK();
        ExtractTime(slst[5]);
        ExtractCoord(slst[1], slst[2], slst[3], slst[4]);
      }
    }

    /** The GGA branch of slot_sentence: a fix gives time, position, altitude and satellite count. */
    method HandleGga(slst: seq<string>, qnh: int)
      requires |slst| >= 15
      modifies this
      ensures State() == GgaSpec(old(State()), slst, qnh)
    {
      if slst[6] == "0" {
        return;
      }
      FixOK();
      ExtractTime(slst[1]);
      ExtractCoord(slst[2], slst[3], slst[4], slst[5]);
      var f := slst;
      if f[11] == "" {
        f := f[11 := "0"][12 := "M"];
      }
      ExtractGgaAltitude(f[9], f[10], f[11], f[12], qnh);
      ExtractSatcount(f[7]);
    }

    /**
     * The line checks of slot_sentence: a '$' first, a '*' and a matching
     * checksum; the fields of an accepted line.
     */
    static method ReadLine(sentenceIn: string) returns (ok: bool, slst: seq<string>)
      ensures ok <==> AcceptedLine(sentenceIn)
      ensures ok ==> slst == Fields(sentenceIn)
    {
      slst := [];
      if sentenceIn == [] || sentenceIn[0] != '$' {
        return false, slst;
      }
      var sentence := Remove(sentenceIn, {'\n', '\r'});
      var i := LastIndexOf(sentence, '*');
      if i == -1 {
        return false, slst;
      }
      ok := CheckCheckSum(i, sentence);
      if ok {
        slst := Split(sentence, FieldSeparators);
      }
    }

    /** _slotTimeout */
    method SlotTimeout(now: Time)
      modifies this
      ensures State() == ConnectionTimeoutSpec(old(State()), now)
    {
      if link.ignoreConnectionLost {
        link := link.(ignoreConnectionLost := false);
        return;
      }
      if link.status != NotConnected {
        link := link.(status := NotConnected);
        events := events + [StatusChange(link.status)];
        ResetFixValues(now);
      }
    }

    /** _slotTimeoutFix */
    method SlotTimeoutFix(now: Time)
      modifies this
      ensures State() == FixTimeoutSpec(old(State()), now)
    {
      if link.status == ValidFix {
        link := link.(status := NoFix);
        events := events + [StatusChange(link.status)];
        ResetFixValues(now);
        link := link.(fixTimerRunning := false);
      }
    }

    /** The members a lost fix or link resets. */
    method ResetFixValues(now: Time)
      modifies this
      ensures State() == ResetFixData(old(State()), now)
    {
      altitude := altitude.(msl := 0.0, gnss := 0.0, pressure := 0.0);
      last := last.(coord := Point(0, 0), speed := UnsetSpeed, heading := -1.0);
      satInfo := SatInfo(1, 999, 0, "", Some(now));
    }
  }
}
