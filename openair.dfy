/**
 * The OpenAir airspace text parser: the line loop, the records that build an
 * airspace (AC, AN, AH, AL, DP, V), the class-name mapping and its
 * override file, and the altitude and coordinate scanners.
 *
 * Coordinates are in the parser's own unit, ten-thousandths of a minute;
 * the projection applied when an airspace is finished is not modelled, so
 * finished airspaces keep these values.
 */
module OpenAir {
  import opened Text
  import opened BaseMap

  datatype Point = Point(lat: int, lon: int)

  datatype Airspace = Airspace(
    name: string, kind: ObjectType, polygon: seq<Point>,
    upper: int, upperType: ElevationType, lower: int, lowerType: ElevationType)

  /** initializeBaseMapping: the base type names the parser accepts. */
  const BaseTypeMap: map<string, ObjectType> := map[
    "AirA" := AirA, "AirB" := AirB, "AirC" := AirC, "AirD" := AirD,
    "AirElow" := AirElow, "AirEhigh" := AirEhigh, "AirF" := AirF,
    "ControlC" := ControlC, "ControlD" := ControlD, "Danger" := Danger,
    "Restricted" := Restricted, "Prohibited" := Prohibited, "LowFlight" := LowFlight,
    "Tmz" := Tmz, "SuSector" := SuSector]

  /** The OpenAir class names mapped to base type names before the mapping file is read. */
  const DefaultTypeMap: map<string, string> := map[
    "A" := "AirA", "B" := "AirB", "C" := "AirC", "D" := "AirD", "E" := "AirElow",
    "F" := "AirF", "GP" := "Restricted", "R" := "Restricted", "P" := "Prohibited",
    "TRA" := "Restricted", "Q" := "Danger", "CTR" := "ControlC", "TMZ" := "Tmz",
    "W" := "AirEhigh", "GSEC" := "SuSector"]

  // ---------------------------------------------------------------------
  // Regular expression scanning: [A-Za-z]+ and [0-9]+

  datatype CharClass = Letters | Digits

  predicate InClass(c: char, k: CharClass)
  {
    if k == Letters then IsAsciiLetter(c) else IsAsciiDigit(c)
  }

  /** QRegExp::indexIn(s, from): where the first run of the class at or after `from` starts, or -1. */
  function FindFrom(s: string, k: CharClass, from: nat): (r: int)
    ensures r == -1 || (from <= r < |s| && InClass(s[r], k))
    decreases |s| - from
  {
    if from >= |s| then -1
    else if InClass(s[from], k) then from
    else FindFrom(s, k, from + 1)
  }

  /** QRegExp::matchedLength: how far the run starting at `p` extends. */
  function RunLength(s: string, k: CharClass, p: nat): (n: nat)
    requires p <= |s|
    ensures p + n <= |s|
    ensures p < |s| && InClass(s[p], k) ==> n >= 1
    decreases |s| - p
  {
    if p == |s| || !InClass(s[p], k) then 0 else 1 + RunLength(s, k, p + 1)
  }

  /** The maximal runs of the class from `from` on, in order, after the runs `done` already found. */
  function RunsAfter(s: string, k: CharClass, from: nat, done: seq<string>): seq<string>
    requires from <= |s|
    decreases |s| - from
  {
    var p := FindFrom(s, k, from);
    if p < 0 then done else RunMatch(s, k, p, RunLength(s, k, p), done)
  }

  /** The run of `n` characters at `p` found, the search goes on after it. */
  function RunMatch(s: string, k: CharClass, p: nat, n: nat, done: seq<string>): seq<string>
    requires 0 < n && p + n <= |s|
    decreases |s| - p, 0
  {
    RunsAfter(s, k, p + n, done + [s[p..p + n]])
  }

  /** The maximal runs of the class in `s`, in order. */
  function Runs(s: string, k: CharClass): seq<string>
  {
    RunsAfter(s, k, 0, [])
  }

  // ---------------------------------------------------------------------
  // Altitudes

  /** The elevation reference an upper-cased word names, or NotSet. */
  function Classify(part: string): ElevationType
  {
    if part == "AMSL" || part == "MSL" then MSL
    else if part == "GND" || part == "SFC" || part == "ASFC" then GND
    else if StartsWith(part, "UNL") then UNLTD
    else if part == "FL" then FL
    else NotSet
  }

  /** The state of parseAltitude's element loop. */
  datatype AltitudeScan = AltitudeScan(kind: ElevationType, alt: int, meters: bool)

  const NoAltitude := AltitudeScan(NotSet, 0, false)

  /**
   * One element: the first elevation word is kept and later ones ignored,
   * `M` selects meters, a number replaces the altitude, anything else is
   * ignored.
   */
  function AltitudeStep(a: AltitudeScan, element: string): AltitudeScan
  {
    var part := ToUpper(element);
    var t := Classify(part);
    if t != NotSet then (if a.kind == NotSet then a.(kind := t) else a)
    else if part == "M" then a.(meters := true)
    else
      var n := ToInt(part);
      if n.Some? then a.(alt := n.value) else a
  }

  function ScanElements(a: AltitudeScan, elements: seq<string>): AltitudeScan
    decreases |elements|
  {
    if elements == [] then a else ScanElements(AltitudeStep(a, elements[0]), elements[1..])
  }

  /** (int) rint(m / 0.3048): meters to the nearest foot, the international foot being 0.3048 m exactly. */
  function FeetFromMeters(m: int): (f: int)
    ensures -381 < 762 * f - 2500 * m <= 381
  {
    (2500 * m + 381) / 762
  }

  /** parseAltitude's elements: the letter runs, then the digit runs. */
  function AltitudeElements(line: string): seq<string>
  {
    Runs(line, Letters) + Runs(line, Digits)
  }

  function Finish(a: AltitudeScan): (ElevationType, int)
  {
    (a.kind, if a.meters then FeetFromMeters(a.alt) else a.alt)
  }

  /**
   * The elevation reference and the altitude (in feet) with every digit run
   * read whole: what an AH or AL record evidently means, and what the digit
   * loop below fails to give once a line holds two numbers.
   */
  function AltitudeOf(line: string): (ElevationType, int)
  {
    Finish(ScanElements(NoAltitude, AltitudeElements(line)))
  }

  /**
   * The digit loop of parseAltitude as written: after each match it drops
   * as many characters from the front of the line as the match was long,
   * yet goes on searching from the position after the match.
   */
  function NumberRunsAsWritten(line: string, from: nat): seq<string>
    decreases |line|
  {
    if |line| == 0 then []
    else
      var p := FindFrom(line, Digits, from);
      if p < 0 then []
      else
        AsWrittenMatch(line, p, RunLength(line, Digits, p))
  }

  /** The match of `n` characters at `p`, then the search on the line shortened by `n`, from after the match. */
  function AsWrittenMatch(line: string, p: nat, n: nat): seq<string>
    requires 0 < n && p + n <= |line|
    decreases |line|, 0
  {
    [line[p..p + n]] + NumberRunsAsWritten(line[n..], p + n)
  }

  /** The elevation reference and the altitude (in feet) an AH or AL record gives, the digit loop as written. */
  function AltitudeOfAsWritten(line: string): (ElevationType, int)
  {
    Finish(ScanElements(NoAltitude, Runs(line, Letters) + NumberRunsAsWritten(line, 0)))
  }

  /** parseAltitude: the letter runs, the digit runs as its loop finds them, then the element loop. */
  method ParseAltitude(line: string) returns (kind: ElevationType, alt: int)
    ensures (kind, alt) == AltitudeOfAsWritten(line)
  {
    var letters := ScanRuns(line, Letters);
    var numbers := ScanNumbersAsWritten(line);
    var a := ScanAltitude(letters + numbers);
    kind := a.kind;
    alt := if a.meters then FeetFromMeters(a.alt) else a.alt;
  }

  /** parseAltitude's digit loop, which shortens the line by each match's length and searches on after the match. */
  method ScanNumbersAsWritten(input: string) returns (elements: seq<string>)
    ensures elements == NumberRunsAsWritten(input, 0)
  {
    elements := [];
    var line := input;
    var pos: nat, len: nat := 0, 0;
    while |line| > 0
      invariant elements + NumberRunsAsWritten(line, pos + len) == NumberRunsAsWritten(input, 0)
      decreases |line|
    {
      var p := FindFrom(line, Digits, pos + len);
      if p < 0 {
        break;
      }
      var n := RunLength(line, Digits, p);
      assert NumberRunsAsWritten(line, pos + len) == [line[p..p + n]] + NumberRunsAsWritten(line[n..], p + n);
      elements := elements + [line[p..p + n]];
      pos, len := p, n;
      line := line[len..];
    }
  }

  /** parseAltitude's loop over the elements. */
  method ScanAltitude(elements: seq<string>) returns (a: AltitudeScan)
    ensures a == ScanElements(NoAltitude, elements)
  {
    a := NoAltitude;
    var i := 0;
    while i < |elements|
      invariant 0 <= i <= |elements|
      invariant ScanElements(a, elements[i..]) == ScanElements(NoAltitude, elements)
    {
      assert elements[i..][1..] == elements[i + 1..];
      a := AltitudeStep(a, elements[i]);
      i := i + 1;
    }
  }

  /** The regular expression loop: every match appended, the search resumed after it. */
  method ScanRuns(line: string, k: CharClass) returns (elements: seq<string>)
    ensures elements == Runs(line, k)
  {
    elements := [];
    var pos: nat, len: nat := 0, 0;
    while |line| > 0
      invariant pos + len <= |line|
      invariant RunsAfter(line, k, pos + len, elements) == Runs(line, k)
      decreases |line| - (pos + len)
    {
      var p := FindFrom(line, k, pos + len);
      if p < 0 {
        break;
      }
      assert RunsAfter(line, k, pos + len, elements) == RunMatch(line, k, p, RunLength(line, k, p), elements);
      pos := p;
      len := RunLength(line, k, pos);
      elements := elements + [line[pos..pos + len]];
    }
  }

  // ---------------------------------------------------------------------
  // Coordinates

  /** (int) rint(part * factor[index]) with the factors 600000, 10000, 166.67, or 100 after a decimal point. */
  function Weight(index: nat, decimal: bool, part: int): int
  {
    if index == 0 then part * 600000
    else if index == 1 then part * 10000
    else if decimal then part * 100
    else (part * 1000 + 3) / 6
  }

  /** What follows a number: `:` moves on to the next factor, `.` too, the numbers after it being decimals. */
  function Separator(line: string, next: nat, index: nat, decimal: bool): (r: (nat, nat, bool))
    requires next <= |line|
    ensures next <= r.0 <= |line| && r.0 <= next + 1
  {
    if next < |line| && line[next] == ':' then (next + 1, index + 1, false)
    else if next < |line| && line[next] == '.' then (next + 1, index + 1, true)
    else (next, index, decimal)
  }

  /** The value of a decimal digit; other characters count 0. */
  function DigitOf(c: char): nat
  {
    if '0' <= c <= '9' then c as int - '0' as int else 0
  }

  /** The value of the `len` decimal digits at `pos`, most significant first. */
  function RunNumber(line: string, pos: nat, len: nat): nat
    requires pos + len <= |line|
  {
    if len == 0 then 0 else RunNumber(line, pos, len - 1) * 10 + DigitOf(line[pos + len - 1])
  }

  /** QString::toInt on the run of digits at `pos`: its value, unless it exceeds the 32-bit range. */
  function RunValue(line: string, pos: nat, len: nat): Option<int>
    requires pos + len <= |line|
  {
    var v := RunNumber(line, pos, len);
    if v < 0x8000_0000 then Some(v) else None
  }

  /** The variables of parseCoordinatePart's loop; `stopped` once it breaks out. */
  datatype PartState = PartState(from: nat, index: nat, decimal: bool, value: int, found: bool, stopped: bool)

  const PartStart := PartState(0, 0, false, 0, false, false)

  /** One pass of the loop: the next number, weighted by the current factor, and the separator after it. */
  function PartStep(line: string, st: PartState): (r: PartState)
    requires st.from <= |line|
    ensures r.from <= |line|
    ensures r.stopped || r.from > st.from
    ensures r.stopped ==> r.from == st.from
  {
    var pos := FindFrom(line, Digits, st.from);
    if pos < 0 then st.(stopped := true)
    else
      var len := RunLength(line, Digits, pos);
      var part := RunValue(line, pos, len);
      if part.None? then st.(stopped := true)
      else
        var sep := Separator(line, pos + len, st.index, st.decimal);
        PartState(sep.0, sep.1, sep.2, st.value + Weight(st.index, st.decimal, part.value), true, false)
  }

  /** parseCoordinatePart's loop from `st` on: the accumulated value and whether a number was seen. */
  function PartScan(line: string, st: PartState): (int, bool)
    requires st.from <= |line|
    decreases |line| - st.from, if st.stopped then 0 else 1
  {
    if st.stopped || st.index >= 3 || |line| == 0 then (st.value, st.found)
    else PartScan(line, PartStep(line, st))
  }

  /**
   * parseCoordinatePart: the value of the numbers, given to the latitude
   * (N positive, S negative) or the longitude (E positive, W negative)
   * after the first of those letters found past the start.
   */
  function CoordinatePart(line: string, lat: int, lon: int): (r: (bool, int, int))
    ensures !r.0 ==> r.1 == lat && r.2 == lon
    ensures r.0 ==> r.1 == lat || r.2 == lon
  {
    if line == [] then (false, lat, lon)
    else
      var scan := PartScan(line, PartStart);
      if !scan.1 then (false, lat, lon) else Hemisphere(line, scan.0, lat, lon)
  }

  /** Where a part's value goes: the first of N, S, E, W found past the start decides. */
  function Hemisphere(line: string, value: int, lat: int, lon: int): (bool, int, int)
  {
    if IndexOf(line, 'N') > 0 then (true, value, lon)
    else if IndexOf(line, 'S') > 0 then (true, -value, lon)
    else if IndexOf(line, 'E') > 0 then (true, lat, value)
    else if IndexOf(line, 'W') > 0 then (true, lat, -value)
    else (false, lat, lon)
  }

  method ParseCoordinatePart(line: string, lat: int, lon: int) returns (ok: bool, lat': int, lon': int)
    ensures (ok, lat', lon') == CoordinatePart(line, lat, lon)
  {
    if line == [] {
      return false, lat, lon;
    }
    var value, found := ScanPart(line);
    if !found {
      return false, lat, lon;
    }
    var h := Hemisphere(line, value, lat, lon);
    ok, lat', lon' := h.0, h.1, h.2;
  }

  /** parseCoordinatePart's loop over the numbers of a part and their separators. */
  method ScanPart(line: string) returns (value: int, found: bool)
    ensures (value, found) == PartScan(line, PartStart)
  {
    var st := PartStart;
    while !st.stopped && st.index < 3 && |line| > 0
      invariant st.from <= |line|
      invariant PartScan(line, st) == PartScan(line, PartStart)
      decreases |line| - st.from, if st.stopped then 0 else 1
    {
      st := ScanNumber(line, st);
    }
    value, found := st.value, st.found;
  }

  /** The body of parseCoordinatePart's loop. */
  method ScanNumber(line: string, st: PartState) returns (r: PartState)
    requires st.from <= |line|
    ensures r == PartStep(line, st)
  {
    var pos := FindFrom(line, Digits, st.from);
    if pos == -1 {
      return st.(stopped := true);
    }
    var len := RunLength(line, Digits, pos);
    var part := RunValue(line, pos, len);
    if part.None? {
      return st.(stopped := true);
    }
    var value := st.value + Weight(st.index, st.decimal, part.value);
    if pos + len < |line| && line[pos + len] == ':' {
      r := PartState(pos + len + 1, st.index + 1, false, value, true, false);
    } else if pos + len < |line| && line[pos + len] == '.' {
      r := PartState(pos + len + 1, st.index + 1, true, value, true, false);
    } else {
      r := PartState(pos + len, st.index, st.decimal, value, true, false);
    }
  }

  /** The first position holding one of `cs`, or -1 (QRegExp("[NSEW]").indexIn). */
  function FirstOf(s: string, cs: set<char>): (r: int)
    ensures -1 <= r < |s|
    ensures r >= 0 ==> s[r] in cs
    ensures forall j :: 0 <= j < |s| && (r == -1 || j < r) ==> s[j] !in cs
  {
    if s == [] then -1
    else if s[0] in cs then 0
    else
      var k := FirstOf(s[1..], cs);
      if k < 0 then -1 else k + 1
  }

  const Hemispheres: set<char> := {'N', 'S', 'E', 'W'}

  /**
   * parseCoordinate: the text up to and including the first hemisphere
   * letter is one part, the rest the other; both are parsed, the point
   * starts at (0, 0), and the result is true only when both parts are.
   */
  function Coordinate(line: string): (bool, Point)
  {
    var u := ToUpper(line);
    var pos := FirstOf(u, Hemispheres);
    if pos < 0 then (false, Point(0, 0))
    else
      var first := CoordinatePart(Left(u, pos + 1), 0, 0);
      var second := CoordinatePart(From(u, pos + 1), first.1, first.2);
      (first.0 && second.0, Point(second.1, second.2))
  }

  method ParseCoordinate(line: string) returns (ok: bool, p: Point)
    ensures (ok, p) == Coordinate(line)
  {
    var u := ToUpper(line);
    var pos := FirstOf(u, Hemispheres);
    if pos == -1 {
      return false, Point(0, 0);
    }
    var ok1, lat, lon := ParseCoordinatePart(Left(u, pos + 1), 0, 0);
    var ok2, lat2, lon2 := ParseCoordinatePart(From(u, pos + 1), lat, lon);
    return ok1 && ok2, Point(lat2, lon2);
  }

  // ---------------------------------------------------------------------
  // The parser's state

  /**
   * The parser's fields; `building` holds the airspace under construction
   * (its name, type, polygon and limits), valid while `isCurrent`.
   */
  datatype ParserState = ParserState(
    airlist: seq<Airspace>, objCounter: nat, isCurrent: bool, direction: int,
    building: Airspace, center: Point, awyWidth: real, typeMap: map<string, string>)

  /** newAirspace: an unnamed airspace without type, points or limits. */
  const Unnamed := Airspace("(unnamed)", NotSelected, [], NotSetValue, NotSet, NotSetValue, NotSet)

  function ResetSpec(s: ParserState): ParserState
  {
    s.(airlist := [], direction := 1, objCounter := 0, isCurrent := false)
  }

  function NewAirspaceSpec(s: ParserState): ParserState
  {
    s.(building := Unnamed, isCurrent := true, direction := 1)
  }

  function FinishSpec(s: ParserState): ParserState
  {
    s.(airlist := s.airlist + [s.building], objCounter := s.objCounter + 1, isCurrent := false)
  }

  /** parseType: the class after "AC " must map to a known base type, or the airspace is abandoned. */
  function TypeSpec(s: ParserState, line: string): ParserState
  {
    var name := From(line, 3);
    if name !in s.typeMap then s.(isCurrent := false)
    else if s.typeMap[name] !in BaseTypeMap then s.(isCurrent := false)
    else s.(building := s.building.(kind := BaseTypeMap[s.typeMap[name]]))
  }

  /** parseVariable: a `name=value` pair (empty parts skipped), the name simplified and upper-cased. */
  function VariableSpec(s: ParserState, line: string): (ParserState, bool)
  {
    var args := SplitSkipEmpty(line, {'='});
    if |args| < 2 then (s, false)
    else AssignSpec(s, ToUpper(Simplified(args[0])), Simplified(args[1]))
  }

  /** X sets the arc centre, D the arc direction, W the airway width; Z is accepted; anything else is not. */
  function AssignSpec(s: ParserState, variable: string, value: string): (ParserState, bool)
  {
    if variable == "X" then
      var c := Coordinate(value);
      (s.(center := c.1), c.0)
    else if variable == "D" then
      if value == "+" then (s.(direction := 1), true)
      else if value == "-" then (s.(direction := -1), true)
      else (s, false)
    else if variable == "W" then
      var w := ParseReal(value);
      if w.Some? then (s.(awyWidth := w.value), true) else (s, false)
    else if variable == "Z" then (s, true)
    else (s, false)
  }

  /** parseLine on a simplified, non-comment line. */
  function LineSpec(s: ParserState, line: string): ParserState
  {
    if StartsWith(line, "AC ") then TypeSpec(NewAirspaceSpec(if s.isCurrent then FinishSpec(s) else s), line)
    else if !s.isCurrent then s
    else if StartsWith(line, "AN ") then s.(building := s.building.(name := From(line, 3)))
    else if StartsWith(line, "AH ") then
      var a := AltitudeOfAsWritten(From(line, 3));
      s.(building := s.building.(upperType := a.0, upper := a.1))
    else if StartsWith(line, "AL ") then
      var a := AltitudeOfAsWritten(From(line, 3));
      s.(building := s.building.(lowerType := a.0, lower := a.1))
    else if StartsWith(line, "DP ") then
      s.(building := s.building.(polygon := s.building.polygon + [Coordinate(From(line, 3)).1]))
    else if StartsWith(line, "V ") then VariableSpec(s, From(line, 2)).0
    else s
  }

  /** Lines the loop skips after simplifying them: comments and empty lines. */
  predicate Skipped(line: string)
  {
    line == [] || StartsWith(line, "*") || StartsWith(line, "#")
  }

  function SourceLineSpec(s: ParserState, raw: string): ParserState
  {
    var line := Simplified(raw);
    if Skipped(line) then s else LineSpec(s, line)
  }

  function LinesSpec(s: ParserState, lines: seq<string>): ParserState
    decreases |lines|
  {
    if lines == [] then s else LinesSpec(SourceLineSpec(s, lines[0]), lines[1..])
  }

  /** One line of the mapping file: `key=value` with a non-empty key, both sides simplified. */
  function MappingEntry(raw: string): Option<(string, string)>
  {
    var line := Simplified(raw);
    if Skipped(line) then None
    else
      var pos := IndexOf(line, '=');
      if pos > 0 then Some((Simplified(line[..pos]), Simplified(line[pos + 1..]))) else None
  }

  /** A mapping line replaces or adds its key. */
  function MappingLineSpec(m: map<string, string>, raw: string): map<string, string>
  {
    var e := MappingEntry(raw);
    if e.Some? then m[e.value.0 := e.value.1] else m
  }

  function MappingSpec(m: map<string, string>, lines: seq<string>): map<string, string>
    decreases |lines|
  {
    if lines == [] then m else MappingSpec(MappingLineSpec(m, lines[0]), lines[1..])
  }

  /** initializeStringMapping: the defaults, then the mapping file's lines when it can be read. */
  function InitialMapping(file: Option<seq<string>>): map<string, string>
  {
    if file.Some? then MappingSpec(DefaultTypeMap, file.value) else DefaultTypeMap
  }

  /** parse: the state after reading a source file, and whether it could be opened. */
  function ParseSpec(s: ParserState, source: Option<seq<string>>, mapping: Option<seq<string>>): (ParserState, bool)
  {
    if source.None? then (s, false)
    else
      var s1 := LinesSpec(ResetSpec(s).(typeMap := InitialMapping(mapping)), source.value);
      (if s1.isCurrent then FinishSpec(s1) else s1, true)
  }

  // ---------------------------------------------------------------------
  // The object

  class OpenAirParser {
    var airlist: seq<Airspace>
    var objCounter: nat
    var isCurrent: bool
    var direction: int
    var building: Airspace
    var center: Point
    var awyWidth: real
    var typeMap: map<string, string>

    ghost function State(): ParserState
      reads this
    {
      ParserState(airlist, objCounter, isCurrent, direction, building, center, awyWidth, typeMap)
    }

    constructor ()
      ensures State() == ParserState([], 0, false, 1, Unnamed, Point(0, 0), 0.0, map[])
    {
      airlist := [];
      objCounter := 0;
      isCurrent := false;
      direction := 1;
      building := Unnamed;
      center := Point(0, 0);
      awyWidth := 0.0;
      typeMap := map[];
    }

    method ResetState()
      modifies this
      ensures State() == ResetSpec(old(State()))
    {
      airlist := [];
      direction := 1;
      objCounter := 0;
      isCurrent := false;
    }

    method NewAirspace()
      modifies this
      ensures State() == NewAirspaceSpec(old(State()))
    {
      building := Unnamed;
      isCurrent := true;
      direction := 1;
    }

    method FinishAirspace()
      modifies this
      ensures State() == FinishSpec(old(State()))
    {
      airlist := airlist + [building];
      objCounter := objCounter + 1;
      isCurrent := false;
    }

    method InitializeStringMapping(file: Option<seq<string>>)
      modifies this
      ensures State() == old(State()).(typeMap := InitialMapping(file))
    {
      typeMap := DefaultTypeMap;
      if file.None? {
        return;
      }
      var lines := file.value;
      var i := 0;
      while i < |lines|
        invariant 0 <= i <= |lines|
        invariant MappingSpec(typeMap, lines[i..]) == InitialMapping(file)
        invariant State() == old(State()).(typeMap := typeMap)
      {
        assert lines[i..][1..] == lines[i + 1..];
        MapLine(lines[i]);
        i := i + 1;
      }
    }

    /** One line of the mapping file: a `key=value` line sets the key. */
    method MapLine(raw: string)
      modifies this
      ensures State() == old(State()).(typeMap := MappingLineSpec(old(typeMap), raw))
    {
      var line := Simplified(raw);
      if !Skipped(line) {
        var pos := IndexOf(line, '=');
        if pos > 0 {
          typeMap := typeMap[Simplified(line[..pos]) := Simplified(line[pos + 1..])];
        }
      }
    }

    method ParseType(line: string)
      modifies this
      ensures State() == TypeSpec(old(State()), line)
    {
      var className := From(line, 3);
      if className !in typeMap {
        isCurrent := false;
        return;
      }
      var stringType := typeMap[className];
      if stringType !in BaseTypeMap {
        isCurrent := false;
        return;
      }
      building := building.(kind := BaseTypeMap[stringType]);
    }

    method ParseVariable(line: string) returns (ok: bool)
      modifies this
      ensures (State(), ok) == VariableSpec(old(State()), line)
    {
      var arguments := SplitSkipEmpty(line, {'='});
      if |arguments| < 2 {
        return false;
      }
      ok := Assign(ToUpper(Simplified(arguments[0])), Simplified(arguments[1]));
    }

    method Assign(variable: string, value: string) returns (ok: bool)
      modifies this
      ensures (State(), ok) == AssignSpec(old(State()), variable, value)
    {
      if variable == "X" {
        ok, center := ParseCoordinate(value);
        return;
      }
      if variable == "D" {
        if value == "+" {
          direction := 1;
        } else if value == "-" {
          direction := -1;
        } else {
          return false;
        }
        return true;
      }
      if variable == "W" {
        var w := ParseReal(value);
        if w.Some? {
          awyWidth := w.value;
          return true;
        }
        return false;
      }
      if variable == "Z" {
        return true;
      }
      return false;
    }

    method ParseLine(line: string)
      modifies this
      ensures State() == LineSpec(old(State()), line)
    {
      if StartsWith(line, "AC ") {
        if isCurrent {
          FinishAirspace();
        }
        NewAirspace();
        ParseType(line);
        return;
      }
      if !isCurrent {
        return;
      }
      if StartsWith(line, "AN ") {
        building := building.(name := From(line, 3));
        return;
      }
      if StartsWith(line, "AH ") {
        var t, a := ParseAltitude(From(line, 3));
        building := building.(upperType := t, upper := a);
        return;
      }
      if StartsWith(line, "AL ") {
        var t, a := ParseAltitude(From(line, 3));
        building := building.(lowerType := t, lower := a);
        return;
      }
      if StartsWith(line, "DP ") {
        var _, p := ParseCoordinate(From(line, 3));
        building := building.(polygon := building.polygon + [p]);
        return;
      }
      if StartsWith(line, "V ") {
        var _ := ParseVariable(From(line, 2));
        return;
      }
    }

    /** parse's loop over the lines of the source. */
    method ReadLines(lines: seq<string>)
      modifies this
      ensures State() == LinesSpec(old(State()), lines)
    {
      var i := 0;
      while i < |lines|
        invariant 0 <= i <= |lines|
        invariant LinesSpec(State(), lines[i..]) == LinesSpec(old(State()), lines)
      {
        assert lines[i..][1..] == lines[i + 1..];
        ReadLine(lines[i]);
        i := i + 1;
      }
    }

    /** One line of the source: comments and empty lines are skipped, the rest parsed simplified. */
    method ReadLine(raw: string)
      modifies this
      ensures State() == SourceLineSpec(old(State()), raw)
    {
      var line := Simplified(raw);
      if !Skipped(line) {
        ParseLine(line);
      }
    }

    /** parse: the airspaces of a source file are appended to `list`; an unreadable file yields false. */
    method Parse(source: Option<seq<string>>, mapping: Option<seq<string>>, list: seq<Airspace>)
      returns (ok: bool, result: seq<Airspace>)
      modifies this
      ensures (State(), ok) == ParseSpec(old(State()), source, mapping)
      ensures result == if ok then list + airlist else list
    {
      if source.None? {
        return false, list;
      }
      ResetState();
      InitializeStringMapping(mapping);
      ReadLines(source.value);
      if isCurrent {
        FinishAirspace();
      }
      return true, list + airlist;
    }
  }
}
