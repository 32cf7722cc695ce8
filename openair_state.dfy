/**
 * Properties of the OpenAir parser's state: the invariant the record loop
 * keeps, what each record may change, how the line loop composes, and the
 * class-name mapping with its override file.
 */
module OpenAirParserProperties {
  import opened Text
  import opened BaseMap
  import opened OpenAir

  // ---------------------------------------------------------------------
  // Base types

  /** An airspace class the parser can give an airspace: anything but the two markers. */
  predicate KnownKind(k: ObjectType)
  {
    k != NotSelected && k != AirUkn
  }

  /** The base type names name exactly the known classes. */
  lemma BaseKinds(k: ObjectType)
    ensures k in BaseTypeMap.Values <==> KnownKind(k)
  {
    if KnownKind(k) {
      var n := match k
        case AirA => "AirA" case AirB => "AirB" case AirC => "AirC" case AirD => "AirD"
        case AirElow => "AirElow" case AirEhigh => "AirEhigh" case AirF => "AirF"
        case ControlC => "ControlC" case ControlD => "ControlD" case Danger => "Danger"
        case Restricted => "Restricted" case Prohibited => "Prohibited"
        case LowFlight => "LowFlight" case Tmz => "Tmz" case _ => "SuSector";
      assert n in BaseTypeMap && BaseTypeMap[n] == k;
    }
  }

  /** Every class name of the default mapping leads to a base type. */
  lemma DefaultClassesKnown(name: string)
    requires name in DefaultTypeMap
    ensures DefaultTypeMap[name] in BaseTypeMap
    ensures KnownKind(BaseTypeMap[DefaultTypeMap[name]])
  {
    BaseKinds(BaseTypeMap[DefaultTypeMap[name]]);
  }

  // ---------------------------------------------------------------------
  // The parser's invariant

  /**
   * Between lines: one object counted per finished airspace, an arc
   * direction of +1 or -1, and a known class on every finished airspace and
   * on the one being built.
   */
  predicate Valid(s: ParserState)
  {
    && s.objCounter == |s.airlist|
    && (s.direction == 1 || s.direction == -1)
    && (forall a :: a in s.airlist ==> KnownKind(a.kind))
    && (s.isCurrent ==> KnownKind(s.building.kind))
  }

  lemma ResetValid(s: ParserState)
    ensures Valid(ResetSpec(s)) && !ResetSpec(s).isCurrent && ResetSpec(s).airlist == []
  {
  }

  /** An AC record: the airspace being built is finished, and a new one gets the class's type or is abandoned. */
  lemma AcRecord(s: ParserState, line: string)
    requires StartsWith(line, "AC ")
    ensures var r := LineSpec(s, line); var name := From(line, 3);
      && r.airlist == (if s.isCurrent then s.airlist + [s.building] else s.airlist)
      && r.objCounter == s.objCounter + (if s.isCurrent then 1 else 0)
      && (r.isCurrent <==> name in s.typeMap && s.typeMap[name] in BaseTypeMap)
      && (r.isCurrent ==> r.building == Unnamed.(kind := BaseTypeMap[s.typeMap[name]]))
      && r.direction == 1
      && r.center == s.center && r.awyWidth == s.awyWidth && r.typeMap == s.typeMap
  {
  }

  lemma AcValid(s: ParserState, line: string)
    requires Valid(s) && StartsWith(line, "AC ")
    ensures Valid(LineSpec(s, line))
  {
    AcRecord(s, line);
    var r := LineSpec(s, line);
    if r.isCurrent {
      BaseKinds(r.building.kind);
    }
  }

  /** With no airspace being built, every record but AC is ignored. */
  lemma ClosedIgnores(s: ParserState, line: string)
    requires !s.isCurrent && !StartsWith(line, "AC ")
    ensures LineSpec(s, line) == s
  {
  }

  /** AN, AH, AL, DP and unknown records change only the airspace being built, and not its class. */
  lemma RecordEditsBuilding(s: ParserState, line: string)
    requires !StartsWith(line, "AC ") && !StartsWith(line, "V ")
    ensures var r := LineSpec(s, line);
      r == s.(building := r.building) && r.building.kind == s.building.kind
  {
  }

  /** An assignment changes only the arc centre, the direction and the airway width. */
  lemma AssignFrame(s: ParserState, variable: string, value: string)
    ensures var r := AssignSpec(s, variable, value).0;
      r == s.(center := r.center, direction := r.direction, awyWidth := r.awyWidth)
  {
  }

  /** A V record changes only the arc centre, the direction and the airway width. */
  lemma VariableFrame(s: ParserState, line: string)
    requires StartsWith(line, "V ")
    ensures var r := LineSpec(s, line);
      r == s.(center := r.center, direction := r.direction, awyWidth := r.awyWidth)
  {
    assert line[..2][0] == 'V';
    assert !StartsWith(line, "AC ") && !StartsWith(line, "AN ") && !StartsWith(line, "AH ")
      && !StartsWith(line, "AL ") && !StartsWith(line, "DP ") by {
      assert line[0] == 'V';
    }
    if s.isCurrent {
      assert LineSpec(s, line) == VariableSpec(s, From(line, 2)).0;
      var args := SplitSkipEmpty(From(line, 2), {'='});
      if |args| >= 2 {
        AssignFrame(s, ToUpper(Simplified(args[0])), Simplified(args[1]));
      }
    }
  }

  /** AssignSpec keeps the direction at +1 or -1. */
  lemma AssignDirection(s: ParserState, variable: string, value: string)
    requires s.direction == 1 || s.direction == -1
    ensures var r := AssignSpec(s, variable, value).0; r.direction == 1 || r.direction == -1
  {
  }

  /** A DP record appends one point to the polygon and leaves the rest of the airspace alone. */
  lemma DpAppends(s: ParserState, line: string)
    requires s.isCurrent && StartsWith(line, "DP ")
    ensures var r := LineSpec(s, line);
      && r == s.(building := r.building)
      && r.building == s.building.(polygon := s.building.polygon + [Coordinate(From(line, 3)).1])
  {
    assert !StartsWith(line, "AC ") by {
      assert line[..3][0] == 'D';
    }
    assert !StartsWith(line, "AN ") && !StartsWith(line, "AH ") && !StartsWith(line, "AL ") by {
      assert line[..3][1] == 'P';
    }
  }

  /** parseLine keeps the invariant. */
  lemma LineValid(s: ParserState, line: string)
    requires Valid(s)
    ensures Valid(LineSpec(s, line))
  {
    if StartsWith(line, "AC ") {
      AcValid(s, line);
    } else if StartsWith(line, "V ") {
      VariableFrame(s, line);
      var args := SplitSkipEmpty(From(line, 2), {'='});
      if |args| >= 2 {
        AssignDirection(s, ToUpper(Simplified(args[0])), Simplified(args[1]));
      }
    } else {
      RecordEditsBuilding(s, line);
    }
  }

  lemma SourceLineValid(s: ParserState, raw: string)
    requires Valid(s)
    ensures Valid(SourceLineSpec(s, raw))
  {
    var line := Simplified(raw);
    if !Skipped(line) {
      LineValid(s, line);
    }
  }

  lemma {:induction false} LinesValid(s: ParserState, lines: seq<string>)
    requires Valid(s)
    ensures Valid(LinesSpec(s, lines))
    decreases |lines|
  {
    if lines != [] {
      SourceLineValid(s, lines[0]);
      LinesValid(SourceLineSpec(s, lines[0]), lines[1..]);
    }
  }

  /** Finished airspaces stay: the list only grows, at its end. */
  lemma {:induction false} LinesKeepAirspaces(s: ParserState, lines: seq<string>)
    ensures s.airlist <= LinesSpec(s, lines).airlist
    decreases |lines|
  {
    if lines != [] {
      var t := SourceLineSpec(s, lines[0]);
      assert s.airlist <= t.airlist by {
        var line := Simplified(lines[0]);
        if !Skipped(line) && StartsWith(line, "AC ") {
          AcRecord(s, line);
        } else if !Skipped(line) && StartsWith(line, "V ") {
          VariableFrame(s, line);
        } else if !Skipped(line) {
          RecordEditsBuilding(s, line);
        }
      }
      LinesKeepAirspaces(t, lines[1..]);
    }
  }

  /**
   * parse: an opened file leaves no airspace half built, counts one object
   * per airspace and gives every airspace a known class; a file that cannot
   * be opened changes nothing.
   */
  lemma ParseValid(s: ParserState, source: Option<seq<string>>, mapping: Option<seq<string>>)
    ensures var (r, ok) := ParseSpec(s, source, mapping);
      && (ok <==> source.Some?)
      && (ok ==> Valid(r) && !r.isCurrent)
      && (!ok ==> r == s)
  {
    if source.Some? {
      var s0 := ResetSpec(s).(typeMap := InitialMapping(mapping));
      assert Valid(s0);
      LinesValid(s0, source.value);
    }
  }

  /** The record loop never touches the class-name mapping. */
  lemma {:induction false} LinesKeepTypeMap(s: ParserState, lines: seq<string>)
    ensures LinesSpec(s, lines).typeMap == s.typeMap
    decreases |lines|
  {
    if lines != [] {
      var line := Simplified(lines[0]);
      if !Skipped(line) {
        if StartsWith(line, "AC ") {
          AcRecord(s, line);
        } else if StartsWith(line, "V ") {
          VariableFrame(s, line);
        } else {
          RecordEditsBuilding(s, line);
        }
      }
      LinesKeepTypeMap(SourceLineSpec(s, lines[0]), lines[1..]);
    }
  }

  /** An AC record of a known class finishes the open airspace and opens one of that class. */
  lemma AcLineOpens(before: ParserState, ac: string)
    requires Simplified(ac) == ac && StartsWith(ac, "AC ")
    requires From(ac, 3) in before.typeMap && before.typeMap[From(ac, 3)] in BaseTypeMap
    ensures var done := if before.isCurrent then before.airlist + [before.building] else before.airlist;
      var s1 := LinesSpec(before, [ac]);
      && s1.isCurrent && s1.airlist == done
      && s1.building == Unnamed.(kind := BaseTypeMap[before.typeMap[From(ac, 3)]])
  {
    assert ac[0] == 'A';
    assert !Skipped(ac);
    AcRecord(before, ac);
    assert [ac][1..] == [];
    assert LinesSpec(before, [ac]) == LineSpec(before, ac);
  }

  /**
   * parse finishes the airspace still open at the end of the file: an AC
   * record of a known class on the last line puts an airspace of that class
   * at the end of the list, after those the lines before it finished.
   */
  lemma LastAirspaceFinished(s: ParserState, lines: seq<string>, ac: string, mapping: Option<seq<string>>)
    requires Simplified(ac) == ac && StartsWith(ac, "AC ")
    requires var m := InitialMapping(mapping); From(ac, 3) in m && m[From(ac, 3)] in BaseTypeMap
    ensures var before := LinesSpec(ResetSpec(s).(typeMap := InitialMapping(mapping)), lines);
      var done := if before.isCurrent then before.airlist + [before.building] else before.airlist;
      var r := ParseSpec(s, Some(lines + [ac]), mapping).0;
      && r.airlist == done + [Unnamed.(kind := BaseTypeMap[InitialMapping(mapping)[From(ac, 3)]])]
      && !r.isCurrent
  {
    var start := ResetSpec(s).(typeMap := InitialMapping(mapping));
    var before := LinesSpec(start, lines);
    LinesConcat(start, lines, [ac]);
    LinesKeepTypeMap(start, lines);
    AcLineOpens(before, ac);
  }

  // ---------------------------------------------------------------------
  // The line loop

  /** Reading two pieces of a file one after the other is reading the whole. */
  lemma {:induction false} LinesConcat(s: ParserState, a: seq<string>, b: seq<string>)
    ensures LinesSpec(s, a + b) == LinesSpec(LinesSpec(s, a), b)
    decreases |a|
  {
    if a == [] {
      assert a + b == b;
    } else {
      assert (a + b)[0] == a[0];
      assert (a + b)[1..] == a[1..] + b;
      LinesConcat(SourceLineSpec(s, a[0]), a[1..], b);
    }
  }

  /** Comments and empty lines leave the parser as it was. */
  lemma {:induction false} SkippedLines(s: ParserState, lines: seq<string>)
    requires forall i :: 0 <= i < |lines| ==> Skipped(Simplified(lines[i]))
    ensures LinesSpec(s, lines) == s
    decreases |lines|
  {
    if lines != [] {
      assert Skipped(Simplified(lines[0]));
      SkippedLines(s, lines[1..]);
    }
  }

  // ---------------------------------------------------------------------
  // Variables

  /** A V record without '=' is refused and changes nothing. */
  lemma NoEqualsRejected(s: ParserState, line: string)
    requires '=' !in line
    ensures VariableSpec(s, line) == (s, false)
  {
    SplitNoSeparator(line, {'='});
    assert |SplitSkipEmpty(line, {'='})| <= 1;
  }

  /** `name=value` assigns the simplified, upper-cased name the simplified value. */
  lemma VariablePair(s: ParserState, name: string, value: string)
    requires name != [] && value != []
    requires '=' !in name && '=' !in value
    ensures VariableSpec(s, name + "=" + value) == AssignSpec(s, ToUpper(Simplified(name)), Simplified(value))
  {
    SplitAtSeparator(name, '=', value, {'='});
    SplitNoSeparator(value, {'='});
    assert name + "=" + value == name + ['='] + value;
    var parts := Split(name + "=" + value, {'='});
    assert parts == [name, value];
    assert NonEmpty(parts[1..]) == [value] by {
      assert parts[1..] == [value];
      assert parts[1..][1..] == [];
    }
    assert SplitSkipEmpty(name + "=" + value, {'='}) == [name, value];
  }

  /** D accepts only "+" and "-", which set the direction to 1 and -1. */
  lemma DirectionValues(s: ParserState, value: string)
    ensures var (r, ok) := AssignSpec(s, "D", value);
      && (ok <==> value == "+" || value == "-")
      && (ok ==> r == s.(direction := if value == "+" then 1 else -1))
      && (!ok ==> r == s)
  {
  }

  /** Names other than X, D, W and Z are refused and change nothing. */
  lemma UnknownVariable(s: ParserState, variable: string, value: string)
    requires variable != "X" && variable != "D" && variable != "W" && variable != "Z"
    ensures AssignSpec(s, variable, value) == (s, false)
  {
  }

  // ---------------------------------------------------------------------
  // The class-name mapping

  /** Reading the mapping file in two pieces is reading it whole. */
  lemma {:induction false} MappingConcat(m: map<string, string>, a: seq<string>, b: seq<string>)
    ensures MappingSpec(m, a + b) == MappingSpec(MappingSpec(m, a), b)
    decreases |a|
  {
    if a == [] {
      assert a + b == b;
    } else {
      assert (a + b)[0] == a[0];
      assert (a + b)[1..] == a[1..] + b;
      MappingConcat(MappingLineSpec(m, a[0]), a[1..], b);
    }
  }

  /** Whether a line of the mapping file sets `key`. */
  predicate Sets(raw: string, key: string)
  {
    MappingEntry(raw).Some? && MappingEntry(raw).value.0 == key
  }

  /** The mapping file adds or overrides names, never removes one; names it does not set keep their value. */
  lemma {:induction false} MappingKeeps(m: map<string, string>, lines: seq<string>, key: string)
    ensures m.Keys <= MappingSpec(m, lines).Keys
    ensures key in m && (forall i :: 0 <= i < |lines| ==> !Sets(lines[i], key))
      ==> MappingSpec(m, lines)[key] == m[key]
    decreases |lines|
  {
    if lines != [] {
      MappingKeeps(MappingLineSpec(m, lines[0]), lines[1..], key);
      if key in m && (forall i :: 0 <= i < |lines| ==> !Sets(lines[i], key)) {
        assert !Sets(lines[0], key);
        assert forall i :: 0 <= i < |lines[1..]| ==> !Sets(lines[1..][i], key) by {
          forall i | 0 <= i < |lines[1..]|
            ensures !Sets(lines[1..][i], key)
          {
            assert lines[1..][i] == lines[i + 1];
          }
        }
      }
    }
  }

  /** The last line that sets a name decides its value. */
  lemma {:induction false} LastMappingWins(m: map<string, string>, lines: seq<string>, i: nat, key: string, value: string)
    requires i < |lines| && MappingEntry(lines[i]) == Some((key, value))
    requires forall j :: i < j < |lines| ==> !Sets(lines[j], key)
    ensures key in MappingSpec(m, lines) && MappingSpec(m, lines)[key] == value
  {
    assert lines == lines[..i] + [lines[i]] + lines[i + 1..];
    MappingConcat(m, lines[..i] + [lines[i]], lines[i + 1..]);
    MappingConcat(m, lines[..i], [lines[i]]);
    var m1 := MappingSpec(MappingSpec(m, lines[..i]), [lines[i]]);
    assert m1 == MappingLineSpec(MappingSpec(m, lines[..i]), lines[i]);
    assert key in m1 && m1[key] == value;
    var rest := lines[i + 1..];
    forall j | 0 <= j < |rest|
      ensures !Sets(rest[j], key)
    {
      assert rest[j] == lines[i + 1 + j];
    }
    MappingKeeps(m1, rest, key);
  }

  /** The defaults survive the mapping file unless it overrides them. */
  lemma DefaultsKept(file: Option<seq<string>>, key: string)
    requires key in DefaultTypeMap
    ensures key in InitialMapping(file)
    ensures (file.None? || forall i :: 0 <= i < |file.value| ==> !Sets(file.value[i], key))
      ==> InitialMapping(file)[key] == DefaultTypeMap[key]
  {
    if file.Some? {
      MappingKeeps(DefaultTypeMap, file.value, key);
    }
  }
}
