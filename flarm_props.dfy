/**
 * Properties of the FLARM sentence reader: what a rejected sentence
 * changes, that a sentence written from a record reads back as that record,
 * what a sentinel tells the reader, how the aircraft table changes, and the
 * status check of the relative-value getters.
 */
module FlarmProperties {
  import opened Text
  import opened Flarm

  // ---------------------------------------------------------------------
  // Numbers written and read back

  predicate IsShort(n: int) { -0x8000 <= n < 0x8000 }
  predicate IsInt(n: int) { IntMin <= n < 0x8000_0000 }

  lemma ShortRoundTrip(n: int)
    requires IsShort(n)
    ensures ToShort(IntToString(n)) == Some(n)
  {
    IntToStringRoundTrip(n);
  }

  lemma IntRoundTrip(n: int)
    requires IsInt(n)
    ensures ToInt(IntToString(n)) == Some(n)
  {
    IntToStringRoundTrip(n);
  }

  // ---------------------------------------------------------------------
  // $PFLAU

  /** A $PFLAU written from a status: its numbers printed with %d, its texts as they are. */
  function PflauFields(st: FlarmStatus): seq<string>
  {
    ["$PFLAU", IntToString(st.rx), IntToString(st.tx), IntToString(st.gps), IntToString(st.power),
     IntToString(st.alarm), st.relativeBearing, IntToString(st.alarmType), st.relativeVertical,
     st.relativeDistance, st.id]
  }

  predicate ShortNumbers(st: FlarmStatus)
  {
    IsShort(st.rx) && IsShort(st.tx) && IsShort(st.gps) && IsShort(st.power)
    && IsShort(st.alarm) && IsShort(st.alarmType)
  }

  /** Reading a $PFLAU written from a status gives that status back, marked valid, whatever came before. */
  lemma PflauRoundTrip(before: FlarmStatus, st: FlarmStatus)
    requires ShortNumbers(st)
    ensures PflauSpec(before, PflauFields(st)) == (st.(valid := true), true)
  {
    ShortRoundTrip(st.rx);
    ShortRoundTrip(st.tx);
    ShortRoundTrip(st.gps);
    ShortRoundTrip(st.power);
    ShortRoundTrip(st.alarm);
    ShortRoundTrip(st.alarmType);
  }

  /** The status is valid exactly when the last sentence was read; a rejected one keeps the old texts. */
  lemma PflauValidity(st: FlarmStatus, fields: seq<string>)
    requires fields != []
    ensures var (r, ok) := PflauSpec(st, fields);
      && (ok <==> fields[0] == "$PFLAU" && |fields| >= 11)
      && r.valid == ok
      && (!ok ==> r.(valid := st.valid) == st)
  {
  }

  /**
   * A number of a $PFLAU that does not read becomes 0 (the alarm level No,
   * the GPS status NoFix); a value other than 0 is the one the field says.
   */
  lemma PflauSentinels(st: FlarmStatus, fields: seq<string>)
    requires |fields| >= 11 && fields[0] == "$PFLAU"
    ensures var r := PflauSpec(st, fields).0;
      && (ToShort(fields[1]).None? ==> r.rx == 0) && (r.rx != 0 ==> ToShort(fields[1]) == Some(r.rx))
      && (ToShort(fields[2]).None? ==> r.tx == 0) && (r.tx != 0 ==> ToShort(fields[2]) == Some(r.tx))
      && (ToShort(fields[3]).None? ==> r.gps == NoFix) && (r.gps != NoFix ==> ToShort(fields[3]) == Some(r.gps))
      && (ToShort(fields[4]).None? ==> r.power == 0) && (r.power != 0 ==> ToShort(fields[4]) == Some(r.power))
      && (ToShort(fields[5]).None? ==> r.alarm == No) && (r.alarm != No ==> ToShort(fields[5]) == Some(r.alarm))
      && (ToShort(fields[7]).None? ==> r.alarmType == 0) && (r.alarmType != 0 ==> ToShort(fields[7]) == Some(r.alarmType))
      && IsShort(r.rx) && IsShort(r.tx) && IsShort(r.gps) && IsShort(r.power) && IsShort(r.alarm) && IsShort(r.alarmType)
  {
  }

  // ---------------------------------------------------------------------
  // $PFLAA

  /** A $PFLAA written from an aircraft: its whole numbers printed with %d, the rates given as text. */
  function PflaaFields(a: FlarmAcft, turnRate: string, groundSpeed: string, climbRate: string): seq<string>
  {
    ["$PFLAA", IntToString(a.alarm), IntToString(a.relativeNorth), IntToString(a.relativeEast),
     IntToString(a.relativeVertical), IntToString(a.idType), a.id, IntToString(a.track),
     turnRate, groundSpeed, climbRate, IntToString(a.acftType)]
  }

  predicate IntNumbers(a: FlarmAcft)
  {
    IsInt(a.alarm) && IsInt(a.relativeNorth) && IsInt(a.relativeEast) && IsInt(a.relativeVertical)
    && IsInt(a.idType) && IsInt(a.track) && IsShort(a.acftType)
  }

  /**
   * Reading a $PFLAA written from an aircraft, whose rate texts read as its
   * rates, gives the aircraft back, stamped with the time of reading.
   */
  lemma PflaaRoundTrip(hash: map<string, FlarmAcft>, collect: bool, keyOf: (int, string) -> string,
                       previous: FlarmAcft, a: FlarmAcft, turnRate: string, groundSpeed: string, climbRate: string, now: int)
    requires IntNumbers(a)
    requires ParseReal(turnRate) == Some(a.turnRate) && ParseReal(groundSpeed) == Some(a.groundSpeed)
    requires ParseReal(climbRate) == Some(a.climbRate)
    ensures var (ok, r, _) := PflaaSpec(hash, collect, PflaaFields(a, turnRate, groundSpeed, climbRate), now, keyOf, previous);
      ok && r == a.(timeStamp := now)
  {
    IntRoundTrip(a.alarm);
    IntRoundTrip(a.relativeNorth);
    IntRoundTrip(a.relativeEast);
    IntRoundTrip(a.relativeVertical);
    IntRoundTrip(a.idType);
    IntRoundTrip(a.track);
    ShortRoundTrip(a.acftType);
  }

  /** A rejected $PFLAA changes neither the aircraft out-parameter nor the table. */
  lemma PflaaRejected(hash: map<string, FlarmAcft>, collect: bool, fields: seq<string>, now: int,
                      keyOf: (int, string) -> string, previous: FlarmAcft)
    requires fields != []
    ensures var (ok, r, h) := PflaaSpec(hash, collect, fields, now, keyOf, previous);
      (ok <==> fields[0] == "$PFLAA" && |fields| >= 12) && (!ok ==> r == previous && h == hash)
  {
  }

  /** An int field either reads, or holds INT_MIN; a value other than INT_MIN is what the field says. */
  predicate IntSentinel(field: string, v: int)
  {
    (v == IntMin <==> ToInt(field).None? || ToInt(field) == Some(IntMin))
    && (v != IntMin ==> ToInt(field) == Some(v))
  }

  predicate RealSentinel(field: string, v: real)
  {
    (v == IntMin as real <==> ParseReal(field).None? || ParseReal(field) == Some(IntMin as real))
    && (v != IntMin as real ==> ParseReal(field) == Some(v))
  }

  /** The sentinels of a $PFLAA: INT_MIN for positions, track and rates, 0 for the ID type and aircraft type, No for the alarm. */
  lemma PflaaSentinels(fields: seq<string>, now: int)
    requires |fields| >= 12 && fields[0] == "$PFLAA"
    ensures var a := PflaaAcft(fields, now);
      && IntSentinel(fields[2], a.relativeNorth) && IntSentinel(fields[3], a.relativeEast)
      && IntSentinel(fields[4], a.relativeVertical) && IntSentinel(fields[7], a.track)
      && RealSentinel(fields[8], a.turnRate) && RealSentinel(fields[9], a.groundSpeed)
      && RealSentinel(fields[10], a.climbRate)
      && (ToInt(fields[1]).None? ==> a.alarm == No) && (a.alarm != No ==> ToInt(fields[1]) == Some(a.alarm))
      && (ToInt(fields[5]).None? ==> a.idType == 0) && (a.idType != 0 ==> ToInt(fields[5]) == Some(a.idType))
      && (ToShort(fields[11]).None? ==> a.acftType == 0) && (a.acftType != 0 ==> ToShort(fields[11]) == Some(a.acftType))
      && a.id == fields[6] && a.timeStamp == now
  {
  }

  // ---------------------------------------------------------------------
  // The aircraft table

  /**
   * Collecting a record puts it under its key, adding the key when it is new,
   * and leaves every other entry as it was.
   */
  lemma CollectUpdates(hash: map<string, FlarmAcft>, a: FlarmAcft, keyOf: (int, string) -> string)
    ensures var h := Collect(hash, a, keyOf); var key := keyOf(a.idType, a.id);
      && key in h && h[key] == a
      && h.Keys == hash.Keys + {key}
      && |h| == |hash| + (if key in hash then 0 else 1)
      && forall k :: k in hash && k != key ==> h[k] == hash[k]
  {
    var h := Collect(hash, a, keyOf);
    var key := keyOf(a.idType, a.id);
    assert h.Keys == hash.Keys + {key};
    if key !in hash {
      assert |h.Keys| == |hash.Keys| + 1;
    } else {
      assert h.Keys == hash.Keys;
    }
  }

  /** Collecting is on or off for the whole sentence: off, the table does not change. */
  lemma PflaaTable(hash: map<string, FlarmAcft>, collect: bool, fields: seq<string>, now: int,
                   keyOf: (int, string) -> string, previous: FlarmAcft)
    requires fields != []
    ensures var (ok, a, h) := PflaaSpec(hash, collect, fields, now, keyOf, previous);
      && (ok && collect ==> h == Collect(hash, a, keyOf))
      && (!(ok && collect) ==> h == hash)
  {
  }

  /** Reading the same $PFLAA twice at the same time leaves the table as reading it once. */
  lemma PflaaTwice(hash: map<string, FlarmAcft>, collect: bool, fields: seq<string>, now: int,
                   keyOf: (int, string) -> string, previous: FlarmAcft)
    requires fields != []
    ensures var (_, a1, h1) := PflaaSpec(hash, collect, fields, now, keyOf, previous);
      PflaaSpec(h1, collect, fields, now, keyOf, a1) == PflaaSpec(hash, collect, fields, now, keyOf, previous)
  {
    if PflaaAccepted(fields) && collect {
      CollectTwice(hash, PflaaAcft(fields, now), keyOf);
    }
  }

  /** Collecting a record a second time changes nothing. */
  lemma CollectTwice(hash: map<string, FlarmAcft>, a: FlarmAcft, keyOf: (int, string) -> string)
    ensures Collect(Collect(hash, a, keyOf), a, keyOf) == Collect(hash, a, keyOf)
  {
  }

  // ---------------------------------------------------------------------
  // Relative values

  /** As written, the status flag never decides the outcome: the getters succeed exactly when the text reads. */
  lemma RelativeIgnoresValid(valid: bool, text: string, previous: int)
    ensures RelativeAsWritten(valid, text, previous).0 <==> ToInt(text).Some?
  {
    if text == [] {
      assert Trim(text) == [];
    }
  }

  /** So after a rejected $PFLAU the getters still report the old sentence's bearing as read. */
  lemma StaleBearingAccepted(st: FlarmStatus, fields: seq<string>, previous: int)
    requires fields != [] && !PflauAccepted(fields)
    requires ToInt(st.relativeBearing).Some?
    ensures var r := PflauSpec(st, fields).0;
      && !r.valid
      && RelativeAsWritten(r.valid, r.relativeBearing, previous) == (true, ToInt(st.relativeBearing).value)
  {
    RelativeIgnoresValid(false, st.relativeBearing, previous);
  }

  /** With the status checked, a rejected $PFLAU makes every getter fail and leaves its out-parameter alone. */
  lemma CheckedAfterRejected(st: FlarmStatus, fields: seq<string>, previous: int)
    requires fields != [] && !PflauAccepted(fields)
    ensures var r := PflauSpec(st, fields).0;
      && RelativeChecked(r.valid, r.relativeBearing, previous) == (false, previous)
      && RelativeChecked(r.valid, r.relativeVertical, previous) == (false, previous)
      && RelativeChecked(r.valid, r.relativeDistance, previous) == (false, previous)
  {
  }

  /** The getters, as written and with the status checked, give back the relative values of a $PFLAU written with %d. */
  lemma CheckedAfterRoundTrip(before: FlarmStatus, st: FlarmStatus, bearing: int, vertical: int, distance: int, previous: int)
    requires ShortNumbers(st) && IsInt(bearing) && IsInt(vertical) && IsInt(distance)
    ensures var r := PflauSpec(before, PflauFields(st.(relativeBearing := IntToString(bearing),
      relativeVertical := IntToString(vertical), relativeDistance := IntToString(distance)))).0;
      && RelativeChecked(r.valid, r.relativeBearing, previous) == (true, bearing)
      && RelativeChecked(r.valid, r.relativeVertical, previous) == (true, vertical)
      && RelativeChecked(r.valid, r.relativeDistance, previous) == (true, distance)
      && RelativeAsWritten(r.valid, r.relativeBearing, previous) == (true, bearing)
      && RelativeAsWritten(r.valid, r.relativeVertical, previous) == (true, vertical)
      && RelativeAsWritten(r.valid, r.relativeDistance, previous) == (true, distance)
  {
    var st' := st.(relativeBearing := IntToString(bearing), relativeVertical := IntToString(vertical),
      relativeDistance := IntToString(distance));
    PflauRoundTrip(before, st');
    IntRoundTrip(bearing);
    IntRoundTrip(vertical);
    IntRoundTrip(distance);
  }
}
