/**
 * The FLARM sentence reader: $PFLAU (the device's status and the most
 * important alarm) and $PFLAA (one aircraft nearby), read field by field
 * from the comma-separated fields of a sentence, with a sentinel for every
 * field that does not read as a number; $PFLAA records are collected in a
 * table keyed by aircraft.
 *
 * The class stands for the static members the source shares between all
 * instances: the status, the collection switch and the aircraft table.
 */
module Flarm {
  import opened Text

  /** INT_MIN, the marker of an unknown $PFLAA value. */
  const IntMin: int := -0x8000_0000

  /**
   * The alarm level "no alarm" and the GPS status "no fix". The header that
   * declares both enumerations (flarm.h) is not part of this model; both are
   * taken to be 0, the codes the FLARM data port uses for them.
   */
  const No: int := 0
  const NoFix: int := 0

  /** Flarm::FlarmStatus: the last $PFLAU; the three relative values are kept as text. */
  datatype FlarmStatus = FlarmStatus(
    valid: bool, rx: int, tx: int, gps: int, power: int, alarm: int,
    relativeBearing: string, alarmType: int, relativeVertical: string,
    relativeDistance: string, id: string)

  /** Flarm::FlarmAcft: one aircraft of a $PFLAA, stamped with the time it was read. */
  datatype FlarmAcft = FlarmAcft(
    timeStamp: int, alarm: int, relativeNorth: int, relativeEast: int,
    relativeVertical: int, idType: int, id: string, track: int,
    turnRate: real, groundSpeed: real, climbRate: real, acftType: int)

  /** The status before any $PFLAU: zero numbers, empty texts, not valid. */
  const InitialStatus := FlarmStatus(false, 0, 0, 0, 0, 0, "", 0, "", "", "")

  function ShortOr(s: string, d: int): int
  {
    var v := ToShort(s);
    if v.Some? then v.value else d
  }

  function IntOr(s: string, d: int): int
  {
    var v := ToInt(s);
    if v.Some? then v.value else d
  }

  function RealOr(s: string, d: real): real
  {
    var v := ParseReal(s);
    if v.Some? then v.value else d
  }

  // ---------------------------------------------------------------------
  // $PFLAU

  /** Whether extractPflau accepts the fields: the sentence name and at least eleven fields. */
  predicate PflauAccepted(fields: seq<string>)
    requires fields != []
  {
    fields[0] == "$PFLAU" && |fields| >= 11
  }

  /** The status read from an accepted $PFLAU. */
  function PflauStatus(fields: seq<string>): FlarmStatus
    requires |fields| >= 11
  {
    FlarmStatus(
      true, ShortOr(fields[1], 0), ShortOr(fields[2], 0), ShortOr(fields[3], NoFix),
      ShortOr(fields[4], 0), ShortOr(fields[5], No), fields[6], ShortOr(fields[7], 0),
      fields[8], fields[9], fields[10])
  }

  /** extractPflau: the new status and whether the sentence was read; a rejected one only clears `valid`. */
  function PflauSpec(st: FlarmStatus, fields: seq<string>): (FlarmStatus, bool)
    requires fields != []
  {
    if PflauAccepted(fields) then (PflauStatus(fields), true) else (st.(valid := false), false)
  }

  // ---------------------------------------------------------------------
  // $PFLAA

  predicate PflaaAccepted(fields: seq<string>)
    requires fields != []
  {
    fields[0] == "$PFLAA" && |fields| >= 12
  }

  /** The aircraft read from an accepted $PFLAA at time `now`. */
  function PflaaAcft(fields: seq<string>, now: int): FlarmAcft
    requires |fields| >= 12
  {
    FlarmAcft(
      now, IntOr(fields[1], No), IntOr(fields[2], IntMin), IntOr(fields[3], IntMin),
      IntOr(fields[4], IntMin), IntOr(fields[5], 0), fields[6], IntOr(fields[7], IntMin),
      RealOr(fields[8], IntMin as real), RealOr(fields[9], IntMin as real),
      RealOr(fields[10], IntMin as real), ShortOr(fields[11], 0))
  }

  /** The aircraft table after collecting `a` under the key of its ID type and ID. */
  function Collect(hash: map<string, FlarmAcft>, a: FlarmAcft, keyOf: (int, string) -> string): map<string, FlarmAcft>
  {
    hash[keyOf(a.idType, a.id) := a]
  }

  /**
   * extractPflaa: whether the sentence was read, the aircraft out-parameter
   * (untouched when it was not) and the table (changed only when collecting).
   */
  function PflaaSpec(hash: map<string, FlarmAcft>, collect: bool, fields: seq<string>, now: int,
                     keyOf: (int, string) -> string, aircraft: FlarmAcft): (bool, FlarmAcft, map<string, FlarmAcft>)
    requires fields != []
  {
    if !PflaaAccepted(fields) then (false, aircraft, hash)
    else
      var a := PflaaAcft(fields, now);
      (true, a, if collect then Collect(hash, a, keyOf) else hash)
  }

  // ---------------------------------------------------------------------
  // Relative values of the last $PFLAU

  /**
   * getFlarmRelative*: false, with the out-parameter untouched, when the
   * status is not valid and the text is empty; otherwise the text read as an
   * int (0 when it does not read, as QString::toInt gives) and whether it read.
   */
  function RelativeAsWritten(valid: bool, text: string, previous: int): (r: (bool, int))
    ensures r.0 ==> ToInt(text) == Some(r.1)
    ensures !valid && text == [] ==> r == (false, previous)
  {
    if !valid && text == [] then (false, previous)
    else
      var v := ToInt(text);
      (v.Some?, if v.Some? then v.value else 0)
  }

  /**
   * The relative value with the status checked (`!valid || text.isEmpty()`):
   * false, out-parameter untouched, unless the status is valid.
   */
  function RelativeChecked(valid: bool, text: string, previous: int): (r: (bool, int))
    ensures r.0 <==> valid && ToInt(text).Some?
    ensures r.0 ==> ToInt(text) == Some(r.1)
  {
    if !valid || text == [] then (false, previous)
    else
      var v := ToInt(text);
      (v.Some?, if v.Some? then v.value else 0)
  }

  // ---------------------------------------------------------------------
  // The object

  class Flarm {
    var collectPflaa: bool
    var flarmStatus: FlarmStatus
    var pflaaHash: map<string, FlarmAcft>

    /** The static members start out not collecting, with an invalid status and an empty table. */
    constructor ()
      ensures !collectPflaa && flarmStatus == InitialStatus && pflaaHash == map[]
    {
      collectPflaa := false;
      flarmStatus := InitialStatus;
      pflaaHash := map[];
    }

    method ExtractPflau(fields: seq<string>) returns (ok: bool)
      requires fields != []
      modifies this
      ensures (flarmStatus, ok) == PflauSpec(old(flarmStatus), fields)
      ensures collectPflaa == old(collectPflaa) && pflaaHash == old(pflaaHash)
    {
      flarmStatus := flarmStatus.(valid := false);
      if fields[0] != "$PFLAU" || |fields| < 11 {
        return false;
      }
      var rx := ShortField(fields[1], 0);
      flarmStatus := flarmStatus.(rx := rx);
      var tx := ShortField(fields[2], 0);
      flarmStatus := flarmStatus.(tx := tx);
      var gps := ShortField(fields[3], NoFix);
      flarmStatus := flarmStatus.(gps := gps);
      var power := ShortField(fields[4], 0);
      flarmStatus := flarmStatus.(power := power);
      var alarm := ShortField(fields[5], No);
      flarmStatus := flarmStatus.(alarm := alarm);
      flarmStatus := flarmStatus.(relativeBearing := fields[6]);
      var alarmType := ShortField(fields[7], 0);
      flarmStatus := flarmStatus.(alarmType := alarmType);
      flarmStatus := flarmStatus.(relativeVertical := fields[8]);
      flarmStatus := flarmStatus.(relativeDistance := fields[9]);
      flarmStatus := flarmStatus.(id := fields[10]);
      flarmStatus := flarmStatus.(valid := true);
      return true;
    }

    method ExtractPflaa(fields: seq<string>, now: int, keyOf: (int, string) -> string, aircraft: FlarmAcft)
      returns (ok: bool, acft: FlarmAcft)
      requires fields != []
      modifies this
      ensures (ok, acft, pflaaHash) == PflaaSpec(old(pflaaHash), collectPflaa, fields, now, keyOf, aircraft)
      ensures collectPflaa == old(collectPflaa) && flarmStatus == old(flarmStatus)
    {
      acft := aircraft;
      if fields[0] != "$PFLAA" || |fields| < 12 {
        return false, acft;
      }
      acft := acft.(timeStamp := now);
      var alarm := IntField(fields[1], No);
      acft := acft.(alarm := alarm);
      var relativeNorth := IntField(fields[2], IntMin);
      acft := acft.(relativeNorth := relativeNorth);
      var relativeEast := IntField(fields[3], IntMin);
      acft := acft.(relativeEast := relativeEast);
      var relativeVertical := IntField(fields[4], IntMin);
      acft := acft.(relativeVertical := relativeVertical);
      var idType := IntField(fields[5], 0);
      acft := acft.(idType := idType);
      acft := acft.(id := fields[6]);
      var track := IntField(fields[7], IntMin);
      acft := acft.(track := track);
      var turnRate := RealField(fields[8], IntMin as real);
      acft := acft.(turnRate := turnRate);
      var groundSpeed := RealField(fields[9], IntMin as real);
      acft := acft.(groundSpeed := groundSpeed);
      var climbRate := RealField(fields[10], IntMin as real);
      acft := acft.(climbRate := climbRate);
      var acftType := ShortField(fields[11], 0);
      acft := acft.(acftType := acftType);
      if collectPflaa {
        var key := keyOf(acft.idType, acft.id);
        if key in pflaaHash {
          pflaaHash := pflaaHash[key := acft];
        } else {
          pflaaHash := pflaaHash[key := acft];
        }
      }
      return true, acft;
    }

    method GetFlarmRelativeBearing(previous: int) returns (ok: bool, relativeBearing: int)
      ensures (ok, relativeBearing) == RelativeAsWritten(flarmStatus.valid, flarmStatus.relativeBearing, previous)
    {
      ok, relativeBearing := GetRelative(flarmStatus.valid, flarmStatus.relativeBearing, previous);
    }

    method GetFlarmRelativeVertical(previous: int) returns (ok: bool, relativeVertical: int)
      ensures (ok, relativeVertical) == RelativeAsWritten(flarmStatus.valid, flarmStatus.relativeVertical, previous)
    {
      ok, relativeVertical := GetRelative(flarmStatus.valid, flarmStatus.relativeVertical, previous);
    }

    method GetFlarmRelativeDistance(previous: int) returns (ok: bool, relativeDistance: int)
      ensures (ok, relativeDistance) == RelativeAsWritten(flarmStatus.valid, flarmStatus.relativeDistance, previous)
    {
      ok, relativeDistance := GetRelative(flarmStatus.valid, flarmStatus.relativeDistance, previous);
    }
  }

  /** A short field: the default, replaced by the field's value when it reads (extractPflau). */
  method ShortField(field: string, default: int) returns (v: int)
    ensures v == ShortOr(field, default)
  {
    v := default;
    var value := ToShort(field);
    if value.Some? {
      v := value.value;
    }
  }

  /** An int field: QString::toInt's result, replaced by the default when it does not read (extractPflaa). */
  method IntField(field: string, default: int) returns (v: int)
    ensures v == IntOr(field, default)
  {
    var n := ToInt(field);
    v := if n.Some? then n.value else 0;
    if n.None? {
      v := default;
    }
  }

  /** A double field, the same way as an int field. */
  method RealField(field: string, default: real) returns (v: real)
    ensures v == RealOr(field, default)
  {
    var x := ParseReal(field);
    v := if x.Some? then x.value else 0.0;
    if x.None? {
      v := default;
    }
  }

  /**
   * The body the three getters share: the status test `!valid &&
   * text.isEmpty()`, then QString::toInt, whose result is stored whether or
   * not it read.
   */
  method GetRelative(valid: bool, text: string, previous: int) returns (ok: bool, value: int)
    ensures (ok, value) == RelativeAsWritten(valid, text, previous)
  {
    if !valid && text == [] {
      return false, previous;
    }
    var v := ToInt(text);
    value := if v.Some? then v.value else 0;
    ok := v.Some?;
  }
}
