/**
 * The integer helpers of the map calculations: angle normalisation and
 * difference in whole degrees, the bounding box of a map tile and the
 * rendering of a duration as `h:mm[:ss]`.
 *
 * Coordinates are in the map's internal unit of 1/600000 degree.
 */
module MapCalc {
  import opened Text

  /** C's `/` on int: the quotient truncated toward zero. */
  function CDiv(a: int, b: int): int
    requires b > 0
  {
    if a >= 0 then a / b else -((-a) / b)
  }

  /** C's `%` on int: the remainder carries the sign of the dividend. */
  function CMod(a: int, b: int): (r: int)
    requires b > 0
    ensures a >= 0 ==> 0 <= r < b
    ensures a < 0 ==> -b < r <= 0
    ensures a == CDiv(a, b) * b + r
  {
    var q := CDiv(a, b);
    var n := if a >= 0 then a else -a;
    assert n == (n / b) * b + n % b && 0 <= n % b < b;
    assert a - q * b == if a >= 0 then n % b else -(n % b);
    a - q * b
  }

  function NormalizeRank(angle: int): nat
  {
    if angle >= 0 then 0 else if angle >= -360 then 1 else 2
  }

  /** normalize(int): the direction `angle` as a bearing in [0, 360). */
  function Normalize(angle: int): (r: int)
    ensures 0 <= r < 360
    ensures (r - angle) % 360 == 0
    decreases NormalizeRank(angle)
  {
    if angle >= 360 then CMod(angle, 360)
    else if angle < -360 then Normalize(CMod(angle, 360))
    else if angle < 0 then Normalize(angle + 360)
    else angle
  }

  /** Normalize agrees with the Euclidean remainder, so it leaves [0, 360) alone. */
  lemma NormalizeIsEuclideanRemainder(angle: int)
    ensures Normalize(angle) == angle % 360
    ensures 0 <= angle < 360 ==> Normalize(angle) == angle
  {
    var r := Normalize(angle);
    var k := (r - angle) / 360;
    assert r - angle == 360 * k;
    assert angle == 360 * (-k) + r;
  }

  lemma MulMod360(m: int)
    ensures (360 * m) % 360 == 0
  {
  }

  /** Multiples of 360 are closed under sum and difference. */
  lemma Sum360(x: int, y: int)
    requires x % 360 == 0 && y % 360 == 0
    ensures (x + y) % 360 == 0 && (x - y) % 360 == 0
  {
    var k1, k2 := x / 360, y / 360;
    assert x == 360 * k1;
    assert y == 360 * k2;
    MulMod360(k1 + k2);
    MulMod360(k1 - k2);
    assert x + y == 360 * (k1 + k2);
    assert x - y == 360 * (k1 - k2);
  }

  /** angleDiff(int, int): the turn from `ang1` to `ang2`, in [-180, 180]. */
  function AngleDiff(ang1: int, ang2: int): (r: int)
    ensures -180 <= r <= 180
    ensures (r - (ang2 - ang1)) % 360 == 0
  {
    var a1 := Normalize(ang1);
    var a2 := Normalize(ang2);
    var a := a2 - a1;
    Sum360(a2 - ang2, a1 - ang1);
    assert a - (ang2 - ang1) == (a2 - ang2) - (a1 - ang1);
    MulMod360(1);
    Sum360(a - (ang2 - ang1), 360);
    if a > 180 then a - 360
    else if a < -180 then a + 360
    else a
  }

  /** Turning from `ang2` back to `ang1` is the opposite turn, half turns included. */
  lemma AngleDiffAntisymmetric(ang1: int, ang2: int)
    ensures AngleDiff(ang2, ang1) == -AngleDiff(ang1, ang2)
  {
  }

  /** A QRect: the null rectangle or an origin with a width and a height. */
  datatype Rect = NullRect | Rect(x: int, y: int, width: int, height: int)

  type UShort = x: int | 0 <= x < 0x1_0000

  const TileCount := 180 * 90

  /**
   * getTileBox: the 2 x 2 degree box of tile `tileNo`. Tiles are numbered
   * row by row from the north, 180 to a row; x is longitude, y latitude,
   * and the box grows east and south of its corner.
   */
  function GetTileBox(tileNo: UShort): (r: Rect)
    ensures tileNo > TileCount <==> r.NullRect?
    ensures r.Rect? ==> r.width == 2 * 600000 && r.height == -2 * 600000
    ensures r.Rect? ==> -180 * 600000 <= r.x <= 178 * 600000 && r.x % 1200000 == 0
    ensures r.Rect? ==> r.y == (90 - (tileNo / 180) * 2) * 600000
  {
    if tileNo > TileCount then NullRect
    else
      var lat := 90 - (tileNo / 180) * 2;
      var lon := (tileNo % 180) * 2 - 180;
      Rect(lon * 600000, lat * 600000, 2 * 600000, -2 * 600000)
  }

  /** The box of tile 16200 lies south of the south pole: the guard lets one tile too many through. */
  lemma TileBoxPastSouthPole()
    ensures GetTileBox(TileCount) == Rect(-180 * 600000, -90 * 600000, 1200000, -1200000)
    ensures GetTileBox(TileCount).y + GetTileBox(TileCount).height < -90 * 600000
  {
  }

  /** getTileBox with the range check the tile numbering calls for: 16200 tiles, 0 to 16199. */
  function GetTileBoxChecked(tileNo: UShort): (r: Rect)
    ensures tileNo >= TileCount <==> r.NullRect?
    ensures r.Rect? ==> r == GetTileBox(tileNo)
  {
    if tileNo >= TileCount then NullRect else GetTileBox(tileNo)
  }

  /** Every box of a valid tile lies on the globe. */
  lemma TileBoxOnGlobe(tileNo: UShort)
    requires GetTileBoxChecked(tileNo).Rect?
    ensures var r := GetTileBoxChecked(tileNo);
      -180 * 600000 <= r.x && r.x + r.width <= 180 * 600000
      && r.y <= 90 * 600000 && -90 * 600000 <= r.y + r.height
  {
    var row := tileNo / 180;
    assert row <= 89;
  }

  /** Distinct valid tiles have distinct boxes. */
  lemma TileBoxInjective(t1: UShort, t2: UShort)
    requires t1 < TileCount && t2 < TileCount
    requires GetTileBoxChecked(t1) == GetTileBoxChecked(t2)
    ensures t1 == t2
  {
    var b1, b2 := GetTileBox(t1), GetTileBox(t2);
    assert (t1 % 180) * 2 - 180 == (t2 % 180) * 2 - 180 by {
      assert b1.x == ((t1 % 180) * 2 - 180) * 600000;
      assert b2.x == ((t2 % 180) * 2 - 180) * 600000;
    }
    assert t1 / 180 == t2 / 180 by {
      assert b1.y == (90 - (t1 / 180) * 2) * 600000;
      assert b2.y == (90 - (t2 / 180) * 2) * 600000;
    }
    assert t1 == (t1 / 180) * 180 + t1 % 180;
    assert t2 == (t2 / 180) * 180 + t2 % 180;
  }

  /** The hours, minutes and seconds printTime computes with C's truncating division. */
  function TimeParts(time: int): (p: (int, int, int))
    ensures p.0 * 3600 + p.1 * 60 + p.2 == time
    ensures time >= 0 ==> p.0 >= 0 && 0 <= p.1 < 60 && 0 <= p.2 < 60 && p.2 == time % 60
    ensures time < 0 ==> p.0 <= 0 && -60 < p.1 <= 0 && -60 < p.2 <= 0
  {
    var hh := CDiv(time, 3600);
    var mm := CDiv(time - hh * 3600, 60);
    var ss := time - hh * 3600 - mm * 60;
    assert time - hh * 3600 == CMod(time, 3600);
    assert ss == CMod(time - hh * 3600, 60);
    assert time == 60 * (hh * 60 + mm) + ss;
    (hh, mm, ss)
  }

  /**
   * printTime: `h:mm` or `h:mm:ss`. The hour is printed as it is (the `%0d`
   * that `isZero` selects pads to no width, so both branches agree), minutes
   * and seconds with two digits.
   */
  function PrintTime(time: int, isZero: bool, isSecond: bool): (r: string)
    ensures |r| >= (if isSecond then 7 else 4)
  {
    var p := TimeParts(time);
    var hour := IntToString(p.0);
    if isSecond then hour + ":" + Pad2(p.1) + ":" + Pad2(p.2)
    else hour + ":" + Pad2(p.1)
  }

  /** A clock text splits at its colons into its fields. */
  lemma SplitClock(h: string, m: string, sec: string)
    requires ':' !in h && ':' !in m && ':' !in sec
    ensures Split(h + ":" + m, {':'}) == [h, m]
    ensures Split(h + ":" + m + ":" + sec, {':'}) == [h, m, sec]
  {
    SplitNoSeparator(m, {':'});
    SplitNoSeparator(sec, {':'});
    SplitAtSeparator(h, ':', m, {':'});
    assert h + ":" + m == h + [':'] + m;
    SplitAtSeparator(m, ':', sec, {':'});
    SplitAtSeparator(h, ':', m + [':'] + sec, {':'});
    assert h + ":" + m + ":" + sec == h + [':'] + (m + [':'] + sec);
  }

  /**
   * Reading back what printTime printed: the text splits at ':' into the
   * hour, two-digit minutes and (with `isSecond`) two-digit seconds, which
   * together give `time`, or `time` down to the whole minute.
   */
  lemma PrintTimeRoundTrip(time: int, isZero: bool, isSecond: bool)
    requires time >= 0
    ensures var parts := Split(PrintTime(time, isZero, isSecond), {':'});
      |parts| == (if isSecond then 3 else 2)
      && |parts[1]| == 2 && (isSecond ==> |parts[2]| == 2)
      && ParseInteger(parts[0], 10).Some? && ParseInteger(parts[1], 10).Some?
      && (isSecond ==> ParseInteger(parts[2], 10).Some?)
      && ParseInteger(parts[0], 10).value * 3600 + ParseInteger(parts[1], 10).value * 60
         + (if isSecond then ParseInteger(parts[2], 10).value else 0)
         == (if isSecond then time else time - time % 60)
  {
    var p := TimeParts(time);
    var hour := IntToString(p.0);
    NatToStringDigits(p.0);
    IntToStringRoundTrip(p.0);
    Pad2RoundTrip(p.1);
    Pad2RoundTrip(p.2);
    assert ':' !in hour;
    SplitClock(hour, Pad2(p.1), Pad2(p.2));
    var parts := Split(PrintTime(time, isZero, isSecond), {':'});
    if isSecond {
      assert parts == [hour, Pad2(p.1), Pad2(p.2)];
    } else {
      assert parts == [hour, Pad2(p.1)];
    }
  }
}
