# Cumulus GPS data path, airspace parser and FLARM reader in Dafny

This project models the core of Cumulus, a flight computer for glider
pilots, and proves properties of that model. It covers:

- **GpsNmea** (`gpsnmea.dfy`, `gpsnmea_props.dfy`): the NMEA 0183 decoder.
  - It accepts a line only when the line starts with `$`, holds a `*`, and its last two characters read as the XOR checksum of the text between `$` and the first `*`.
  - It splits the line into fields and dispatches on the first one: RMC, GLL, GGA, GSA, GSV, DTM and Garmin's PGRMZ.
  - It stores time, date, speed, position, heading, altitudes and satellite data, and emits a change signal only when a stored value changes.
  - It keeps the link/fix state machine `notConnected → noFix → validFix` and its two timeouts.
- **GpsCon** (`gpscon.dfy`, `gpscon_props.dfy`): the Cumulus side of the GPS client protocol.
  - Messages are length-prefixed frames on two socket channels.
  - `queryClient` polls at most 250 times.
  - It covers the order in which the two channels are accepted, the version handshake, and OPEN/NOTIFY.
  - It covers the supervisor decisions: keep or restart the client process, and the executable search over the configured path and `PATH`.
- **Sentence** (`sentence.dfy`): the NMEA simulator's encoder. It frames a sentence with `$`…`*` and appends the hexadecimal checksum and CR LF. `nmea_roundtrip.dfy` proves that what the encoder frames passes the decoder's checks.
- **OpenAirParser** (`openair.dfy`, `openair_props.dfy`, `openair_coords.dfy`, `openair_state.dfy`): the OpenAir airspace text parser.
  - The line loop and the records `AC AN AH AL DP V`.
  - The per-airspace parser state and its invariant.
  - The altitude and `D:M:S` coordinate scanners.
  - The `V` variables.
  - The two-level class-name mapping and its `key=value` override file.
- **Flarm** (`flarm.dfy`, `flarm_props.dfy`): reading `$PFLAU` and `$PFLAA` field by field, with sentinels for fields that do not read, and the aircraft table keyed by aircraft.
- **MapCalc** (`mapcalc.dfy`): the integer helpers `normalize(int)`, `angleDiff(int)`, `getTileBox` and `printTime`.
- **AirspaceHelper** (`airspace_helper.dfy`): the set of loaded airspace identifiers and the lazily loaded map from type names to types.

Supporting modules:

- `text.dfy` models the parts of Qt's `QString` the core relies on: `toInt`, `toShort`, `toDouble`, `simplified`, `split`, `left`/`mid`/`right` and number formatting.
- `bits.dfy` holds bytes and exclusive or.
- `basemap.dfy` holds the enumerations of the map elements.

Code that changes state step by step is modelled the same way: a `class` whose methods update its fields. Each such class has a ghost snapshot `State()`. Every method is proved to produce `Spec(old(State()), …)`, where `Spec` is a function. The properties are lemmas about those functions. Signals a class emits are appended to a field `events`. Code that only computes a value becomes functions, with `method`s where the source loops.

Where the specification text and the code disagree, the model follows the code. The cases:

- A GSV sentence out of sequence leaves the series counter where it is. It is not reset.
- `checkCheckSum` reads the checksum from the last two characters of the line, not from the characters after the `*`.
- `parseCoordinatePart` moves to the next factor only on `:` or `.`.
- The executable search runs only when `PATH` is set.

The model also follows the code where the code looks wrong. `parseAltitude`'s digit loop and the `getFlarmRelative*` status test are modelled as written. Their corrected forms are stated beside them, under "## Findings". There is one exception. The model's sentence dispatch demands eight fields for `$GPGSV`, where the code checks none and would read past the end of the field list (see "## Left out").

## Model

| member | source | states |
|---|---|---|
| MapCalc.Normalize | cumulus/mapcalc.cpp:332-344 | normalize(int) by its own recursion: the result lies in [0,360) and is congruent to the input mod 360 |
| MapCalc.NormalizeIsEuclideanRemainder | cumulus/mapcalc.cpp:332-344 | normalize(int) equals the Euclidean remainder mod 360, so it is the identity on [0,360) |
| MapCalc.CMod | cumulus/mapcalc.cpp:346-357 | C's `%`: the remainder has the sign of the dividend and is smaller than the divisor in absolute value; dividend = truncated quotient * divisor + remainder |
| MapCalc.AngleDiff | cumulus/mapcalc.cpp:346-357 | angleDiff(int) with C's truncating `%`: the result lies in [-180,180] and is congruent to ang2 - ang1 mod 360 |
| MapCalc.AngleDiffAntisymmetric | cumulus/mapcalc.cpp:346-357 | swapping the angles negates the difference, half turns included |
| MapCalc.GetTileBox | cumulus/mapcalc.cpp:393-423 | as written: a null rect exactly when tileNo > 16200; otherwise a 2x2-degree box whose corner longitude lies in [-180,178] on a 2-degree grid and whose latitude is 90 - 2*(tileNo/180) |
| MapCalc.TileBoxPastSouthPole | cumulus/mapcalc.cpp:395 | tile 16200 passes the guard, and its box lies south of -90 degrees |
| MapCalc.GetTileBoxChecked | cumulus/mapcalc.cpp:393-423 | with the range check `>= 16200`: null exactly for out-of-range tiles, otherwise the box getTileBox computes |
| MapCalc.TileBoxOnGlobe | cumulus/mapcalc.cpp:402-410 | every box of a valid tile lies within longitudes ±180 and latitudes ±90 |
| MapCalc.TileBoxInjective | cumulus/mapcalc.cpp:402-410 | distinct valid tiles have distinct boxes |
| MapCalc.TimeParts | cumulus/mapcalc.cpp:133-135 | hh*3600 + mm*60 + ss == time; for time >= 0, mm and ss lie in [0,60); for negative time all parts are <= 0 (truncating division) |
| MapCalc.PrintTime | cumulus/mapcalc.cpp:129-151 | the text is at least `h:mm` long (`h:mm:ss` with isSecond) |
| MapCalc.PrintTimeRoundTrip | cumulus/mapcalc.cpp:137-149 | for time >= 0 the text splits at `:` into the hour, two-digit minutes and, only with isSecond, two-digit seconds; these read back as time (or as time down to the minute) |
| AirspaceHelper.LoadedTypeMap | cumulus/AirspaceHelper.h:141-166 | a lookup loads the mapping only when the map is empty; a non-empty map is kept |
| AirspaceHelper.TypeOrUnknown | cumulus/AirspaceHelper.h:165 | QMap::value(type, AirUkn): the entry for a known name, AirUkn for any other |
| AirspaceHelper.TypeLookupsAgree | cumulus/AirspaceHelper.h:141-166 | the two lookups agree: a name in the loaded map maps to its entry, and a name mapping to something other than AirUkn is in the map |
| AirspaceHelper.AirspaceHelper.constructor | cumulus/AirspaceHelper.h:141-206 | empty identifier set and empty type map; the mapping file's map is given |
| AirspaceHelper.AirspaceHelper.IsAirspaceBaseTypeKnown | cumulus/AirspaceHelper.h:141-149 | loads the map when empty; true exactly when the name is in the map |
| AirspaceHelper.AirspaceHelper.MapAirspaceBaseType | cumulus/AirspaceHelper.h:158-166 | loads the map when empty; the name's entry, or AirUkn when absent |
| AirspaceHelper.AirspaceHelper.IsAirspaceKnown | cumulus/AirspaceHelper.h:175-178 | true exactly when the identifier has been added |
| AirspaceHelper.AirspaceHelper.AddAirspaceIdentifier | cumulus/AirspaceHelper.h:187-196 | false with the set unchanged for a known id; otherwise inserts the id and returns true; afterwards the id is known |
| Sentence.CalcCheckSum | nmeaSimulator/sentence.cpp:65-75 | the loop computes the XOR of the sign-extended character codes at indexes 1 to pos-1; the sum fits a uint |
| Sentence.XorUpToLowByte | nmeaSimulator/sentence.cpp:65-75 | the low byte of that sum is the XOR of the bytes, the NMEA 0183 checksum |
| Sentence.XorUpToBelow | nmeaSimulator/sentence.cpp:65-75 | the XOR of the 32-bit character codes always fits the `uint` it is kept in |
| Sentence.XorUpToAscii | nmeaSimulator/sentence.cpp:65-75 | over characters below 128 the sum is exactly the byte XOR |
| Sentence.FrameSentence | nmeaSimulator/sentence.cpp:42-52 | `$` is put in front only if missing, `*` at the end only if missing |
| Sentence.FramedShape | nmeaSimulator/sentence.cpp:42-52 | whatever the sentence, the framed text is `$`, a body, `*` |
| Sentence.FramedChars | nmeaSimulator/sentence.cpp:42-52 | between its `$` and `*` the framed text holds only characters of the sentence |
| Sentence.Send | nmeaSimulator/sentence.cpp:38-63 | the line send() assembles, as written (QString::arg chain included) |
| Sentence.SendShape | nmeaSimulator/sentence.cpp:54-57 | for a sentence without `%`: the framed text, the checksum field in hexadecimal, CR LF |
| Sentence.HexFieldFacts | nmeaSimulator/sentence.cpp:56 | the checksum field is upper-case hex digits, at least two, exactly two when the sum is below 256; it reads back as the sum, and its last two digits as the sum's low byte |
| Sentence.HexFieldLowByte | nmeaSimulator/sentence.cpp:56 | the last two hex digits read back as the low byte of the sum |
| Sentence.HexFieldWidth | nmeaSimulator/sentence.cpp:56 | at least two digits, exactly two iff the sum is below 256 |
| Sentence.EscapeAt | nmeaSimulator/sentence.cpp:57 | QString::arg's escapes: `%n`, `%nn` or `%L…`, numbered below 100; text not starting with `%` has none |
| Sentence.ArgOnPlainText | nmeaSimulator/sentence.cpp:57 | arg leaves a string without `%` unchanged |
| Sentence.ArgTemplate | nmeaSimulator/sentence.cpp:57 | the first arg on "%1%2\r\n" fills "%1" and leaves "%2" |
| Sentence.ArgChecksum | nmeaSimulator/sentence.cpp:57 | the second arg fills "%2" with the checksum when the framed text holds no `%` |
| Sentence.PadLeft | nmeaSimulator/sentence.cpp:56 | padding to a field width: the text right-aligned, fill characters on the left |
| Sentence.PaddedHex | nmeaSimulator/sentence.cpp:56 | n in base 16 zero-padded to two digits denotes n, and has exactly two digits iff n < 256 |
| Sentence.FrameLayout | nmeaSimulator/sentence.cpp:38-75 | the line as NMEA 0183 frames it: `$`, body, `*`, two upper-case hex digits reading back as the XOR of the body's bytes, CR LF |
| Sentence.SendIsFrameOnAscii | nmeaSimulator/sentence.cpp:38-75 | on ASCII sentences without `%`, send() writes exactly the NMEA 0183 line |
| Sentence.ChecksumLowDigits | nmeaSimulator/sentence.cpp:56 | however long the field send() writes, its last two digits read back as the byte checksum |
| Sentence.SignExtendedChecksum | nmeaSimulator/sentence.cpp:70 | a Latin-1 character from 128 up gets a checksum field of more than two digits, where the NMEA 0183 line has the two digits of the byte |
| Sentence.ChainedArgReplacesPayload | nmeaSimulator/sentence.cpp:57 | a sentence ending in "%1" gets the checksum in place of that escape, and "%2" stays on the line |
| Sentence.ArgOnPayloadEscape | nmeaSimulator/sentence.cpp:57 | the second arg on a text still holding "%1" puts the checksum there, and "%2" stays |
| GpsNmea.UpToStar | cumulus/gpsnmea.cpp:1160-1178 | the text before the first `*`: a prefix holding no `*`, ended by a `*` or by the end of the text |
| GpsNmea.CalcCheckSum | cumulus/gpsnmea.cpp:1160-1178 | the loop computes the XOR of the bytes from index 1 to before pos, skipping `$` and stopping at the first `*` |
| GpsNmea.CheckCheckSum | cumulus/gpsnmea.cpp:1182-1186 | true exactly when the last two characters, read as a hex unsigned short cut to a byte, equal the computed checksum |
| GpsNmea.DecodeTime | cumulus/gpsnmea.cpp:546-579 | a decoded time is a valid QTime |
| GpsNmea.DecodeDate | cumulus/gpsnmea.cpp:584-607 | a decoded date is a valid QDate |
| GpsNmea.RoundHalfEven | cumulus/gpsnmea.cpp:668 | rint: within 0.5 of its argument, and even on ties |
| GpsNmea.ConstellationText | cumulus/gpsnmea.cpp:849-877 | the GSA loop builds the two-digit numbers of the non-empty fields 3 to 14 |
| GpsNmea.GsvReads | cumulus/gpsnmea.cpp:1288-1316 | the fields the GSV branch reads, as written, all lie between 1 and 19 |
| GpsNmea.Fields | cumulus/gpsnmea.cpp:252 | splitting on `, * :` keeping empty parts gives at least one field |
| GpsNmea.GsvSentenceSteps | cumulus/gpsnmea.cpp:1288-1316 | the GSV handler is the two steps the code takes: append the satellites, then advance the counter |
| GpsNmea.GpsNmea.constructor | cumulus/gpsnmea.cpp:54-103 | not connected, no time, the map centre as position, fix timer started, altitudes zero, GSV counter 1, no events |
| GpsNmea.GpsNmea.DataOK | cumulus/gpsnmea.cpp:967-977 | the state DataOk gives: notConnected moves to noFix, with status and connection signals |
| GpsNmea.GpsNmea.FixOK | cumulus/gpsnmea.cpp:980-992 | the state FixOk gives: fix timer restarted, status validFix |
| GpsNmea.GpsNmea.ExtractTime | cumulus/gpsnmea.cpp:546-579 | the state ExtractTimeSpec gives |
| GpsNmea.GpsNmea.ExtractDate | cumulus/gpsnmea.cpp:584-607 | the state ExtractDateSpec gives |
| GpsNmea.GpsNmea.ExtractKnotSpeed | cumulus/gpsnmea.cpp:611-622 | the state ExtractKnotSpeedSpec gives |
| GpsNmea.GpsNmea.ExtractCoord | cumulus/gpsnmea.cpp:626-675 | the state ExtractCoordSpec gives |
| GpsNmea.GpsNmea.ExtractHeading | cumulus/gpsnmea.cpp:742-752 | the state ExtractHeadingSpec gives |
| GpsNmea.GpsNmea.ExtractGgaAltitude | cumulus/gpsnmea.cpp:756-824 | the state ExtractGgaAltitudeSpec gives |
| GpsNmea.GpsNmea.ExtractPgrmzAltitude | cumulus/gpsnmea.cpp:828-846 | the state ExtractPgrmzAltitudeSpec gives |
| GpsNmea.GpsNmea.ExtractConstellation | cumulus/gpsnmea.cpp:849-877 | the state ExtractConstellationSpec gives |
| GpsNmea.GpsNmea.ExtractSatcount | cumulus/gpsnmea.cpp:881-889 | the state ExtractSatcountSpec gives |
| GpsNmea.GpsNmea.ExtractSat | cumulus/gpsnmea.cpp:1319-1341 | the satellite is appended to the series unless its id is empty; a missing SNR is -1 |
| GpsNmea.GpsNmea.ExtractSats | cumulus/gpsnmea.cpp:1297-1304 | the groups of four fields that are there are appended in order |
| GpsNmea.GpsNmea.ExtractSatsInView | cumulus/gpsnmea.cpp:1288-1316 | the state ExtractSatsInViewSpec gives |
| GpsNmea.GpsNmea.NextSivSentence | cumulus/gpsnmea.cpp:1306-1313 | the counter moves on; past the series' total the list is published with a signal and the counter returns to 1 |
| GpsNmea.GpsNmea.SetSystemClock | cumulus/gpsnmea.cpp:1212-1284 | the state SetSystemClockSpec gives |
| GpsNmea.GpsNmea.SlotSentence | cumulus/gpsnmea.cpp:207-540 | the state Step gives for one line |
| GpsNmea.GpsNmea.DispatchSentence | cumulus/gpsnmea.cpp:282-540 | the state Dispatch gives |
| GpsNmea.GpsNmea.HandleRmc | cumulus/gpsnmea.cpp:282-316 | the state RmcSpec gives |
| GpsNmea.GpsNmea.UpdateClock | cumulus/gpsnmea.cpp:301-310 | the state ClockUpdateSpec gives |
| GpsNmea.GpsNmea.HandleGll | cumulus/gpsnmea.cpp:334-350 | the state GllSpec gives |
| GpsNmea.GpsNmea.HandleGga | cumulus/gpsnmea.cpp:384-409 | the state GgaSpec gives |
| GpsNmea.GpsNmea.SlotTimeout | cumulus/gpsnmea.cpp:900-932 | the state ConnectionTimeoutSpec gives |
| GpsNmea.GpsNmea.SlotTimeoutFix | cumulus/gpsnmea.cpp:936-963 | the state FixTimeoutSpec gives |
| GpsNmea.GpsNmea.ResetFixValues | cumulus/gpsnmea.cpp:900-963 | the state ResetFixData gives |
| GpsNmeaProperties.MalformedLineRejected | cumulus/gpsnmea.cpp:222-238 | a line not starting with `$`, or holding no `*`, leaves the state unchanged |
| GpsNmeaProperties.XorSumAppend | cumulus/gpsnmea.cpp:1160-1178 | the checksum of a concatenation is the XOR of the parts' checksums |
| GpsNmeaProperties.XorSumUpdate | cumulus/gpsnmea.cpp:1160-1178 | replacing one character changes the checksum by the old and new bytes |
| GpsNmeaProperties.ChecksumSpan | cumulus/gpsnmea.cpp:1160-1178 | the checksum covers exactly the text from after `$` to before the first `*` |
| GpsNmeaProperties.LastStarKept | cumulus/gpsnmea.cpp:232-238 | changing a character other than `*` into another one keeps the position of the last `*` |
| GpsNmeaProperties.XorChangeDetected | cumulus/gpsnmea.cpp:1160-1178 | replacing one byte of the sum by a different one always changes the sum |
| GpsNmeaProperties.ChecksumChanged | cumulus/gpsnmea.cpp:1160-1178 | replacing one Latin-1 character of the covered text by another always changes the checksum |
| GpsNmeaProperties.CheckValueKept | cumulus/gpsnmea.cpp:1182-1186 | the transmitted value depends only on the last two characters |
| GpsNmeaProperties.CorruptedLineRejected | cumulus/gpsnmea.cpp:241-245 | an accepted line with one payload character replaced is dropped with no state change |
| GpsNmeaProperties.ExtendsTrans | cumulus/gpsnmea.cpp:207-540 | "only appends events and keeps the link connected" is transitive |
| GpsNmeaProperties.LinkStepsExtend | cumulus/gpsnmea.cpp:980-992 | fixOK, the clock update and the GSA fix step only append events and keep the link |
| GpsNmeaProperties.FixStepsExtend | cumulus/gpsnmea.cpp:546-675 | the time, date and position handlers only append events and keep the link |
| GpsNmeaProperties.MotionStepsExtend | cumulus/gpsnmea.cpp:611-889 | the speed, heading, satellite-count and constellation handlers only append events and keep the link |
| GpsNmeaProperties.AltitudeStepExtends | cumulus/gpsnmea.cpp:756-824 | the GGA altitude handler only appends events and keeps the link |
| GpsNmeaProperties.RmcExtends | cumulus/gpsnmea.cpp:282-316 | the RMC branch only appends events and keeps the link |
| GpsNmeaProperties.GgaExtends | cumulus/gpsnmea.cpp:384-409 | the GGA branch only appends events and keeps the link |
| GpsNmeaProperties.GllExtends | cumulus/gpsnmea.cpp:334-350 | the GLL branch only appends events and keeps the link |
| GpsNmeaProperties.GsaExtends | cumulus/gpsnmea.cpp:456-468 | the GSA branch only appends events and keeps the link |
| GpsNmeaProperties.DispatchExtends | cumulus/gpsnmea.cpp:282-540 | every handler only appends events and never takes the link down |
| GpsNmeaProperties.ConnectedBeforeFix | cumulus/gpsnmea.cpp:967-992 | every accepted line leaves the link connected; from notConnected, noFix and "connected" are signalled before anything the sentence signals |
| GpsNmeaProperties.FixOkSetsValidFix | cumulus/gpsnmea.cpp:980-992 | fixOK sets validFix with the timer running and signals validFix only on a change |
| GpsNmeaProperties.ShortOrUnknownSentenceIgnored | cumulus/gpsnmea.cpp:282-540 | too-short sentences and unknown identifiers only mark the link (dataOK) |
| GpsNmeaProperties.NoFixSentenceIgnored | cumulus/gpsnmea.cpp:282-409 | RMC status V, GLL status other than A and GGA quality 0 change nothing |
| GpsNmeaProperties.DecodeAngleAccuracy | cumulus/gpsnmea.cpp:626-675 | a decoded coordinate is within 5 units of deg*600000 + min*10000, signed by the hemisphere |
| GpsNmeaProperties.DecodeAngleHemispheres | cumulus/gpsnmea.cpp:626-675 | the two hemispheres give opposite values |
| GpsNmeaProperties.CoordReportedOnChange | cumulus/gpsnmea.cpp:626-675 | the decoded position is stored; newPosition is signalled exactly when it differs from the stored one; handling the same fields twice changes nothing |
| GpsNmeaProperties.TimeReportedOnChange | cumulus/gpsnmea.cpp:546-579 | an invalid time changes nothing; a valid one is stored, and newFix is signalled exactly when it changed |
| GpsNmeaProperties.MotionReportedOnChange | cumulus/gpsnmea.cpp:611-889 | speed, heading and satellite count are stored and signalled exactly when they change; the handlers are idempotent |
| GpsNmeaProperties.QnhCorrectionExact | cumulus/gpsnmea.cpp:800-810 | rint((1013-QNH)*8.6) == (86*(1013-QNH)+5) div 10; the product is never a tie |
| GpsNmeaProperties.StdAltitudeExact | cumulus/gpsnmea.cpp:800-810 | standard altitude = MSL + (86*(1013-QNH)+5) div 10 |
| GpsNmeaProperties.GgaAltitudeReconciled | cumulus/gpsnmea.cpp:780-821 | MSL mode: GNSS = alt + sep; HAE: MSL = alt - sep; USER: MSL = alt - correction; the standard altitude follows MSL, and a change is signalled |
| GpsNmeaProperties.EmptySeparationIsZero | cumulus/gpsnmea.cpp:399-403 | an empty GGA separation is read as 0 m |
| GpsNmeaProperties.GsvOutOfSequenceIgnored | cumulus/gpsnmea.cpp:1293-1294 | a GSV sentence whose number is not the expected one changes nothing, the counter included |
| GpsNmeaProperties.GsvReadsInRange | cumulus/gpsnmea.cpp:1288-1316 | with the eight fields the model's dispatch demands, every field the GSV branch reads exists |
| GpsNmeaProperties.GsvSatellitesAppend | cumulus/gpsnmea.cpp:1297-1304 | a sentence's satellites go after those already collected |
| GpsNmeaProperties.CounterStep | cumulus/gpsnmea.cpp:1306-1307 | below 2^32-1 the unsigned counter does not wrap, and the series ends exactly at number = total |
| GpsNmeaProperties.GsvInSequence | cumulus/gpsnmea.cpp:1293-1315 | an in-sequence sentence appends its satellites (to an empty list for number 1) and advances the counter; only number = total publishes, signals and resets the counter to 1 |
| GpsNmeaProperties.GsvSeriesPrefix | cumulus/gpsnmea.cpp:1293-1315 | after the first k sentences of a series the counter expects k+1 and nothing is published |
| GpsNmeaProperties.GsvCompleteSeries | cumulus/gpsnmea.cpp:1293-1315 | a complete series publishes exactly its satellites in order, signals once and leaves the counter at 1 |
| GpsNmeaProperties.FixTimeoutResets | cumulus/gpsnmea.cpp:936-963 | the fix timeout acts only in validFix: noFix, timer stopped, position/speed/heading/altitudes/satellites reset to sentinels; a second expiry changes nothing |
| GpsNmeaProperties.ConnectionTimeoutSkippedOnce | cumulus/gpsnmea.cpp:900-932 | with the ignore flag set the timeout only clears it; the next expiry takes a connected link down, signals notConnected and resets the fix data |
| GpsNmeaProperties.ConnectionTimeoutWhenDisconnected | cumulus/gpsnmea.cpp:900-932 | a lost link is not reported twice |
| GpsNmeaProperties.ClockSyncSkipsNextTimeout | cumulus/gpsnmea.cpp:1212-1284 | setting the clock (valid date, root) restarts the fix timer, signals, and makes the next connection timeout pass; otherwise nothing happens |
| GpsNmeaProperties.ClockUpdatedOnce | cumulus/gpsnmea.cpp:301-310 | the clock is set from at most one RMC sentence |
| GpsNmeaProperties.IntFieldPad2 | cumulus/gpsnmea.cpp:546-607 | a two-digit field reads back as its number |
| GpsNmeaProperties.DecodeTimeRoundTrip | cumulus/gpsnmea.cpp:546-579 | `hhmmss` plus any fraction decodes to the time written |
| GpsNmeaProperties.DecodeDateRoundTrip | cumulus/gpsnmea.cpp:584-607 | `ddmmyy` decodes to the date of this century written |
| GpsNmeaProperties.ConstellationPairs | cumulus/gpsnmea.cpp:849-877 | with satellite numbers below 100 the constellation text has two characters per satellite, each pair reading back as its number |
| NmeaRoundTrip.ByteSumIsXorSum | nmeaSimulator/sentence.cpp:65-75 | the encoder's sum over `$`body`*` equals the decoder's checksum over the body |
| NmeaRoundTrip.BodyLineAccepted | cumulus/gpsnmea.cpp:222-245 | `$`, a body, `*`, hex digits whose last two carry the body's XOR, and CR LF pass the decoder's checks |
| NmeaRoundTrip.CheckedLineAccepted | cumulus/gpsnmea.cpp:222-245 | a line whose text before CR LF passes the checksum check is accepted |
| NmeaRoundTrip.LineAccepted | cumulus/gpsnmea.cpp:222-245 | a line framed as send() frames it, whose last two hex digits read as the byte sum, is accepted |
| NmeaRoundTrip.FrameAccepted | nmeaSimulator/sentence.cpp:54-57 | the NMEA 0183 line of a body without `$ * CR LF` passes GpsNmea's checks |
| NmeaRoundTrip.SendAccepted | nmeaSimulator/sentence.cpp:38-63 | what send() writes for such a sentence without `%` passes the checks, however long its checksum field |
| NmeaRoundTrip.FrameFields | cumulus/gpsnmea.cpp:252 | the decoder's fields of a framed line are those of `$`body, then the checksum field |
| NmeaRoundTrip.ShortGsvReadsPastEnd | cumulus/gpsnmea.cpp:1288-1316 | "$GPGSV,1,1,00" with its checksum is accepted, has five fields, and the GSV branch as written reads field 7 |
| NmeaRoundTrip.ShortGsvIgnored | cumulus/gpsnmea.cpp:488-495 | the model's dispatch, with its eight-field check, passes that line by and only marks the link |
| NmeaRoundTrip.ShortGsvFields | cumulus/gpsnmea.cpp:252 | the framed short GSV line has five fields, the name and series number 1 among them |
| NmeaRoundTrip.FiveFieldsGsv | cumulus/gpsnmea.cpp:1288-1297 | with five fields and number 1, the branch as written reads field 7 |
| GpsCon.CBytes | cumulus/gpscon.cpp:762-777 | the bytes strlen counts: the Latin-1 bytes before the first NUL |
| GpsCon.FromCString | cumulus/gpscon.cpp:714-755 | QString(buf): the characters before the first NUL |
| GpsCon.EncodeFrame | cumulus/gpscon.cpp:762-777 | a frame is four length bytes and the C string |
| GpsCon.QueryEndStep | cumulus/gpscon.cpp:657-700 | a pass asking for more continues with one pass fewer; a lost channel or a NEG reply ends the loop |
| GpsCon.FileName | cumulus/gpscon.cpp:360-395 | QFileInfo::fileName holds no `/` |
| GpsCon.SearchPaths | cumulus/gpscon.cpp:360-373 | without PATH no directory is searched |
| GpsCon.FirstExecutable | cumulus/gpscon.cpp:373-386 | the first candidate that is executable, with no executable before it; none when no candidate is executable |
| GpsCon.GpsConnection.constructor | cumulus/gpscon.cpp:58-115 | both channels closed, pid -1, the client binary pathIn/gpsClient |
| GpsCon.GpsConnection.ReadClientMessage | cumulus/gpscon.cpp:714-755 | the reply and state Read0/Read1 give (see the lemmas below) |
| GpsCon.GpsConnection.WriteClientMessage | cumulus/gpscon.cpp:762-777 | the state Write0 gives |
| GpsCon.GpsConnection.QueryClient | cumulus/gpscon.cpp:645-707 | the state QuerySpec gives |
| GpsCon.GpsConnection.PollMessages | cumulus/gpscon.cpp:654-700 | the loop gives QueryEnd with 250 passes |
| GpsCon.GpsConnection.PollOnce | cumulus/gpscon.cpp:659-699 | one pass gives Round |
| GpsCon.GpsConnection.Exchange | cumulus/gpscon.cpp:714-777 | a request on channel 0 followed by reading its reply: the reply and state Ask gives |
| GpsCon.GpsConnection.OpenReceiver | cumulus/gpscon.cpp:210-235 | OPEN, then NOTIFY unless the answer is NEG: the state and result OpenSpec gives |
| GpsCon.GpsConnection.ForgetClient | cumulus/gpscon.cpp:336-354 | no pid, not dead, both client sockets closed, no notifier |
| GpsCon.GpsConnection.Launch | cumulus/gpscon.cpp:356-499 | the search and fork: the state and result LaunchSpec gives |
| GpsCon.GpsConnection.StartGpsReceiving | cumulus/gpscon.cpp:179-236 | the result and state StartReceivingSpec gives |
| GpsCon.GpsConnection.StopGpsReceiving | cumulus/gpscon.cpp:241-264 | the result and state StopReceivingSpec gives |
| GpsCon.GpsConnection.SendSentence | cumulus/gpscon.cpp:784-811 | the state SendSentenceSpec gives |
| GpsCon.GpsConnection.SlotListenEvent | cumulus/gpscon.cpp:543-605 | the state ListenSpec gives |
| GpsCon.GpsConnection.SlotNotificationEvent | cumulus/gpscon.cpp:611-639 | the state NotificationSpec gives |
| GpsCon.GpsConnection.StartClientProcess | cumulus/gpscon.cpp:271-499 | the result and state StartClientSpec gives |
| GpsCon.GpsConnection.SlotTimeout | cumulus/gpscon.cpp:506-535 | the state TimeoutSpec gives |
| GpsCon.GpsConnection.Destroy | cumulus/gpscon.cpp:118-173 | the state DestroySpec gives; the child counts as reaped iff one of ten waits reports it gone |
| GpsCon.SearchExecutable | cumulus/gpscon.cpp:373-386 | the search loop finds exactly FirstExecutable |
| GpsCon.WaitForChild | cumulus/gpscon.cpp:145-165 | true iff one of the ten waitpid calls reports the child gone |
| GpsConProperties.LengthRoundTrip | cumulus/gpscon.cpp:714-777 | the length header reads back as the length written |
| GpsConProperties.CStringRoundTrip | cumulus/gpscon.cpp:714-777 | Latin-1 text without NUL survives C-string conversion |
| GpsConProperties.ReadFrame | cumulus/gpscon.cpp:714-755 | a header holding the payload length, then the payload: the read returns the C string and consumes exactly both |
| GpsConProperties.MessageRoundTrip | cumulus/gpscon.cpp:714-777 | reading the frame writeClientMessage produces gives back the message and consumes that frame |
| GpsConProperties.ReadConsumesPrefix | cumulus/gpscon.cpp:714-755 | a read reports at most 256 characters and either closes the channel or consumes at least a header |
| GpsConProperties.OversizeFrameSkipped | cumulus/gpscon.cpp:729-735 | a header announcing more than 256 bytes gives "", consumes only the header and leaves the channel open |
| GpsConProperties.FailedReadCloses | cumulus/gpscon.cpp:714-755 | a header or payload that cannot be read in full (or an empty payload) gives "" and closes the channel |
| GpsConProperties.AskReply | cumulus/gpscon.cpp:714-777 | a request is logged and its reply frame consumed |
| GpsConProperties.ReplyBodyStripped | cumulus/gpscon.cpp:669-673 | an RM reply loses the key and the space |
| GpsConProperties.RoundFrame | cumulus/gpscon.cpp:659-699 | a pass sends one GET_MESSAGES, raises at most one event, changes only channel 0 and the events |
| GpsConProperties.RoundSent | cumulus/gpscon.cpp:659-668 | a pass writes the request on an open channel, nothing on a closed one |
| GpsConProperties.QueryFrame | cumulus/gpscon.cpp:654-700 | the loop changes only channel 0 and the events, and reports it lost exactly when closed |
| GpsConProperties.QueryRequests | cumulus/gpscon.cpp:654-700 | the loop with n passes sends between 1 and n requests on an open channel, none on a closed one |
| GpsConProperties.QueryRequestsMore | cumulus/gpscon.cpp:657-700 | a pass that asks for more adds its request to those of the passes after it: between 1 and n requests in all |
| GpsConProperties.QueryClientSends | cumulus/gpscon.cpp:645-707 | at most 250 GET_MESSAGES; if channel 0 survives, NOTIFY is sent and lastQuery restarts; if lost, neither |
| GpsConProperties.NegativeEndsQuery | cumulus/gpscon.cpp:693-698 | a NEG reply ends the loop after one request |
| GpsConProperties.ReplyRaisesEvent | cumulus/gpscon.cpp:669-691 | an RM reply raises gpsConnectionOff, gpsConnectionOn or newSentence for its body and asks again |
| GpsConProperties.AskExtends | cumulus/gpscon.cpp:762-777 | a request appends to channel 0's log only when open, and leaves channel 1 |
| GpsConProperties.StartReceivingExtends | cumulus/gpscon.cpp:179-236 | starting the receiver writes only on channel 0, after what was written |
| GpsConProperties.ListenOrder | cumulus/gpscon.cpp:551-604 | first connection becomes channel 0; second becomes channel 1, followed by the handshake on channel 0; a third changes nothing |
| GpsConProperties.ListenRefused | cumulus/gpscon.cpp:543-550 | a failed accept changes nothing |
| GpsConProperties.HandshakeRejected | cumulus/gpscon.cpp:580-590 | a NEG answer to the handshake skips startGpsReceiving |
| GpsConProperties.StartReceivingRejected | cumulus/gpscon.cpp:210-225 | a NEG answer to OPEN returns false, reports the failure, and sends no NOTIFY |
| GpsConProperties.StartReceivingAccepted | cumulus/gpscon.cpp:185-235 | any other answer is followed by NOTIFY, returns true, and restarts lastQuery |
| GpsConProperties.StartReceivingLostReply | cumulus/gpscon.cpp:210-235 | a channel lost while reading the OPEN reply still returns true |
| GpsConProperties.StopReceivingReply | cumulus/gpscon.cpp:241-264 | stopGpsReceiving succeeds exactly on the positive key |
| GpsConProperties.SendSentenceWrites | cumulus/gpscon.cpp:784-811 | a sentence goes to the client as the send key, a space and the sentence |
| GpsConProperties.NotificationQueries | cumulus/gpscon.cpp:611-639 | "data available" starts a poll; another notification only consumes its frame |
| GpsConProperties.StartClientKeepsLiveChild | cumulus/gpscon.cpp:295-315 | a child waitpid reports running is kept; the result is true |
| GpsConProperties.StartClientDisabled | cumulus/gpscon.cpp:278-290 | in shutdown nothing is spawned and the result is false |
| GpsConProperties.StartClientRestarts | cumulus/gpscon.cpp:316-499 | otherwise both channels are closed and pid reset before the search; a client is started exactly when an executable is found and the fork succeeds |
| GpsConProperties.LaunchFacts | cumulus/gpscon.cpp:360-499 | the launch changes only the executable and the pid |
| GpsConProperties.NoPathKeepsExecutable | cumulus/gpscon.cpp:360-373 | without PATH the configured executable is kept |
| GpsConProperties.TimeoutShutdown | cumulus/gpscon.cpp:506-520 | in shutdown the timer closes sockets, stops, and signals the application's exit |
| GpsConProperties.TimeoutPollsOnlyWhenStale | cumulus/gpscon.cpp:520-535 | the client is polled only when alive, not the simulator, and last polled over 15 s ago |
| GpsConProperties.DestroyClosesEverything | cumulus/gpscon.cpp:118-173 | the destructor closes everything and sends SHUTDOWN when channel 0 is open |
| OpenAir.FindFrom | cumulus/openairparser.cpp:646-675 | QRegExp::indexIn: -1 or a position at or after `from` holding a character of the class |
| OpenAir.RunLength | cumulus/openairparser.cpp:646-675 | QRegExp::matchedLength: a run within the text, at least one character where the class starts |
| OpenAir.FeetFromMeters | cumulus/openairparser.cpp:725-726 | rint(m / 0.3048): within half a foot of the exact value |
| OpenAir.ParseAltitude | cumulus/openairparser.cpp:629-730 | the reference and altitude AltitudeOfAsWritten gives: the letter runs, then the digit runs as the shortening loop finds them, then the element loop; meters converted to feet |
| OpenAir.ScanNumbersAsWritten | cumulus/openairparser.cpp:660-675 | the digit loop, which drops each match's length from the front of the line and searches on from after the match, collects exactly NumberRunsAsWritten |
| OpenAir.ScanAltitude | cumulus/openairparser.cpp:678-723 | the element loop gives ScanElements |
| OpenAir.ScanRuns | cumulus/openairparser.cpp:646-655 | the regular-expression loop collects exactly the maximal runs, in order |
| OpenAir.Separator | cumulus/openairparser.cpp:755-834 | after a number the scan moves past at most one separator |
| OpenAir.PartStep | cumulus/openairparser.cpp:755-834 | one pass of parseCoordinatePart's loop either stops in place or moves forward |
| OpenAir.CoordinatePart | cumulus/openairparser.cpp:755-834 | a failed part changes neither coordinate; an accepted one sets only one |
| OpenAir.ParseCoordinatePart | cumulus/openairparser.cpp:755-834 | the method gives CoordinatePart |
| OpenAirCoordinates.PartWithoutDigitsFails | cumulus/openairparser.cpp:755-834 | a part without a digit is refused and changes neither coordinate |
| OpenAirCoordinates.PartWithoutHemisphereFails | cumulus/openairparser.cpp:800-834 | a part with no N, S, E or W past its first character is refused and changes neither coordinate |
| OpenAir.ScanPart | cumulus/openairparser.cpp:755-834 | the loop gives PartScan |
| OpenAir.ScanNumber | cumulus/openairparser.cpp:755-834 | the loop body gives PartStep |
| OpenAir.FirstOf | cumulus/openairparser.cpp:737 | QRegExp("[NSEW]").indexIn: the first position holding a letter, or -1 when none |
| OpenAir.ParseCoordinate | cumulus/openairparser.cpp:732-752 | the method gives Coordinate |
| OpenAir.OpenAirParser.constructor | cumulus/openairparser.cpp:60-70 | no airspaces, none open, direction +1, empty type map |
| OpenAir.OpenAirParser.ResetState | cumulus/openairparser.cpp:342-349 | the state ResetSpec gives |
| OpenAir.OpenAirParser.NewAirspace | cumulus/openairparser.cpp:460-473 | the state NewAirspaceSpec gives |
| OpenAir.OpenAirParser.FinishAirspace | cumulus/openairparser.cpp:481-519 | the state FinishSpec gives |
| OpenAir.OpenAirParser.InitializeStringMapping | cumulus/openairparser.cpp:544-602 | the type map becomes the defaults overridden by the file's lines |
| OpenAir.OpenAirParser.MapLine | cumulus/openairparser.cpp:570-600 | one `key=value` line sets its key |
| OpenAir.OpenAirParser.ParseType | cumulus/openairparser.cpp:605-626 | the state TypeSpec gives |
| OpenAir.OpenAirParser.ParseVariable | cumulus/openairparser.cpp:847-892 | the result and state VariableSpec gives |
| OpenAir.OpenAirParser.Assign | cumulus/openairparser.cpp:855-892 | the result and state AssignSpec gives |
| OpenAir.OpenAirParser.ParseLine | cumulus/openairparser.cpp:352-457 | the state LineSpec gives, AH and AL through parseAltitude's digit loop as written |
| OpenAir.OpenAirParser.ReadLines | cumulus/openairparser.cpp:247-262 | the state LinesSpec gives |
| OpenAir.OpenAirParser.ReadLine | cumulus/openairparser.cpp:249-261 | the state SourceLineSpec gives |
| OpenAir.OpenAirParser.Parse | cumulus/openairparser.cpp:217-268 | the result and state ParseSpec gives; the list grows by the airspaces read |
| OpenAirProperties.FindFromSkips | cumulus/openairparser.cpp:646-675 | characters outside the class are skipped by the search |
| OpenAirProperties.RunLengthIs | cumulus/openairparser.cpp:646-675 | a run ends where the class does |
| OpenAirProperties.NumeralValue | cumulus/openairparser.cpp:716-718 | QString::toInt on a numeral: its decimal value within 32 bits, failure beyond |
| OpenAirProperties.TwoNumeralRuns | cumulus/openairparser.cpp:646-675 | two space-separated numbers are two digit runs and no letter run |
| OpenAirProperties.KindStep | cumulus/openairparser.cpp:683-708 | an element sets the reference only while it is NotSet |
| OpenAirProperties.KeywordKept | cumulus/openairparser.cpp:696-708 | once set, the reference stays |
| OpenAirProperties.FirstKeywordWins | cumulus/openairparser.cpp:683-708 | from NotSet the first elevation word (AMSL/MSL, GND/SFC/ASFC, UNL*, FL) decides, NotSet when none |
| OpenAirProperties.LastNumberWins | cumulus/openairparser.cpp:714-722 | the last number among the elements is the altitude; without one it is kept |
| OpenAirProperties.MetersMarker | cumulus/openairparser.cpp:711-713 | a lone `M` selects meters |
| OpenAirProperties.NumeralIsNoKeyword | cumulus/openairparser.cpp:683-713 | a numeral is neither an elevation word nor `M` |
| OpenAirProperties.TwoNumbersScan | cumulus/openairparser.cpp:678-723 | of two number elements the second is the altitude |
| OpenAirProperties.TwoNumbersAltitude | cumulus/openairparser.cpp:629-730 | with whole digit runs, "a b" gives altitude b |
| OpenAirProperties.OneNumberAsWritten | cumulus/openairparser.cpp:629-730 | with a single number on the line, the loop as written finds just that number, so the altitude is the one whole runs give |
| OpenAirProperties.AsWrittenStep | cumulus/openairparser.cpp:663-673 | a round of the digit loop as written: record the match, drop len characters, search on from pos+len |
| OpenAirProperties.DigitRunsAsWritten | cumulus/openairparser.cpp:663-673 | on two equal-width numbers the loop as written reads the first and only the last digit of the second |
| OpenAirProperties.AltitudeDigitScanAsWritten | cumulus/openairparser.cpp:629-730 | parseAltitude as written then gives the last digit, where whole runs give the second number |
| OpenAirProperties.AltitudeDigitScanExample | cumulus/openairparser.cpp:629-730 | "1000 2000" gives 0 as written, 2000 with whole runs |
| OpenAirCoordinates.NumberValueIsToInt | cumulus/openairparser.cpp:755-834 | the scanner's digit fold of a numeral is QString::toInt's value, failure past 32 bits included |
| OpenAirCoordinates.RunValueIsToInt | cumulus/openairparser.cpp:755-834 | the run of digits the scan finds is worth what toInt makes of its text |
| OpenAirCoordinates.SecondsRounded | cumulus/openairparser.cpp:758 | the seconds weight is seconds*1000/6 rounded to the nearest unit |
| OpenAirCoordinates.NumberStep | cumulus/openairparser.cpp:755-834 | a pass reads the number whole, weights it by the current factor, and takes the next character as separator |
| OpenAirCoordinates.NoMoreNumbersAt | cumulus/openairparser.cpp:755-834 | with no digit left the loop ends with what it has |
| OpenAirCoordinates.ThreeNumbersScan | cumulus/openairparser.cpp:755-834 | three numbers give deg*600000 + min*10000 + the weighted last number |
| OpenAirCoordinates.DmsScan | cumulus/openairparser.cpp:755-834 | `D:M:S` gives degrees, minutes and rounded seconds in ten-thousandths of a minute |
| OpenAirCoordinates.DecimalMinutesScan | cumulus/openairparser.cpp:755-834 | after `.` the last number counts with factor 100, whatever its number of digits |
| OpenAirCoordinates.HemisphereAtEnd | cumulus/openairparser.cpp:800-834 | N/S set the latitude, E/W the longitude; S and W negate |
| OpenAirCoordinates.LeadingHemisphereFails | cumulus/openairparser.cpp:800-834 | a hemisphere letter at position 0 does not count, and the part fails |
| OpenAirCoordinates.DmsPart | cumulus/openairparser.cpp:755-834 | a blank, `D:M:S`, a blank and a letter: accepted and signed by the letter |
| OpenAirCoordinates.FirstHemisphereAt | cumulus/openairparser.cpp:737 | the first hemisphere letter is found where it is |
| OpenAirCoordinates.CoordinateSplit | cumulus/openairparser.cpp:732-752 | the line splits after the first letter; the parts are parsed in turn, the second from what the first set |
| OpenAirCoordinates.DmsCoordinate | cumulus/openairparser.cpp:732-752 | `D:M:S N D:M:S E` (or S, W): both parts accepted; latitude and longitude signed by their hemispheres |
| OpenAirParserProperties.BaseKinds | cumulus/openairparser.cpp:521-542 | the base type names name exactly the known classes |
| OpenAirParserProperties.DefaultClassesKnown | cumulus/openairparser.cpp:544-568 | every default class name leads to a known base type |
| OpenAirParserProperties.ResetValid | cumulus/openairparser.cpp:342-349 | a reset state keeps the invariant, with no airspace open and none finished |
| OpenAirParserProperties.AcRecord | cumulus/openairparser.cpp:354-361 | AC finishes the open airspace and counts it; a new one gets defaults and the class's type, or is abandoned when the class is unmapped or unknown; direction is +1 |
| OpenAirParserProperties.AcValid | cumulus/openairparser.cpp:354-361 | AC keeps the invariant |
| OpenAirParserProperties.ClosedIgnores | cumulus/openairparser.cpp:368-369 | with no airspace open, records other than AC change nothing |
| OpenAirParserProperties.RecordEditsBuilding | cumulus/openairparser.cpp:371-457 | AN, AH, AL, DP and unknown records change only the open airspace, never its class |
| OpenAirParserProperties.VariableFrame | cumulus/openairparser.cpp:427-430 | V changes only the centre, the direction and the airway width |
| OpenAirParserProperties.AssignFrame | cumulus/openairparser.cpp:855-892 | an assignment changes only the arc centre, the direction and the airway width |
| OpenAirParserProperties.AssignDirection | cumulus/openairparser.cpp:862-872 | the direction stays +1 or -1 |
| OpenAirParserProperties.DpAppends | cumulus/openairparser.cpp:391-399 | DP appends the parsed point and changes nothing else |
| OpenAirParserProperties.LineValid | cumulus/openairparser.cpp:352-457 | parseLine keeps the invariant: one object counted per finished airspace, direction ±1, known classes |
| OpenAirParserProperties.LinesValid | cumulus/openairparser.cpp:247-262 | the line loop keeps the invariant |
| OpenAirParserProperties.SourceLineValid | cumulus/openairparser.cpp:249-261 | one line of the file, comment or record, keeps the invariant |
| OpenAirParserProperties.LinesKeepAirspaces | cumulus/openairparser.cpp:247-262 | finished airspaces stay; the list only grows at its end |
| OpenAirParserProperties.ParseValid | cumulus/openairparser.cpp:217-268 | an opened file leaves nothing half built and satisfies the invariant; an unopenable one changes nothing |
| OpenAirParserProperties.LinesKeepTypeMap | cumulus/openairparser.cpp:247-262 | the record loop never changes the class-name mapping |
| OpenAirParserProperties.AcLineOpens | cumulus/openairparser.cpp:354-361 | an AC of a known class finishes the open airspace and opens an unnamed one of that class |
| OpenAirParserProperties.LastAirspaceFinished | cumulus/openairparser.cpp:217-268 | the airspace still open at the end of the file is finished: an AC of a known class on the last line leaves an airspace of that class at the end of the list, after those the earlier lines finished |
| OpenAirParserProperties.LinesConcat | cumulus/openairparser.cpp:247-262 | reading two pieces in turn is reading the whole |
| OpenAirParserProperties.SkippedLines | cumulus/openairparser.cpp:249-255 | comments and empty lines change nothing |
| OpenAirParserProperties.NoEqualsRejected | cumulus/openairparser.cpp:847-853 | a V record without `=` is refused and changes nothing |
| OpenAirParserProperties.VariablePair | cumulus/openairparser.cpp:847-856 | `name=value` assigns the simplified upper-cased name the simplified value |
| OpenAirParserProperties.DirectionValues | cumulus/openairparser.cpp:862-872 | D accepts exactly "+" and "-", setting +1 and -1 |
| OpenAirParserProperties.UnknownVariable | cumulus/openairparser.cpp:889-892 | names other than X, D, W, Z are refused and change nothing |
| OpenAirParserProperties.MappingConcat | cumulus/openairparser.cpp:570-600 | reading the mapping file in two pieces is reading it whole |
| OpenAirParserProperties.MappingKeeps | cumulus/openairparser.cpp:570-600 | the mapping file only adds or overrides names; names it does not set keep their value |
| OpenAirParserProperties.LastMappingWins | cumulus/openairparser.cpp:570-600 | the last line setting a name decides its value |
| OpenAirParserProperties.DefaultsKept | cumulus/openairparser.cpp:544-602 | the defaults survive unless the file overrides them |
| Flarm.RelativeAsWritten | cumulus/flarm.cpp:265-326 | the getters as written: success means the text reads, and gives its value; an invalid status with an empty text leaves the out-parameter alone |
| Flarm.RelativeChecked | cumulus/flarm.cpp:265-326 | with the status checked: succeeds exactly when the status is valid and the text reads, and then gives its value |
| Flarm.Flarm.constructor | cumulus/flarm.cpp:29-32 | not collecting, initial status, empty table |
| Flarm.Flarm.ExtractPflau | cumulus/flarm.cpp:41-128 | the status and result PflauSpec gives; the table is untouched |
| Flarm.Flarm.ExtractPflaa | cumulus/flarm.cpp:133-263 | the result, aircraft and table PflaaSpec gives; the status is untouched |
| Flarm.Flarm.GetFlarmRelativeBearing | cumulus/flarm.cpp:265-284 | RelativeAsWritten on the stored status and bearing text (guard `!valid && isEmpty()`) |
| Flarm.Flarm.GetFlarmRelativeVertical | cumulus/flarm.cpp:286-305 | RelativeAsWritten on the stored status and vertical text |
| Flarm.Flarm.GetFlarmRelativeDistance | cumulus/flarm.cpp:307-326 | RelativeAsWritten on the stored status and distance text |
| Flarm.GetRelative | cumulus/flarm.cpp:265-284 | the getters' shared body: gives exactly RelativeAsWritten |
| Flarm.ShortField | cumulus/flarm.cpp:59-123 | a short field: its value when it reads, the default otherwise |
| Flarm.IntField | cumulus/flarm.cpp:158-235 | an int field: its value when it reads, the default otherwise |
| Flarm.RealField | cumulus/flarm.cpp:158-235 | a double field: its value when it reads, the default otherwise |
| FlarmProperties.ShortRoundTrip | cumulus/flarm.cpp:59-123 | a 16-bit number printed with %d reads back |
| FlarmProperties.IntRoundTrip | cumulus/flarm.cpp:158-235 | a 32-bit number printed with %d reads back |
| FlarmProperties.PflauRoundTrip | cumulus/flarm.cpp:41-128 | a $PFLAU written from a status reads back as that status, valid |
| FlarmProperties.PflauValidity | cumulus/flarm.cpp:41-128 | accepted exactly for $PFLAU with 11 fields or more; valid exactly when accepted; a rejected one keeps everything else |
| FlarmProperties.PflauSentinels | cumulus/flarm.cpp:59-123 | numbers that do not read become 0 (No, NoFix); a non-zero value is the field's own |
| FlarmProperties.PflaaRoundTrip | cumulus/flarm.cpp:133-263 | a $PFLAA written from an aircraft reads back as it, stamped with the time |
| FlarmProperties.PflaaRejected | cumulus/flarm.cpp:135-139 | accepted exactly for $PFLAA with 12 fields or more; a rejected one changes neither the out-parameter nor the table |
| FlarmProperties.PflaaSentinels | cumulus/flarm.cpp:158-235 | INT_MIN for positions, track and rates; 0 for ID type and aircraft type; No for the alarm |
| FlarmProperties.CollectUpdates | cumulus/flarm.cpp:240-260 | collecting inserts or overwrites the key, and every other entry stays |
| FlarmProperties.PflaaTable | cumulus/flarm.cpp:238-261 | with collection on an accepted sentence is collected; otherwise the table is untouched |
| FlarmProperties.PflaaTwice | cumulus/flarm.cpp:133-263 | reading the same $PFLAA twice at the same time equals reading it once |
| FlarmProperties.CollectTwice | cumulus/flarm.cpp:240-260 | collecting the same record twice equals collecting it once |
| FlarmProperties.RelativeIgnoresValid | cumulus/flarm.cpp:267 | as written, success depends only on whether the text reads; the valid flag never matters |
| FlarmProperties.StaleBearingAccepted | cumulus/flarm.cpp:265-284 | after a rejected $PFLAU, the old bearing is still reported as read |
| FlarmProperties.CheckedAfterRejected | cumulus/flarm.cpp:265-326 | with the status checked, a rejected $PFLAU makes every getter fail and leave its out-parameter |
| FlarmProperties.CheckedAfterRoundTrip | cumulus/flarm.cpp:265-326 | the getters, as written and with the status checked, give back the values of a $PFLAU written with %d |

## Left out

- Sockets, timers, files and processes:
  - I/O is modelled as data. A channel is a byte string plus a log of written messages, and the files are given as their lines.
  - The OS answers are inputs: accept, waitpid, access, vfork/execl, kill, PATH and the shutdown flag.
  - Timer expiry and notifications are explicit method calls.
  - Clock readings (`QTime::currentTime`, `lastQuery.elapsed()`) are integer parameters.
- GpsNmea's `createGpsConnection`, `slot_reset`, `sendLastFix`, `writeConfig`, `forceReset` and the Maemo branches: configuration and platform glue.
  - `setSystemClock` is modelled only by its decision: valid date and root rights restart the fix timer and set the ignore flag. The system calls are left out.
- GpsNmea `Meters`: the feet factor is 0.3048. The `Altitude` class is not part of this model.
  - Speed and heading are kept as exact numbers.
  - Altitudes are exact reals, not doubles.
- Text.ParseReal: `QString::toDouble` reads an exact rational. Binary rounding, infinities and NaN are not modelled.
- GpsCon:
  - The protocol keys come from ipc/protocol.h, which is not part of this model. They are a parameter record.
  - The frame header is taken as little-endian.
  - A read that gets fewer bytes than asked counts as a failure, as end of stream does.
  - Write failures are not modelled: a write on an open channel always succeeds.
  - The child side of vfork (execl and its failure) is left out.
- Sentence:
  - `write(fd, …)` and the echo on standard output are left out. Send returns the assembled line.
  - Characters above 255, which `toAscii` maps to 0, are covered by `Bits.ToAscii`. No code page other than Latin-1 is modelled.
- OpenAir:
  - The arc and circle records (DA, DB, DC) and their floating-point geometry (`addArc`, `addCircle`, `makeAngleArc`) are left out; so are `bearing` and the `wgsToMap` projection in `finishAirspace`. Finished airspaces keep the parser's own coordinates.
  - Compiled-file output, `load`, `_lineNumber` and warning output are left out.
- OpenAir.Weight: rint(part*166.666666667) is modelled as the exact rounding of part*1000/6. The two can differ only for seconds parts far beyond any real coordinate. The model's integers are unbounded. The source's `int` accumulation overflows once a degree part reaches 3580 (3580 * 600000 > 2^31-1). That part lies beyond any real coordinate.
- OpenAirCoordinates.DecimalMinutesScan: after `.` the number counts in hundredths of a minute, whatever its number of digits, as the code does. `D:M.5` is thus read as 0.05 minutes.
- GpsNmea.GsvReads: this is a predicate on field indexes, not a set-valued function.
- SlotSentence: it follows Dispatch. It therefore ignores a `$GPGSV` with fewer than 8 fields, where gpsnmea.cpp:488-495 checks none and `__ExtractSatsInView` would read past the end of the field list. Out-of-range `QStringList` access has no defined result to model. The as-written reading is shown by NmeaRoundTrip.ShortGsvReadsPastEnd (see Findings).
- DispatchSentence: demands 8 fields for `$GPGSV` for the same reason; `GpsNmea.Dispatch`, the function it is proved against, does the same.
- ExtractCoord: the minutes are decoded by DecodeAngle as exact reals rounded half to even. The source reads them with `toFloat` and takes `rint(fLat * 1000)` in single precision, so the thousandth of a minute can differ by one (10 units of the stored coordinate) where the decimal minutes are not exact in binary. Single-precision rounding is not modelled.
- DecodeAngle: exact decimal arithmetic, not `float` (see ExtractCoord).
- ReadClientMessage: the socket reads of `server.readMsg` (declared through ipc.h, which is not part of this model) are modelled as taking exactly the bytes asked for or failing. A read of a zero-length payload is taken to fail and close the channel. That is an assumption about `readMsg`. `done` is a `uint` (gpscon.cpp:719), so an error return of -1 would pass the `done <= 0` test. The model treats every failed read as caught.
- Flarm:
  - The `collectPflaaFinished` signal is left out.
  - `createHashKey` comes from flarm.h, which is not part of this model. It is the parameter `keyOf`.
  - The enumerators `No` and `NoFix` are taken as 0.
  - Both extract functions read field 0 before checking the number of fields. Their models therefore require a non-empty field list.
- FlarmProperties.PflaaRoundTrip: the rate fields are given as texts that read as the rates. A round trip through `%f` formatting of a double is not stated.
- MapCalc: only the integer helpers are modelled. The floating-point functions are left out.
- AirspaceHelper: `loadAirspaceTypeMapping` lives in AirspaceHelper.cpp, which is not part of this model. The map it loads is a constructor argument.

## Findings

| source | as written | input that shows it | evidently intended | confidence | as-written member | corrected member |
|---|---|---|---|---|---|---|
| cumulus/mapcalc.cpp:395 | `tileNo > 180*90` lets tile 16200 through | tileNo = 16200 gives the box at latitude -90 to -92 | tiles 0 to 16199 only (`>=`) | not executed; high | MapCalc.TileBoxPastSouthPole | MapCalc.GetTileBoxChecked |
| cumulus/gpsnmea.cpp:488-495 | GSV is dispatched with no field count, and `__ExtractSatsInView` reads fields 4 to 7 regardless | "$GPGSV,1,1,00" with a valid checksum, counter at 1: five fields, field 7 read | a minimum of 8 fields, as the other sentence types have | not executed; high | NmeaRoundTrip.ShortGsvReadsPastEnd | GpsNmeaProperties.GsvReadsInRange |
| nmeaSimulator/sentence.cpp:70 | `uint(sentence[i].toAscii())` sign-extends bytes from 128 up | the sentence "é" gets the checksum field "FFFFFFE9" | the two hex digits of the XOR of the bytes | not executed; medium (depends on `char` being signed) | Sentence.SignExtendedChecksum | Sentence.FrameLayout |
| nmeaSimulator/sentence.cpp:57 | `.arg(string).arg(sum)` lets the second arg fill a `%1` left in the sentence | the sentence "AB%1" gives "$AB" + checksum + "*%2\r\n" | checksum after the `*`, the sentence unchanged | not executed; high | Sentence.ChainedArgReplacesPayload | Sentence.SendIsFrameOnAscii |
| cumulus/openairparser.cpp:663-673 | the digit loop drops `len` characters and still searches from `pos+len` | "1000 2000" gives altitude 0 | each digit run read whole: 2000 | not executed; high | OpenAirProperties.AltitudeDigitScanAsWritten | OpenAirProperties.TwoNumbersAltitude |
| cumulus/flarm.cpp:267 | `!valid && text.isEmpty()` never decides success, since an empty text fails toInt anyway; it only decides whether the out-parameter is left alone or zeroed | a rejected $PFLAU after one with bearing "-30": the bearing -30 is reported as read | `!valid \|\| text.isEmpty()`: no values from an invalid status | not executed; medium | FlarmProperties.StaleBearingAccepted | FlarmProperties.CheckedAfterRejected |
