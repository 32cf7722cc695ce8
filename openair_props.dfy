/**
 * Properties of the OpenAir altitude scanner: how the runs of letters and
 * digits are found, which elevation word and which number decide an
 * altitude limit, and the parseAltitude digit scan as written.
 */
module OpenAirProperties {
  import opened Text
  import opened BaseMap
  import opened OpenAir

  // ---------------------------------------------------------------------
  // Scanning

  /** A non-empty run of decimal digits. */
  predicate Numeral(a: string)
  {
    a != [] && forall i :: 0 <= i < |a| ==> IsAsciiDigit(a[i])
  }

  /** Characters of no run are skipped by the search. */
  lemma {:induction false} FindFromSkips(s: string, k: CharClass, from: nat, to: nat)
    requires from <= to <= |s|
    requires forall i :: from <= i < to ==> !InClass(s[i], k)
    ensures FindFrom(s, k, from) == FindFrom(s, k, to)
    decreases |s| - from
  {
    if from < to {
      FindFromSkips(s, k, from + 1, to);
    }
  }

  /** A run ends where the class does. */
  lemma {:induction false} RunLengthIs(s: string, k: CharClass, p: nat, n: nat)
    requires p + n <= |s|
    requires forall i :: p <= i < p + n ==> InClass(s[i], k)
    requires p + n == |s| || !InClass(s[p + n], k)
    ensures RunLength(s, k, p) == n
    decreases n
  {
    if n > 0 {
      RunLengthIs(s, k, p + 1, n - 1);
    }
  }

  lemma NoMoreRuns(s: string, k: CharClass, from: nat, done: seq<string>)
    requires from <= |s|
    requires forall i :: from <= i < |s| ==> !InClass(s[i], k)
    ensures RunsAfter(s, k, from, done) == done
  {
    FindFromSkips(s, k, from, |s|);
  }

  lemma {:induction false} NumeralDigits(a: string)
    requires forall i :: 0 <= i < |a| ==> IsAsciiDigit(a[i])
    ensures AllDigits(a, 10)
    decreases |a|
  {
    if a != [] {
      NumeralDigits(a[..|a| - 1]);
    }
  }

  /** QString::toInt on a numeral: its decimal value when that fits 32 bits. */
  lemma NumeralValue(a: string)
    requires Numeral(a)
    ensures AllDigits(a, 10)
    ensures ToInt(a) == if DigitsValue(a, 10) < 0x8000_0000 then Some(DigitsValue(a, 10)) else None
  {
    NumeralDigits(a);
    TrimIdentity(a);
    assert a[0] != '+' && a[0] != '-';
  }

  /** Two numbers separated by a space are two digit runs, and the line holds no letter run. */
  lemma TwoNumeralRuns(a: string, b: string)
    requires Numeral(a) && Numeral(b)
    ensures Runs(a + " " + b, Digits) == [a, b]
    ensures Runs(a + " " + b, Letters) == []
  {
    var s := a + " " + b;
    assert RunsAfter(s, Digits, 0, []) == RunsAfter(s, Digits, |a|, [a]) by {
      assert s[|a|] == ' ';
      assert s[..|a|] == a;
      RunLengthIs(s, Digits, 0, |a|);
      assert InClass(s[0], Digits);
      assert s[0..|a|] == a;
      assert [] + [a] == [a];
    }
    assert RunsAfter(s, Digits, |a|, [a]) == RunsAfter(s, Digits, |s|, [a, b]) by {
      assert s[|a|] == ' ';
      assert s[|a| + 1..] == b;
      FindFromSkips(s, Digits, |a|, |a| + 1);
      assert InClass(s[|a| + 1], Digits);
      RunLengthIs(s, Digits, |a| + 1, |b|);
      assert s[|a| + 1..|a| + 1 + |b|] == b;
      assert RunsAfter(s, Digits, |a|, [a]) == RunMatch(s, Digits, |a| + 1, |b|, [a]);
      assert [a] + [b] == [a, b];
    }
    NoMoreRuns(s, Letters, 0, []);
  }

  // ---------------------------------------------------------------------
  // Altitudes

  /** The elevation reference an element names. */
  function Keyword(e: string): ElevationType
  {
    Classify(ToUpper(e))
  }

  /** An element that sets the altitude: no keyword, not `M`, and a 32-bit integer. */
  predicate IsNumber(e: string)
  {
    Keyword(e) == NotSet && ToUpper(e) != "M" && ToInt(ToUpper(e)).Some?
  }

  /** One element sets the reference only while it is NotSet, to the element's keyword. */
  lemma KindStep(a: AltitudeScan, e: string)
    ensures AltitudeStep(a, e).kind == if a.kind != NotSet then a.kind else Keyword(e)
  {
  }

  /** Once set, the reference stays: later elevation words are ignored. */
  lemma {:induction false} KeywordKept(a: AltitudeScan, es: seq<string>)
    requires a.kind != NotSet
    ensures ScanElements(a, es).kind == a.kind
    decreases |es|
  {
    if es != [] {
      KindStep(a, es[0]);
      KeywordKept(AltitudeStep(a, es[0]), es[1..]);
    }
  }

  /**
   * From NotSet, the first elevation word decides the reference; without
   * one it stays NotSet.
   */
  lemma {:induction false} FirstKeywordWins(a: AltitudeScan, es: seq<string>)
    requires a.kind == NotSet
    ensures ScanElements(a, es).kind == NotSet <==> forall i :: 0 <= i < |es| ==> Keyword(es[i]) == NotSet
    ensures ScanElements(a, es).kind != NotSet ==>
      exists i :: 0 <= i < |es| && Keyword(es[i]) == ScanElements(a, es).kind &&
        forall j :: 0 <= j < i ==> Keyword(es[j]) == NotSet
    decreases |es|
  {
    if es != [] {
      var a1 := AltitudeStep(a, es[0]);
      var r := ScanElements(a, es);
      assert r == ScanElements(a1, es[1..]);
      KindStep(a, es[0]);
      if Keyword(es[0]) != NotSet {
        KeywordKept(a1, es[1..]);
        assert r.kind == Keyword(es[0]);
      } else {
        FirstKeywordWins(a1, es[1..]);
        forall i | 0 <= i < |es[1..]|
          ensures es[1..][i] == es[i + 1]
        {
        }
        if r.kind != NotSet {
          var i :| 0 <= i < |es[1..]| && Keyword(es[1..][i]) == r.kind &&
            forall j :: 0 <= j < i ==> Keyword(es[1..][j]) == NotSet;
          assert Keyword(es[i + 1]) == r.kind;
          assert forall j :: 0 <= j < i + 1 ==> Keyword(es[j]) == NotSet by {
            forall j | 0 <= j < i + 1
              ensures Keyword(es[j]) == NotSet
            {
              if j > 0 {
                assert es[j] == es[1..][j - 1];
              }
            }
          }
        } else {
          forall i | 0 <= i < |es|
            ensures Keyword(es[i]) == NotSet
          {
            if i > 0 {
              assert es[i] == es[1..][i - 1];
            }
          }
        }
      }
    }
  }

  /** The last number of the elements is the altitude; without one the altitude is kept. */
  lemma {:induction false} LastNumberWins(a: AltitudeScan, es: seq<string>)
    ensures (forall i :: 0 <= i < |es| ==> !IsNumber(es[i])) ==> ScanElements(a, es).alt == a.alt
    ensures forall i :: 0 <= i < |es| && IsNumber(es[i]) && (forall j :: i < j < |es| ==> !IsNumber(es[j])) ==>
      ScanElements(a, es).alt == ToInt(ToUpper(es[i])).value
    decreases |es|
  {
    if es != [] {
      var a1 := AltitudeStep(a, es[0]);
      LastNumberWins(a1, es[1..]);
      assert ScanElements(a, es) == ScanElements(a1, es[1..]);
      assert forall i :: 0 <= i < |es| - 1 ==> es[1..][i] == es[i + 1];
      assert !IsNumber(es[0]) ==> a1.alt == a.alt;
    }
  }

  /** A lone `M` among the elements selects meters. */
  lemma {:induction false} MetersMarker(a: AltitudeScan, es: seq<string>)
    ensures ScanElements(a, es).meters <==> a.meters || exists i :: 0 <= i < |es| && ToUpper(es[i]) == "M"
    decreases |es|
  {
    if es != [] {
      var a1 := AltitudeStep(a, es[0]);
      MetersMarker(a1, es[1..]);
      assert ScanElements(a, es) == ScanElements(a1, es[1..]);
      assert Classify("M") == NotSet;
      assert a1.meters <==> a.meters || ToUpper(es[0]) == "M";
      if exists i :: 0 <= i < |es| && ToUpper(es[i]) == "M" {
        var i :| 0 <= i < |es| && ToUpper(es[i]) == "M";
        if i > 0 {
          assert es[1..][i - 1] == es[i];
        }
      }
      if exists i :: 0 <= i < |es[1..]| && ToUpper(es[1..][i]) == "M" {
        var i :| 0 <= i < |es[1..]| && ToUpper(es[1..][i]) == "M";
        assert es[i + 1] == es[1..][i];
      }
    }
  }

  /** A numeral is neither an elevation word nor the meters marker, and upper-casing keeps it. */
  lemma NumeralIsNoKeyword(a: string)
    requires Numeral(a)
    ensures ToUpper(a) == a
    ensures Keyword(a) == NotSet && a != "M"
  {
    assert ToUpper(a) == a;
    assert a[0] != 'A' && a[0] != 'M' && a[0] != 'G' && a[0] != 'S' && a[0] != 'U' && a[0] != 'F';
  }

  /** Of two numeral elements, the second is the altitude. */
  lemma TwoNumbersScan(a: string, b: string)
    requires Numeral(a) && Numeral(b) && ToInt(b).Some?
    ensures Finish(ScanElements(NoAltitude, [a, b])) == (NotSet, ToInt(b).value)
  {
    NumeralIsNoKeyword(a);
    NumeralIsNoKeyword(b);
    var a1 := AltitudeStep(NoAltitude, a);
    assert a1.kind == NotSet && !a1.meters;
    assert [a, b][1..] == [b];
    assert ScanElements(NoAltitude, [a, b]) == ScanElements(a1, [b]);
    assert [b][1..] == [];
    assert ScanElements(a1, [b]) == AltitudeStep(a1, b);
  }

  /** Of two numbers on a line, the second is the altitude: each digit run is read whole. */
  lemma TwoNumbersAltitude(a: string, b: string)
    requires Numeral(a) && Numeral(b) && ToInt(b).Some?
    ensures AltitudeOf(a + " " + b) == (NotSet, ToInt(b).value)
  {
    TwoNumeralRuns(a, b);
    assert AltitudeElements(a + " " + b) == [a, b];
    TwoNumbersScan(a, b);
  }

  /** One round of the digit loop as written. */
  lemma AsWrittenStep(line: string, from: nat, p: nat, n: nat)
    requires p < |line| && FindFrom(line, Digits, from) == p && RunLength(line, Digits, p) == n
    ensures NumberRunsAsWritten(line, from) == [line[p..p + n]] + NumberRunsAsWritten(line[n..], p + n)
  {
    assert NumberRunsAsWritten(line, from) == AsWrittenMatch(line, p, n);
  }

  /** The first digit run of a line that starts with a numeral and a space is that numeral. */
  lemma LeadingRun(a: string, b: string)
    requires Numeral(a)
    ensures FindFrom(a + " " + b, Digits, 0) == 0
    ensures RunLength(a + " " + b, Digits, 0) == |a|
    ensures (a + " " + b)[0..|a|] == a
    ensures (a + " " + b)[|a|..] == " " + b
  {
    var s := a + " " + b;
    assert InClass(s[0], Digits);
    assert s[|a|] == ' ';
    RunLengthIs(s, Digits, 0, |a|);
  }

  /** In a space followed by a numeral, the run found at `k` is the rest of the numeral. */
  lemma TrailingRun(b: string, k: nat)
    requires Numeral(b) && 1 <= k <= |b|
    ensures FindFrom(" " + b, Digits, k) == k
    ensures RunLength(" " + b, Digits, k) == |b| + 1 - k
    ensures (" " + b)[k..|b| + 1] == b[k - 1..]
    ensures (" " + b)[|b| + 1 - k..] == b[|b| - k..]
  {
    var rest := " " + b;
    assert forall i :: 1 <= i <= |b| ==> rest[i] == b[i - 1];
    assert InClass(rest[k], Digits);
    RunLengthIs(rest, Digits, k, |b| + 1 - k);
    assert rest[k..|b| + 1] == b[k - 1..];
    assert rest[|b| + 1 - k..] == b[|b| - k..];
  }

  /** The digit loop as written ends once the search starts past the line. */
  lemma AsWrittenDone(line: string, from: nat)
    requires |line| < from
    ensures NumberRunsAsWritten(line, from) == []
  {
  }

  /** A line holding one digit run, `n` digits at `p`. */
  predicate OneRun(line: string, p: nat, n: nat)
  {
    && 0 < n && p + n <= |line|
    && (forall i :: 0 <= i < p ==> !InClass(line[i], Digits))
    && (forall i :: p <= i < p + n ==> InClass(line[i], Digits))
    && (forall i :: p + n <= i < |line| ==> !InClass(line[i], Digits))
  }

  lemma OneRunAsWritten(line: string, p: nat, n: nat)
    requires OneRun(line, p, n)
    ensures NumberRunsAsWritten(line, 0) == [line[p..p + n]]
  {
    FindFromSkips(line, Digits, 0, p);
    RunLengthIs(line, Digits, p, n);
    AsWrittenStep(line, 0, p, n);
    var rest := line[n..];
    if p + n < |rest| {
      FindFromSkips(rest, Digits, p + n, |rest|);
    }
    assert NumberRunsAsWritten(rest, p + n) == [];
  }

  lemma OneRunWhole(line: string, p: nat, n: nat)
    requires OneRun(line, p, n)
    ensures Runs(line, Digits) == [line[p..p + n]]
  {
    FindFromSkips(line, Digits, 0, p);
    assert FindFrom(line, Digits, p) == p by { assert InClass(line[p], Digits); }
    RunLengthIs(line, Digits, p, n);
    NoMoreRuns(line, Digits, p + n, [] + [line[p..p + n]]);
    calc {
      Runs(line, Digits);
      RunsAfter(line, Digits, 0, []);
      RunMatch(line, Digits, p, n, []);
      RunsAfter(line, Digits, p + n, [] + [line[p..p + n]]);
    }
  }

  /**
   * With a single number on the line the digit loop as written finds just
   * that number, so parseAltitude gives what reading whole runs gives.
   */
  lemma OneNumberAsWritten(line: string, p: nat, n: nat)
    requires OneRun(line, p, n)
    ensures NumberRunsAsWritten(line, 0) == Runs(line, Digits) == [line[p..p + n]]
    ensures AltitudeOfAsWritten(line) == AltitudeOf(line)
  {
    OneRunAsWritten(line, p, n);
    OneRunWhole(line, p, n);
  }

  /**
   * The digit loop as written, on two numbers of the same width: it reads
   * the first, then only the last digit of the second.
   */
  lemma DigitRunsAsWritten(a: string, b: string)
    requires Numeral(a) && Numeral(b) && |a| == |b|
    ensures NumberRunsAsWritten(a + " " + b, 0) == [a, b[|b| - 1..]]
  {
    var d := b[|b| - 1..];
    LeadingRun(a, b);
    AsWrittenStep(a + " " + b, 0, 0, |a|);
    assert NumberRunsAsWritten(a + " " + b, 0) == [a] + NumberRunsAsWritten(" " + b, |a|);
    TrailingRun(b, |a|);
    AsWrittenStep(" " + b, |a|, |a|, 1);
    assert NumberRunsAsWritten(" " + b, |a|) == [d] + NumberRunsAsWritten(b, |a| + 1);
    AsWrittenDone(b, |a| + 1);
    assert [a] + ([d] + []) == [a, d];
  }

  /**
   * parseAltitude as written, on two numbers of the same width: the
   * altitude is the last digit of the second, where reading whole runs
   * gives the second number.
   */
  lemma AltitudeDigitScanAsWritten(a: string, b: string)
    requires Numeral(a) && Numeral(b) && |a| == |b| && ToInt(b).Some?
    ensures AltitudeOfAsWritten(a + " " + b) == (NotSet, DigitValue(b[|b| - 1], 10))
    ensures AltitudeOf(a + " " + b) == (NotSet, ToInt(b).value)
  {
    DigitRunsAsWritten(a, b);
    TwoNumeralRuns(a, b);
    var d := b[|b| - 1..];
    assert Runs(a + " " + b, Letters) + NumberRunsAsWritten(a + " " + b, 0) == [a, d];
    assert Numeral(d);
    NumeralValue(d);
    assert DigitsValue(d, 10) == DigitValue(b[|b| - 1], 10);
    TwoNumbersScan(a, d);
    TwoNumbersAltitude(a, b);
  }

  /** "2000" reads as 2000. */
  lemma TwoThousand()
    ensures Numeral("2000") && ToInt("2000") == Some(2000)
  {
    var b := "2000";
    assert Numeral(b);
    NumeralValue(b);
    assert b[..3] == "200" && "200"[..2] == "20" && "20"[..1] == "2" && "2"[..0] == "";
    assert DigitsValue("2", 10) == 2;
    assert DigitsValue("20", 10) == 20;
    assert DigitsValue("200", 10) == 200;
  }

  /** For "1000 2000" the altitude as written is 0, where 2000 is meant. */
  lemma AltitudeDigitScanExample()
    ensures AltitudeOfAsWritten("1000 2000") == (NotSet, 0)
    ensures AltitudeOf("1000 2000") == (NotSet, 2000)
  {
    TwoThousand();
    assert Numeral("1000");
    AltitudeDigitScanAsWritten("1000", "2000");
    assert "2000"[3..] == "0";
    assert "1000" + " " + "2000" == "1000 2000";
  }
}
