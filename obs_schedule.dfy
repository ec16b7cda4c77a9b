/** Where the observation-map script (public/FIAT/python/FIAT_Plot_StationObs_Maps.py)
    resumes: the times of the maps already in a plot type's folder, the hour
    after the latest of them, the earliest such hour over all plot types, and
    the decision to query MetDB from it or to stop. */
module ObsSchedule {
  import opened Text

  /** A date as the script's date list gives it: eight digits, YYYYMMDD. */
  predicate IsDate(date: string)
  {
    |date| == 8 && AllDigits(date)
  }

  /** `glob(directory + '/' + Date + '[0-9][0-9][0-9][0-9].png')`, on the
      names of the files in the folder. */
  predicate GlobMatches(name: string, date: string)
  {
    && |name| == |date| + 8
    && name[..|date|] == date
    && AllDigits(name[|date|..|date| + 4])
    && name[|date| + 4..] == ".png"
  }

  /** `int(FileName[8:12])`: the HHMM part of a map's file name. */
  function FileTime(name: string): (t: nat)
    requires |name| >= 12 && AllDigits(name[8..12])
    ensures t < 10000
  {
    DigitsValueBound(name[8..12]);
    assert Pow10(4) == 10 * Pow10(3) == 100 * Pow10(2) == 1000 * Pow10(1) == 10000 * Pow10(0);
    DigitsValue(name[8..12])
  }

  /** `FileTimes`: the times of the date's maps, in the order the folder
      lists them. */
  function FileTimes(names: seq<string>, date: string): (times: seq<nat>)
    requires IsDate(date)
    ensures |times| <= |names|
    ensures forall t :: t in times ==> t < 10000
  {
    if names == [] then []
    else
      var rest := FileTimes(names[..|names| - 1], date);
      var name := names[|names| - 1];
      if GlobMatches(name, date) then rest + [FileTime(name)] else rest
  }

  /** The times are exactly those of the folder's maps of the date. */
  lemma {:induction false} FileTimesOfMaps(names: seq<string>, date: string, t: nat)
    requires IsDate(date)
    ensures t in FileTimes(names, date) <==> exists i :: 0 <= i < |names| && GlobMatches(names[i], date) && FileTime(names[i]) == t
  {
    if names != [] {
      var init := names[..|names| - 1];
      FileTimesOfMaps(init, date, t);
      if exists i :: 0 <= i < |names| && GlobMatches(names[i], date) && FileTime(names[i]) == t {
        var i :| 0 <= i < |names| && GlobMatches(names[i], date) && FileTime(names[i]) == t;
        if i < |init| {
          assert init[i] == names[i];
        }
      }
      if exists i :: 0 <= i < |init| && GlobMatches(init[i], date) && FileTime(init[i]) == t {
        var i :| 0 <= i < |init| && GlobMatches(init[i], date) && FileTime(init[i]) == t;
        assert names[i] == init[i];
      }
    }
  }

  /** `FileTimes.sort()` then `FileTimes[-1]`: the latest time. */
  function Latest(times: seq<nat>): (m: nat)
    requires |times| > 0
    ensures m in times
    ensures forall i :: 0 <= i < |times| ==> times[i] <= m
  {
    if |times| == 1 then times[0]
    else
      var m := Latest(times[..|times| - 1]);
      assert forall i :: 0 <= i < |times| - 1 ==> times[..|times| - 1][i] == times[i];
      if times[|times| - 1] > m then times[|times| - 1] else m
  }

  /** `("0" + str(n))[-4:]`. */
  function Pad4(n: nat): string
  {
    TakeLast("0" + NatToString(n), 4)
  }

  /** The `StartTime` setStartTime writes: "0000" when the folder has no map
      of the date, otherwise the hour after the latest one. */
  function ResumeTime(times: seq<nat>): string
  {
    if times == [] then "0000" else Pad4(Latest(times) + 100)
  }

  /** A number from 100 to 9999 padded to four characters is four digits
      that read back as it. */
  lemma Pad4Digits(n: nat)
    requires 100 <= n < 10000
    ensures |Pad4(n)| == 4 && AllDigits(Pad4(n)) && DigitsValue(Pad4(n)) == n
  {
    var s := NatToString(n);
    NatToStringRoundTrip(n);
    if n < 1000 {
      NatToStringLength(n, 3);
      assert Pad4(n) == "0" + s;
      DigitsValueAppend("0", s);
    } else {
      NatToStringLength(n, 4);
      assert ("0" + s)[1..] == s;
    }
  }

  /** The start time is four digits: "0000" for an empty folder, and
      otherwise, as long as the latest map is before 99:00, one hour after
      it, so later than every map already made. */
  lemma ResumeAfterLatest(times: seq<nat>)
    requires times != [] ==> Latest(times) < 9900
    ensures |ResumeTime(times)| == 4 && AllDigits(ResumeTime(times))
    ensures times == [] ==> ResumeTime(times) == "0000"
    ensures times != [] ==> DigitsValue(ResumeTime(times)) == Latest(times) + 100
    ensures forall t :: t in times ==> t < DigitsValue(ResumeTime(times))
  {
    if times != [] {
      Pad4Digits(Latest(times) + 100);
    }
  }

  /** The value of a four-digit time string from its digits. */
  lemma FourDigitValue(s: string, a: nat, b: nat, c: nat, d: nat)
    requires |s| == 4 && AllDigits(s)
    requires DigitValue(s[0]) == a && DigitValue(s[1]) == b && DigitValue(s[2]) == c && DigitValue(s[3]) == d
    ensures DigitsValue(s) == 1000 * a + 100 * b + 10 * c + d
  {
    assert s[..3][..2] == s[..2] && s[..2][..1] == s[..1] && s[..1][..0] == [];
    assert DigitsValue(s[..1]) == a;
    assert DigitsValue(s[..2]) == 10 * a + b;
    assert DigitsValue(s[..3]) == 100 * a + 10 * b + c;
    assert s[..4] == s;
  }

  /** Padding a number from 100 to 9999 gives the four-digit string that
      reads back as it. */
  lemma Pad4Of(n: nat, s: string)
    requires 100 <= n < 10000
    requires |s| == 4 && AllDigits(s) && DigitsValue(s) == n
    ensures Pad4(n) == s
  {
    Pad4Digits(n);
    DigitStringsEqual(Pad4(n), s);
  }

  /** The last map of the day at 23:00 resumes at "2400". */
  lemma ResumeAfterLastHour()
    ensures ResumeTime([2300]) == "2400"
  {
    assert Latest([2300]) == 2300;
    FourDigitValue("2400", 2, 4, 0, 0);
    Pad4Of(2400, "2400");
  }

  /** A single map at midnight resumes at "0100". */
  lemma ResumeAfterMidnight()
    ensures ResumeTime([0]) == "0100"
  {
    assert Latest([0]) == 0;
    FourDigitValue("0100", 0, 1, 0, 0);
    Pad4Of(100, "0100");
  }

  // ---- The earliest start over the plot types (getEarliestStartTime) ----

  predicate SortedLex(s: seq<string>)
  {
    forall i, j :: 0 <= i < j < |s| ==> LexLe(s[i], s[j])
  }

  /** `startTimeList.append(x)` then `startTimeList.sort()` on a sorted list:
      x goes in before the first entry it sorts before. */
  function Insert(s: seq<string>, x: string): (r: seq<string>)
    ensures |r| == |s| + 1
  {
    if s == [] then [x]
    else if LexLe(x, s[0]) then [x] + s
    else [s[0]] + Insert(s[1..], x)
  }

  /** Appending and sorting keeps the list sorted and adds exactly x. */
  lemma {:induction false} InsertSorted(s: seq<string>, x: string)
    requires SortedLex(s)
    ensures SortedLex(Insert(s, x))
    ensures multiset(Insert(s, x)) == multiset(s) + multiset{x}
  {
    if s != [] && !LexLe(x, s[0]) {
      InsertSorted(s[1..], x);
      assert s == [s[0]] + s[1..];
      LexLeTotal(x, s[0]);
      HeadBelowInsert(s, x);
      ConsSorted(s[0], Insert(s[1..], x));
    } else if s != [] {
      forall j | 0 <= j < |s|
        ensures LexLe(x, s[j])
      {
        if j > 0 {
          LexLeTransitive(x, s[0], s[j]);
        }
      }
      ConsSorted(x, s);
    }
  }

  /** The head of a sorted list that x does not go before sorts before every
      entry of the rest with x inserted. */
  lemma HeadBelowInsert(s: seq<string>, x: string)
    requires SortedLex(s) && s != [] && LexLe(s[0], x)
    requires multiset(Insert(s[1..], x)) == multiset(s[1..]) + multiset{x}
    ensures forall j :: 0 <= j < |Insert(s[1..], x)| ==> LexLe(s[0], Insert(s[1..], x)[j])
  {
    var r := Insert(s[1..], x);
    forall j | 0 <= j < |r|
      ensures LexLe(s[0], r[j])
    {
      assert r[j] in multiset(s[1..]) + multiset{x};
      if r[j] != x {
        assert r[j] in s[1..];
        var k :| 0 <= k < |s[1..]| && s[1..][k] == r[j];
        assert s[k + 1] == r[j];
      }
    }
  }

  /** A sorted list with an entry in front that sorts before all of it. */
  lemma ConsSorted(h: string, r: seq<string>)
    requires SortedLex(r)
    requires forall j :: 0 <= j < |r| ==> LexLe(h, r[j])
    ensures SortedLex([h] + r)
  {
    var t := [h] + r;
    forall i, j | 0 <= i < j < |t|
      ensures LexLe(t[i], t[j])
    {
      assert t[j] == r[j - 1];
      if i > 0 {
        assert t[i] == r[i - 1];
      }
    }
  }

  /** The lexicographically smallest start time. */
  function Earliest(starts: seq<string>): (e: string)
    requires |starts| > 0
    ensures e in starts
    ensures forall i :: 0 <= i < |starts| ==> LexLe(e, starts[i])
  {
    if |starts| == 1 then LexLeReflexive(starts[0]); starts[0]
    else
      var e := Earliest(starts[..|starts| - 1]);
      var x := starts[|starts| - 1];
      assert forall i :: 0 <= i < |starts| - 1 ==> starts[..|starts| - 1][i] == starts[i];
      LexLeTotal(e, x);
      if LexLe(e, x) then e
      else
        assert forall i :: 0 <= i < |starts| - 1 ==> LexLe(x, starts[i]) by {
          forall i | 0 <= i < |starts| - 1
            ensures LexLe(x, starts[i])
          {
            LexLeTransitive(x, e, starts[i]);
          }
        }
        LexLeReflexive(x);
        x
  }

  lemma {:induction false} LexLeReflexive(a: string)
    ensures LexLe(a, a)
  {
    if a != [] {
      LexLeReflexive(a[1..]);
    }
  }

  /** A start time at or before every other is the earliest one. */
  lemma EarliestUnique(starts: seq<string>, e: string)
    requires e in starts && forall i :: 0 <= i < |starts| ==> LexLe(e, starts[i])
    ensures Earliest(starts) == e
  {
    var k :| 0 <= k < |starts| && starts[k] == e;
    var m := Earliest(starts);
    var j :| 0 <= j < |starts| && starts[j] == m;
    assert LexLe(m, starts[k]) && LexLe(e, starts[j]);
    LexLeAntisymmetric(m, e);
  }

  /** getEarliestStartTime: append each plot type's start time, sorting
      after each append, and return the first. */
  method EarliestStartTime(starts: seq<string>) returns (earliest: string)
    requires |starts| > 0
    ensures earliest == Earliest(starts)
  {
    var startTimeList: seq<string> := [];
    for i := 0 to |starts|
      invariant SortedLex(startTimeList)
      invariant multiset(startTimeList) == multiset(starts[..i])
    {
      InsertSorted(startTimeList, starts[i]);
      assert starts[..i + 1] == starts[..i] + [starts[i]];
      startTimeList := Insert(startTimeList, starts[i]);
    }
    assert starts[..|starts|] == starts;
    earliest := startTimeList[0];
    assert earliest in multiset(starts);
    forall i | 0 <= i < |starts|
      ensures LexLe(earliest, starts[i])
    {
      assert starts[i] in multiset(startTimeList);
      var j :| 0 <= j < |startTimeList| && startTimeList[j] == starts[i];
      if j == 0 {
        LexLeReflexive(earliest);
      }
    }
    EarliestUnique(starts, earliest);
  }

  /** On four-digit start times, the first as strings is the first as
      numbers. */
  lemma EarliestIsNumericMin(starts: seq<string>)
    requires |starts| > 0
    requires forall i :: 0 <= i < |starts| ==> |starts[i]| == 4 && AllDigits(starts[i])
    ensures forall i :: 0 <= i < |starts| ==> DigitsValue(Earliest(starts)) <= DigitsValue(starts[i])
  {
    var e := Earliest(starts);
    forall i | 0 <= i < |starts|
      ensures DigitsValue(e) <= DigitsValue(starts[i])
    {
      LexLeDigits(e, starts[i]);
    }
  }

  // ---- The stop conditions of extractData ----

  /** What extractData does with the earliest start time: stop because the
      day is complete, stop because the maps are up to date, or query MetDB
      with these keywords. */
  datatype Extraction =
    | AllImagesDone(message: string)
    | UpToDate(message: string)
    | Query(keywords: seq<string>)

  /** `str(datetime.now())[11:13] + "00"`: the current hour, from the
      clock's text "YYYY-MM-DD HH:MM:SS.ffffff". */
  function CurrentHour(now: string): string
  {
    Slice(now, 11, 13) + "00"
  }

  function ExtractDecision(startTime: string, currentHour: string, date: string): Extraction
  {
    if startTime == "2400" then AllImagesDone("Already have all images for date " + date)
    else if startTime == currentHour then UpToDate("Images already up to date for date " + date)
    else Query(["START TIME " + date + "/" + startTime + "Z", "END TIME " + date + "/2300Z", "PLATFORM 03"])
  }

  /** MetDB is queried exactly when the earliest start is neither "2400" nor
      the current hour, and the query runs from that start to 23:00 of the
      date on platform 03. */
  lemma QueryWhenBehind(startTime: string, currentHour: string, date: string)
    ensures ExtractDecision(startTime, currentHour, date).Query? <==> startTime != "2400" && startTime != currentHour
    ensures ExtractDecision(startTime, currentHour, date).AllImagesDone? <==> startTime == "2400"
    ensures var r := ExtractDecision(startTime, currentHour, date);
      r.Query? ==> |r.keywords| == 3 && r.keywords[0] == "START TIME " + date + "/" + startTime + "Z"
  {
  }

  /** "Already have all images" is reported only when every plot type has a
      map of the date at 23:00 or later: the earliest resume time is "2400"
      only if every folder's latest map is at least 2300. */
  lemma {:induction false} AllImagesMeansDayComplete(times: seq<seq<nat>>, starts: seq<string>)
    requires |starts| == |times| > 0
    requires forall k :: 0 <= k < |times| ==> starts[k] == ResumeTime(times[k])
    requires forall k :: 0 <= k < |times| ==> times[k] != [] ==> Latest(times[k]) < 9900
    requires Earliest(starts) == "2400"
    ensures forall k :: 0 <= k < |times| ==> times[k] != [] && Latest(times[k]) >= 2300
  {
    forall k | 0 <= k < |times|
      ensures times[k] != [] && Latest(times[k]) >= 2300
    {
      ResumeAfterLatest(times[k]);
      FourDigitValue("2400", 2, 4, 0, 0);
      LexLeDigits("2400", starts[k]);
    }
  }
}
