/** How the observation-map script (public/FIAT/python/FIAT_Plot_StationObs_Maps.py)
    files MetDB rows: each plot type's dictionary keeps its start time and,
    under zero-padded YYYYMMDDHHMM keys, the list of station points to plot
    at that time. */
module StationObs {
  import opened Text
  import opened ObsSchedule

  /** A MetDB element of a row: masked (missing) or a value. */
  datatype Obs = Masked | Present(value: real)

  /** A LANDSYN row: station number, latitude, longitude, year, month, day,
      hour, minute, surface air temperature (K), wind speed (m/s) and
      horizontal visibility (m). */
  datatype LandsynRow = LandsynRow(
    station: int, lat: Obs, lon: Obs,
    year: nat, month: nat, day: nat, hour: nat, minute: nat,
    temp: Obs, wind: Obs, vis: Obs)

  /** A SREW row: station number, latitude, longitude, year, month, day,
      hour and the hourly precipitation amount (mm). */
  datatype SrewRow = SrewRow(
    station: int, lat: Obs, lon: Obs,
    year: nat, month: nat, day: nat, hour: nat,
    precip: Obs)

  /** `[station, lat, lon, value]`: one point of a map. */
  datatype StationData = StationData(station: int, lat: real, lon: real, value: real)

  /** The date-keyed part of a plot dictionary. */
  type Data = map<string, seq<StationData>>

  /** One row's contribution: its key and the points it appends there. */
  type Filing = (string, seq<StationData>)

  const ScreenTemperature := "screen temperature"
  const WindSpeed := "wind speed"
  const Visibility := "visibility"

  // ---- Keys ----

  /** `str(Year) + pad(Month) + pad(Day) + pad(Hour) + Minute`. */
  function TimeKey(year: nat, month: nat, day: nat, hour: nat, minute: string): string
  {
    NatToString(year) + Pad2(month) + Pad2(day) + Pad2(hour) + minute
  }

  function LandsynKey(r: LandsynRow): string
  {
    TimeKey(r.year, r.month, r.day, r.hour, Pad2(r.minute))
  }

  /** SREW rows are hourly: the minutes are always "00". */
  function SrewKey(r: SrewRow): string
  {
    TimeKey(r.year, r.month, r.day, r.hour, "00")
  }

  /** Whatever the number, its padding is two digits. */
  lemma Pad2Shape(n: nat)
    ensures |Pad2(n)| == 2 && AllDigits(Pad2(n))
  {
    var s := "0" + NatToString(n);
    assert AllDigits(s) by {
      forall i | 0 <= i < |s|
        ensures IsDigit(s[i])
      {
        if i > 0 {
          assert s[i] == NatToString(n)[i - 1];
        }
      }
    }
  }

  /** Five pieces of lengths 4, 2, 2, 2 and 2, glued, cut back apart. */
  lemma Cut5(a: string, b: string, c: string, d: string, e: string)
    requires |a| == 4 && |b| == 2 && |c| == 2 && |d| == 2 && |e| == 2
    ensures var k := a + b + c + d + e;
      |k| == 12 && k[..4] == a && k[4..6] == b && k[6..8] == c && k[8..10] == d && k[10..] == e
      && k[..8] == a + b + c && k[8..] == d + e
  {
  }

  /** The eight-digit pattern of `re.match('[0-9]{8}', s)`: it matches
      any string that starts with eight digits. */
  predicate DatePattern(s: string)
  {
    |s| >= 8 && AllDigits(s[..8])
  }

  /** Every key a row is filed under is all digits, at least nine long, so
      it passes plotObsMaps's date filter whatever the year. */
  lemma TimeKeyMatches(year: nat, month: nat, day: nat, hour: nat, minute: string)
    requires AllDigits(minute)
    ensures AllDigits(TimeKey(year, month, day, hour, minute))
    ensures |TimeKey(year, month, day, hour, minute)| >= 7 + |minute|
    ensures |minute| >= 1 ==> DatePattern(TimeKey(year, month, day, hour, minute))
  {
    var y, m, d, h := NatToString(year), Pad2(month), Pad2(day), Pad2(hour);
    Pad2Shape(month);
    Pad2Shape(day);
    Pad2Shape(hour);
    var k := TimeKey(year, month, day, hour, minute);
    assert k == y + m + d + h + minute;
    forall i | 0 <= i < |k|
      ensures IsDigit(k[i])
    {
      if i < |y| {
        assert k[i] == y[i];
      } else if i < |y| + 2 {
        assert k[i] == m[i - |y|];
      } else if i < |y| + 4 {
        assert k[i] == d[i - |y| - 2];
      } else if i < |y| + 6 {
        assert k[i] == h[i - |y| - 4];
      } else {
        assert k[i] == minute[i - |y| - 6];
      }
    }
  }

  /** For a four-digit year and fields below 100, the key cuts back into
      the fields: DateStr (`key[0:8]`) is the date and TimeStr (`key[8:]`)
      the hour and minutes, each reading back as the row's number. */
  lemma TimeKeyFields(year: nat, month: nat, day: nat, hour: nat, minute: string)
    requires 1000 <= year < 10000 && month < 100 && day < 100 && hour < 100
    requires |minute| == 2 && AllDigits(minute)
    ensures var k := TimeKey(year, month, day, hour, minute);
      && |k| == 12 && AllDigits(k)
      && k[..8] == NatToString(year) + Pad2(month) + Pad2(day)
      && k[8..] == Pad2(hour) + minute
      && DigitsValue(k[..4]) == year && DigitsValue(k[4..6]) == month
      && DigitsValue(k[6..8]) == day && DigitsValue(k[8..10]) == hour
      && k[10..] == minute
  {
    NatToStringLength(year, 4);
    NatToStringRoundTrip(year);
    Pad2Digits(month);
    Pad2Digits(day);
    Pad2Digits(hour);
    TimeKeyMatches(year, month, day, hour, minute);
    Cut5(NatToString(year), Pad2(month), Pad2(day), Pad2(hour), minute);
  }

  /** Two LANDSYN rows with four-digit years and fields below 100 share a
      key exactly when they share the minute of observation. */
  lemma LandsynSameKey(r: LandsynRow, s: LandsynRow)
    requires 1000 <= r.year < 10000 && r.month < 100 && r.day < 100 && r.hour < 100 && r.minute < 100
    requires 1000 <= s.year < 10000 && s.month < 100 && s.day < 100 && s.hour < 100 && s.minute < 100
    ensures LandsynKey(r) == LandsynKey(s) <==>
      (r.year, r.month, r.day, r.hour, r.minute) == (s.year, s.month, s.day, s.hour, s.minute)
  {
    Pad2Digits(r.minute);
    Pad2Digits(s.minute);
    TimeKeyFields(r.year, r.month, r.day, r.hour, Pad2(r.minute));
    TimeKeyFields(s.year, s.month, s.day, s.hour, Pad2(s.minute));
    if LandsynKey(r) == LandsynKey(s) {
      DigitStringsEqual(Pad2(r.minute), Pad2(s.minute));
      Pad2Injective(r.minute, s.minute);
    }
  }

  /** Two SREW rows with four-digit years and fields below 100 share a key
      exactly when they share the hour of observation. */
  lemma SrewSameKey(r: SrewRow, s: SrewRow)
    requires 1000 <= r.year < 10000 && r.month < 100 && r.day < 100 && r.hour < 100
    requires 1000 <= s.year < 10000 && s.month < 100 && s.day < 100 && s.hour < 100
    ensures SrewKey(r) == SrewKey(s) <==>
      (r.year, r.month, r.day, r.hour) == (s.year, s.month, s.day, s.hour)
  {
    TimeKeyFields(r.year, r.month, r.day, r.hour, "00");
    TimeKeyFields(s.year, s.month, s.day, s.hour, "00");
  }

  // ---- What a row contributes ----

  /** The reading a LANDSYN dictionary of this plot type plots, in its
      plotting units: Celsius, knots or metres. */
  function LandsynReading(r: LandsynRow, plotType: string): Obs
  {
    if plotType == ScreenTemperature then
      (if r.temp.Present? then Present(r.temp.value - 273.15) else Masked)
    else if plotType == WindSpeed then
      (if r.wind.Present? then Present(r.wind.value * 1.944) else Masked)
    else if plotType == Visibility then r.vis
    else Masked
  }

  /** What assignLandsynData appends for one row: nothing unless the
      position is present, then one independent check per field, each
      guarded by its plot type. */
  function LandsynEntries(r: LandsynRow, plotType: string): seq<StationData>
  {
    if r.lat.Masked? || r.lon.Masked? then []
    else
      (if r.temp.Present? && plotType == ScreenTemperature
       then [StationData(r.station, r.lat.value, r.lon.value, r.temp.value - 273.15)] else [])
      + (if r.wind.Present? && plotType == WindSpeed
         then [StationData(r.station, r.lat.value, r.lon.value, r.wind.value * 1.944)] else [])
      + (if r.vis.Present? && plotType == Visibility
         then [StationData(r.station, r.lat.value, r.lon.value, r.vis.value)] else [])
  }

  /** A row goes only to the dictionary whose plot type's field it has:
      one point, at the row's position, holding that field's reading, or
      nothing at all. */
  lemma LandsynRouting(r: LandsynRow, plotType: string)
    ensures var o := LandsynReading(r, plotType);
      LandsynEntries(r, plotType) ==
        if r.lat.Present? && r.lon.Present? && o.Present?
        then [StationData(r.station, r.lat.value, r.lon.value, o.value)]
        else []
  {
  }

  /** What assignSrewData appends for one row: the point, when the position
      is present and the amount is present and not negative. */
  function SrewEntries(r: SrewRow): seq<StationData>
  {
    if r.lat.Present? && r.lon.Present? && r.precip.Present? && r.precip.value >= 0.0
    then [StationData(r.station, r.lat.value, r.lon.value, r.precip.value)]
    else []
  }

  /** SREW's trace (-1) and NIL (-9999999) codes are never plotted, and a
      dry hour (0) is. */
  lemma SrewSentinelsDropped(r: SrewRow)
    ensures r.precip == Present(-1.0) || r.precip == Present(-9999999.0) ==> SrewEntries(r) == []
    ensures r.lat.Present? && r.lon.Present? && r.precip == Present(0.0) ==>
      SrewEntries(r) == [StationData(r.station, r.lat.value, r.lon.value, 0.0)]
  {
  }

  // ---- Filing rows into a dictionary ----

  function Lookup(data: Data, key: string): seq<StationData>
  {
    if key in data then data[key] else []
  }

  /** `if key not in dictionary: dictionary[key] = []`, then the appends. */
  function File(data: Data, key: string, entries: seq<StationData>): Data
  {
    data[key := Lookup(data, key) + entries]
  }

  /** The dictionary after filing each row in turn. */
  function Filed(data: Data, filings: seq<Filing>): Data
  {
    if filings == [] then data
    else
      var last := filings[|filings| - 1];
      File(Filed(data, filings[..|filings| - 1]), last.0, last.1)
  }

  /** The points the filings hold for one key, in filing order. */
  function Collected(filings: seq<Filing>, key: string): seq<StationData>
  {
    if filings == [] then []
    else
      var last := filings[|filings| - 1];
      Collected(filings[..|filings| - 1], key) + (if last.0 == key then last.1 else [])
  }

  function LandsynFilings(rows: seq<LandsynRow>, plotType: string): seq<Filing>
  {
    if rows == [] then []
    else
      var r := rows[|rows| - 1];
      LandsynFilings(rows[..|rows| - 1], plotType) + [(LandsynKey(r), LandsynEntries(r, plotType))]
  }

  function SrewFilings(rows: seq<SrewRow>): seq<Filing>
  {
    if rows == [] then []
    else
      var r := rows[|rows| - 1];
      SrewFilings(rows[..|rows| - 1]) + [(SrewKey(r), SrewEntries(r))]
  }

  /** Filing creates exactly the keys of the rows: a row whose points are
      all dropped still leaves its key behind. */
  lemma {:induction false} FiledKeys(data: Data, filings: seq<Filing>, key: string)
    ensures key in Filed(data, filings) <==> key in data || exists i :: 0 <= i < |filings| && filings[i].0 == key
  {
    if filings != [] {
      var init := filings[..|filings| - 1];
      FiledKeys(data, init, key);
      if exists i :: 0 <= i < |filings| && filings[i].0 == key {
        var i :| 0 <= i < |filings| && filings[i].0 == key;
        if i < |init| {
          assert init[i] == filings[i];
        }
      }
      if exists i :: 0 <= i < |init| && init[i].0 == key {
        var i :| 0 <= i < |init| && init[i].0 == key;
        assert filings[i] == init[i];
      }
    }
  }

  /** Each key's list becomes what it held before, followed by the points
      filed under it, in order: nothing is removed or reordered. */
  lemma {:induction false} FiledLists(data: Data, filings: seq<Filing>, key: string)
    ensures Lookup(Filed(data, filings), key) == Lookup(data, key) + Collected(filings, key)
  {
    if filings != [] {
      FiledLists(data, filings[..|filings| - 1], key);
    }
  }

  /** Keys the rows do not use keep their lists. */
  lemma {:induction false} FiledElsewhere(data: Data, filings: seq<Filing>, key: string)
    requires forall i :: 0 <= i < |filings| ==> filings[i].0 != key
    ensures key in Filed(data, filings) <==> key in data
    ensures key in data ==> Filed(data, filings)[key] == data[key]
  {
    FiledKeys(data, filings, key);
    FiledLists(data, filings, key);
    CollectedNone(filings, key);
  }

  lemma {:induction false} CollectedNone(filings: seq<Filing>, key: string)
    requires forall i :: 0 <= i < |filings| ==> filings[i].0 != key
    ensures Collected(filings, key) == []
  {
    if filings != [] {
      CollectedNone(filings[..|filings| - 1], key);
    }
  }

  /** Every SREW point filed under a key comes from a row with that key
      whose amount is present and not negative. */
  lemma {:induction false} SrewCollectedFromRows(rows: seq<SrewRow>, key: string, p: StationData)
    requires p in Collected(SrewFilings(rows), key)
    ensures exists i :: (0 <= i < |rows| && SrewKey(rows[i]) == key
      && rows[i].precip == Present(p.value) && p.value >= 0.0)
  {
    var init := rows[..|rows| - 1];
    var r := rows[|rows| - 1];
    assert SrewFilings(rows) == SrewFilings(init) + [(SrewKey(r), SrewEntries(r))];
    if p in Collected(SrewFilings(init), key) {
      SrewCollectedFromRows(init, key, p);
      var i :| 0 <= i < |init| && SrewKey(init[i]) == key && init[i].precip == Present(p.value) && p.value >= 0.0;
      assert rows[i] == init[i];
    } else {
      assert SrewKey(r) == key && p in SrewEntries(r);
    }
  }

  // ---- A plot type's dictionary ----

  /** One entry of `datadicts`: its plot type, its source ('LANDSYN' or
      'SREW'), the time it resumes from and its time-keyed points. */
  class PlotDictionary {
    const plotType: string
    const obsDataType: string
    var startTime: string
    var data: Data

    /** The dictionary as the script declares it: start time "0000", no
        observations yet. */
    constructor (plotType: string, obsDataType: string)
      ensures this.plotType == plotType && this.obsDataType == obsDataType
      ensures startTime == "0000" && data == map[]
    {
      this.plotType := plotType;
      this.obsDataType := obsDataType;
      startTime := "0000";
      data := map[];
    }

    /** setStartTime: the times of the folder's maps of the date, then
        "0000" if there are none and otherwise the hour after the latest. */
    method SetStartTime(date: string, folder: seq<string>)
      requires IsDate(date)
      modifies this
      ensures startTime == ResumeTime(FileTimes(folder, date))
      ensures data == old(data)
    {
      var fileTimes: seq<nat> := [];
      for i := 0 to |folder|
        invariant fileTimes == FileTimes(folder[..i], date)
      {
        assert folder[..i + 1][..i] == folder[..i];
        var name := folder[i];
        if GlobMatches(name, date) {
          fileTimes := fileTimes + [FileTime(name)];
        }
      }
      assert folder[..|folder|] == folder;
      if fileTimes == [] {
        startTime := "0000";
      } else {
        startTime := Pad4(Latest(fileTimes) + 100);
      }
    }

    /** assignLandsynData: file each row under its key, appending the
        reading this plot type plots. */
    method AssignLandsynData(rows: seq<LandsynRow>)
      modifies this
      ensures data == Filed(old(data), LandsynFilings(rows, plotType))
      ensures startTime == old(startTime)
    {
      for i := 0 to |rows|
        invariant data == Filed(old(data), LandsynFilings(rows[..i], plotType))
        invariant startTime == old(startTime)
      {
        LandsynFilingsSnoc(rows, i, plotType);
        FiledSnoc(old(data), LandsynFilings(rows[..i], plotType), (LandsynKey(rows[i]), LandsynEntries(rows[i], plotType)));
        AssignLandsynRow(rows[i]);
      }
      assert rows[..|rows|] == rows;
    }

    /** The body of assignLandsynData's loop, for one row. */
    method AssignLandsynRow(r: LandsynRow)
      modifies this
      ensures data == File(old(data), LandsynKey(r), LandsynEntries(r, plotType))
      ensures startTime == old(startTime)
    {
      var key := NatToString(r.year) + Pad2(r.month) + Pad2(r.day) + Pad2(r.hour) + Pad2(r.minute);
      if key !in data {
        data := data[key := []];
      }
      ghost var list := data[key];
      ghost var added := [];
      if r.lat.Present? && r.lon.Present? {
        if r.temp.Present? && plotType == ScreenTemperature {
          var point := StationData(r.station, r.lat.value, r.lon.value, r.temp.value - 273.15);
          data := data[key := data[key] + [point]];
          added := added + [point];
        }
        if r.wind.Present? && plotType == WindSpeed {
          var point := StationData(r.station, r.lat.value, r.lon.value, r.wind.value * 1.944);
          data := data[key := data[key] + [point]];
          added := added + [point];
        }
        if r.vis.Present? && plotType == Visibility {
          var point := StationData(r.station, r.lat.value, r.lon.value, r.vis.value);
          data := data[key := data[key] + [point]];
          added := added + [point];
        }
      }
      assert data[key] == list + added;
      assert added == LandsynEntries(r, plotType);
    }

    /** assignSrewData: file each row under its hourly key, appending the
        amount when it is a measured one. */
    method AssignSrewData(rows: seq<SrewRow>)
      modifies this
      ensures data == Filed(old(data), SrewFilings(rows))
      ensures startTime == old(startTime)
    {
      for i := 0 to |rows|
        invariant data == Filed(old(data), SrewFilings(rows[..i]))
        invariant startTime == old(startTime)
      {
        SrewFilingsSnoc(rows, i);
        FiledSnoc(old(data), SrewFilings(rows[..i]), (SrewKey(rows[i]), SrewEntries(rows[i])));
        AssignSrewRow(rows[i]);
      }
      assert rows[..|rows|] == rows;
    }

    /** The body of assignSrewData's loop, for one row. */
    method AssignSrewRow(r: SrewRow)
      modifies this
      ensures data == File(old(data), SrewKey(r), SrewEntries(r))
      ensures startTime == old(startTime)
    {
      var key := NatToString(r.year) + Pad2(r.month) + Pad2(r.day) + Pad2(r.hour) + "00";
      if key !in data {
        data := data[key := []];
      }
      ghost var list := data[key];
      if r.lat.Present? && r.lon.Present? {
        if r.precip.Present? && r.precip.value >= 0.0 {
          data := data[key := data[key] + [StationData(r.station, r.lat.value, r.lon.value, r.precip.value)]];
        }
      }
      assert key == SrewKey(r);
      assert data[key] == list + SrewEntries(r);
    }
  }

  lemma FiledSnoc(data: Data, filings: seq<Filing>, f: Filing)
    ensures Filed(data, filings + [f]) == File(Filed(data, filings), f.0, f.1)
  {
    assert (filings + [f])[..|filings|] == filings;
  }

  lemma LandsynFilingsSnoc(rows: seq<LandsynRow>, i: nat, plotType: string)
    requires i < |rows|
    ensures LandsynFilings(rows[..i + 1], plotType)
      == LandsynFilings(rows[..i], plotType) + [(LandsynKey(rows[i]), LandsynEntries(rows[i], plotType))]
  {
    assert rows[..i + 1][..i] == rows[..i];
  }

  lemma SrewFilingsSnoc(rows: seq<SrewRow>, i: nat)
    requires i < |rows|
    ensures SrewFilings(rows[..i + 1]) == SrewFilings(rows[..i]) + [(SrewKey(rows[i]), SrewEntries(rows[i]))]
  {
    assert rows[..i + 1][..i] == rows[..i];
  }
}
