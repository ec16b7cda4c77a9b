/** Forecast time arithmetic of the dashboard (app/assets/javascripts/fiat.js):
    the hour buttons and their labels, the hour of day and day offset a model
    run plus a lead time fall on, the date the forecast is valid for and the
    headline above the plots. */
module TimeResolver {
  import opened Wrappers
  import opened Text
  import Calendar

  /** The last lead time that has a button (`MAXFORECASTVAL`). */
  const MaxForecastVal: nat := 120

  /** Buttons per collapsible section (`seperatorVal`). */
  const SeparatorVal: nat := 12

  // ---- Hour of day and day offset (CalculateFcstInformation) ----

  /** The hour of day, in UTC, of run hour + lead time h. */
  function ZuluHour(run: nat, h: nat): (z: nat)
    ensures z < 24
  {
    var t := run + h;
    if t >= 24 then t % 24 else t
  }

  /** `zuluTime` as it goes into a URL: the hour of day on two digits. */
  function ZuluTime(run: nat, h: nat): string
  {
    Pad2(ZuluHour(run, h))
  }

  /** Whole days between the run's date and the forecast's (`dateOffset`). */
  function DateOffset(run: nat, h: nat): nat
  {
    (run + h) / 24
  }

  /** Day offset and hour of day account for every hour of run + h, and they
      are the only day-and-hour pair that does. */
  lemma DayAndHourDecompose(run: nat, h: nat, k: int, z: int)
    ensures 24 * DateOffset(run, h) + ZuluHour(run, h) == run + h
    ensures 24 * k + z == run + h && 0 <= z < 24 ==> k == DateOffset(run, h) && z == ZuluHour(run, h)
  {
    if 24 * k + z == run + h && 0 <= z < 24 {
      assert (run + h) / 24 == k && (run + h) % 24 == z;
    }
  }

  /** The URL hour is two digits that read back as the hour of day. */
  lemma ZuluTimeDigits(run: nat, h: nat)
    ensures |ZuluTime(run, h)| == 2 && AllDigits(ZuluTime(run, h))
    ensures DigitsValue(ZuluTime(run, h)) == ZuluHour(run, h)
  {
    Pad2Digits(ZuluHour(run, h));
  }

  /** The 06Z run at t+90h is valid at 00Z four days later. */
  lemma Run06At90()
    ensures DateOffset(6, 90) == 4 && ZuluTime(6, 90) == "00"
  {
    assert ZuluHour(6, 90) == 0;
    assert NatToString(0) == "0";
    assert TakeLast("00", 2) == "00";
  }

  /** `paddedhourOffsetIdStr`: the lead time on at least two digits. */
  function PaddedOffset(h: nat): string
  {
    if h < 10 then "0" + NatToString(h) else NatToString(h)
  }

  /** The padded lead time is at least two digits and reads back as h. */
  lemma PaddedOffsetDigits(h: nat)
    ensures |PaddedOffset(h)| >= 2 && AllDigits(PaddedOffset(h))
    ensures DigitsValue(PaddedOffset(h)) == h
  {
    NatToStringRoundTrip(h);
    if h < 10 {
      DigitsValueAppend("0", NatToString(h));
    } else {
      if |NatToString(h)| < 2 {
        DigitsValueBound(NatToString(h));
      }
    }
  }

  lemma PaddedOffsetInjective(g: nat, h: nat)
    requires PaddedOffset(g) == PaddedOffset(h)
    ensures g == h
  {
    PaddedOffsetDigits(g);
    PaddedOffsetDigits(h);
  }

  // ---- The hour buttons (DrawFcstBtns) ----

  /** One hour button: its element id, whether it heads a collapsible
      section, and the section it belongs to. */
  datatype FcstButton = FcstButton(id: string, isHeader: bool, section: nat)

  /** `"FcstSel" + i`. */
  function ButtonId(i: nat): string
  {
    "FcstSel" + NatToString(i)
  }

  /** The lead time CalculateFcstInformation reads back from a button id:
      `parseInt(id.replace(/\D+/g, ''))`. */
  function HourOfButton(id: string): Option<nat>
  {
    ParseInt(DigitsOnly(id))
  }

  /** Stripping the non-digits from a button id gives the lead time back. */
  lemma ButtonIdRoundTrip(i: nat)
    ensures DigitsOnly(ButtonId(i)) == NatToString(i)
    ensures HourOfButton(ButtonId(i)) == Some(i)
  {
    DigitsOnlyAppend("FcstSel", NatToString(i));
    assert DigitsOnly("FcstSel") == [] by {
      assert !IsDigit('F');
      assert DigitsOnly("FcstSel") == DigitsOnly("cstSel");
      assert DigitsOnly("cstSel") == DigitsOnly("stSel");
      assert DigitsOnly("stSel") == DigitsOnly("tSel");
      assert DigitsOnly("tSel") == DigitsOnly("Sel");
      assert DigitsOnly("Sel") == DigitsOnly("el");
      assert DigitsOnly("el") == DigitsOnly("l");
      assert DigitsOnly("l") == DigitsOnly("");
    }
    DigitsOnlyOfDigits(NatToString(i));
    assert [] + NatToString(i) == NatToString(i);
    ParseIntOfDigits(NatToString(i));
    NatToStringRoundTrip(i);
  }

  /** Different lead times have different buttons. */
  lemma ButtonIdInjective(i: nat, j: nat)
    requires ButtonId(i) == ButtonId(j)
    ensures i == j
  {
    ButtonIdRoundTrip(i);
    ButtonIdRoundTrip(j);
  }

  /** The button drawn for lead time i. */
  function ButtonFor(i: nat): FcstButton
  {
    FcstButton(ButtonId(i), i % SeparatorVal == 0, i / SeparatorVal)
  }

  /** The text DrawFcstBtns writes on a button: `"+" + i + " hrs"`. */
  function InitialText(i: nat): string
  {
    "+" + NatToString(i) + " hrs"
  }

  /** The hour buttons DrawFcstBtns draws. */
  function AllButtons(): (buttons: seq<FcstButton>)
    ensures |buttons| == MaxForecastVal + 1
    ensures forall i :: 0 <= i <= MaxForecastVal ==> buttons[i] == ButtonFor(i)
  {
    seq(MaxForecastVal + 1, i requires 0 <= i => ButtonFor(i))
  }

  /** The texts DrawFcstBtns writes on the hour buttons. */
  function InitialTexts(): (texts: seq<string>)
    ensures |texts| == MaxForecastVal + 1
    ensures forall i :: 0 <= i <= MaxForecastVal ==> texts[i] == InitialText(i)
  {
    seq(MaxForecastVal + 1, i requires 0 <= i => InitialText(i))
  }

  /** DrawFcstBtns: one button per lead time 0..MaxForecastVal, every
      twelfth one heading a new section. */
  method DrawFcstBtns() returns (buttons: seq<FcstButton>, texts: seq<string>)
    ensures buttons == AllButtons() && texts == InitialTexts()
  {
    buttons, texts := [], [];
    var headerNumber := -1;
    var i := 0;
    while i <= MaxForecastVal
      invariant i <= MaxForecastVal + 1
      invariant |buttons| == |texts| == i
      invariant forall j :: 0 <= j < i ==> buttons[j] == ButtonFor(j) && texts[j] == InitialText(j)
    {
      var forecastStr := NatToString(i);
      headerNumber := i / SeparatorVal;
      var header := i % SeparatorVal == 0;
      buttons := buttons + [FcstButton("FcstSel" + forecastStr, header, headerNumber)];
      texts := texts + ["+" + forecastStr + " hrs"];
      i := i + 1;
    }
  }

  /** Every button sits in the section headed by the last header at or
      before it, twelve buttons to a section. */
  lemma SectionOfButton(i: nat)
    ensures var hd := SeparatorVal * (i / SeparatorVal);
      hd <= i < hd + SeparatorVal && ButtonFor(hd).isHeader && ButtonFor(hd).section == ButtonFor(i).section
  {
    var hd := SeparatorVal * (i / SeparatorVal);
    assert hd % SeparatorVal == 0 && hd / SeparatorVal == i / SeparatorVal;
  }

  // ---- The hour labels (UpdateFcstButtonText) ----

  /** `TimeInt`: the hour of day of run + i as the labels compute it. */
  function LabelHour(run: nat, i: nat): (t: nat)
    ensures t < 24
  {
    var t := run + i;
    if t > 23 then t % 24 else t
  }

  /** The label of the button for lead time i once a model run is chosen:
      `"+" + i + " hrs - " + ("00" + TimeInt).slice(-2) + "00"`. */
  function FcstButtonText(run: nat, i: nat): string
  {
    "+" + NatToString(i) + " hrs - " + TakeLast("00" + NatToString(LabelHour(run, i)), 2) + "00"
  }

  /** An hour below 100 padded from "00" is the same as padded from "0". */
  lemma DoublePadIsPad2(t: nat)
    requires t < 100
    ensures TakeLast("00" + NatToString(t), 2) == Pad2(t)
  {
    if t < 10 {
      NatToStringLength(t, 1);
    } else {
      NatToStringLength(t, 2);
    }
    DoublePadShort(NatToString(t));
  }

  lemma DoublePadShort(s: string)
    requires 1 <= |s| <= 2
    ensures TakeLast("00" + s, 2) == TakeLast("0" + s, 2)
  {
    if |s| == 1 {
      assert ("00" + s)[1..] == "0" + s;
    } else {
      assert ("00" + s)[2..] == s == ("0" + s)[1..];
    }
  }

  /** A label is the button's first text followed by " - " and the time of
      day it is valid at, in the form the URLs use. */
  lemma LabelExtendsInitialText(run: nat, i: nat)
    ensures FcstButtonText(run, i) == InitialText(i) + " - " + ZuluTime(run, i) + "00"
  {
    DoublePadIsPad2(LabelHour(run, i));
    assert LabelHour(run, i) == ZuluHour(run, i);
  }

  /** `clickedBtn.innerHTML.slice(-4)`: the last four characters of a label
      are the hour of day in URL form followed by "00". */
  lemma LabelTimeIsZulu(run: nat, i: nat)
    ensures TakeLast(FcstButtonText(run, i), 4) == ZuluTime(run, i) + "00"
  {
    LabelExtendsInitialText(run, i);
    ZuluTimeDigits(run, i);
    var t := FcstButtonText(run, i);
    var tail := ZuluTime(run, i) + "00";
    assert t == (InitialText(i) + " - ") + tail;
    assert t[|t| - 4..] == tail;
  }

  lemma LabelFromHour(run: nat, i: nat, timeInt: nat, timeStr: string)
    requires timeInt == LabelHour(run, i)
    requires timeStr == TakeLast("00" + NatToString(timeInt), 2) + "00"
    ensures "+" + NatToString(i) + " hrs - " + timeStr == FcstButtonText(run, i)
  {
  }

  /** The hour-button labels for a model run. */
  function ButtonLabels(run: nat): (labels: seq<string>)
    ensures |labels| == MaxForecastVal + 1
    ensures forall i :: 0 <= i <= MaxForecastVal ==> labels[i] == FcstButtonText(run, i)
  {
    seq(MaxForecastVal + 1, i requires 0 <= i => FcstButtonText(run, i))
  }

  /** UpdateFcstButtonText: the labels of all buttons for a model run. */
  method UpdateFcstButtonText(run: nat) returns (texts: seq<string>)
    ensures texts == ButtonLabels(run)
  {
    texts := [];
    var i := 0;
    while i <= MaxForecastVal
      invariant i <= MaxForecastVal + 1
      invariant |texts| == i
      invariant forall j :: 0 <= j < i ==> texts[j] == FcstButtonText(run, j)
    {
      var timeInt := run + i;
      if timeInt > 23 {
        timeInt := timeInt % 24;
      }
      var timeStr := TakeLast("00" + NatToString(timeInt), 2) + "00";
      var text := "+" + NatToString(i) + " hrs - " + timeStr;
      LabelFromHour(run, i, timeInt, timeStr);
      texts := texts + [text];
      i := i + 1;
    }
  }

  // ---- The date the forecast is valid for ----

  /** `forecastDate` and `obsDate`. */
  datatype ForecastDay = ForecastDay(forecastDate: string, obsDate: Option<string>)

  /** The date dateOffset days after the selected one: read from the date
      dropdown when it lists it, otherwise computed from the last listed
      date by `calculateDate`, with no observations. */
  function ResolveForecastDay(dates: seq<string>, dateIndex: nat, offset: nat,
                              calculateDate: (string, nat) -> string): (r: ForecastDay)
    requires dateIndex < |dates|
    ensures r.obsDate.Some? <==> dateIndex + offset < |dates|
    ensures r.obsDate.Some? ==> r.obsDate.value == r.forecastDate == dates[dateIndex + offset]
    ensures r.obsDate.None? ==> r.forecastDate == calculateDate(dates[|dates| - 1], offset)
  {
    if dateIndex + offset < |dates| then
      var d := dates[dateIndex + offset];
      ForecastDay(d, Some(d))
    else
      ForecastDay(calculateDate(dates[|dates| - 1], offset), None)
  }

  /** Dates listed in strictly increasing numeric order. */
  predicate Ascending(dates: seq<string>)
  {
    (forall i :: 0 <= i < |dates| ==> |dates[i]| == 8 && AllDigits(dates[i]))
    && forall i, j :: 0 <= i < j < |dates| ==> DigitsValue(dates[i]) < DigitsValue(dates[j])
  }

  /** With ascending dates, observations are shown for the selected date or
      a later one, and for the selected date exactly when the offset is 0;
      a run's own day (offset 0) always has observations. */
  lemma ObservedDayNotBefore(dates: seq<string>, dateIndex: nat, offset: nat,
                             calculateDate: (string, nat) -> string)
    requires dateIndex < |dates| && Ascending(dates)
    ensures offset == 0 ==> ResolveForecastDay(dates, dateIndex, offset, calculateDate).obsDate == Some(dates[dateIndex])
    ensures var r := ResolveForecastDay(dates, dateIndex, offset, calculateDate);
      r.obsDate.Some? ==>
        DigitsValue(dates[dateIndex]) <= DigitsValue(r.obsDate.value)
        && (r.obsDate.value == dates[dateIndex] <==> offset == 0)
  {
  }

  // ---- The headline (FcstInfo) ----

  /** `getDayInText(new Date(year, month - 1, day).getDay())` for the parts
      of a YYYYMMDD string; a part that is not a number makes an invalid
      date, whose weekday has no name. */
  function DayName(date: string): Option<string>
  {
    match (ParseInt(Slice(date, 0, 4)), ParseInt(Slice(date, 4, 6)), ParseInt(Slice(date, 6, 8)))
    case (Some(y), Some(m), Some(d)) => Calendar.DayInText(Calendar.DateWeekday(y, (m as int) - 1, d))
    case _ => None
  }

  /** The text above the plots:
      `dayInText + " " + Time + "Z" + " " + Day/Month/Year + " (t+" + h + "h)"`. */
  function Headline(forecastDate: string, time: string, h: nat): string
  {
    var year := Slice(forecastDate, 0, 4);
    var month := Slice(forecastDate, 4, 6);
    var day := Slice(forecastDate, 6, 8);
    Show(DayName(forecastDate)) + " " + time + "Z" + " " + day + "/" + month + "/" + year + " " + "(t+" + NatToString(h) + "h)"
  }

  /** The headline starts with the name of the forecast date's weekday. */
  lemma HeadlineStartsWithDay(forecastDate: string, time: string, h: nat)
    ensures var day := Show(DayName(forecastDate));
      |Headline(forecastDate, time, h)| >= |day| && Headline(forecastDate, time, h)[..|day|] == day
  {
    HeadlinePrefix(Show(DayName(forecastDate)), time, Slice(forecastDate, 6, 8), Slice(forecastDate, 4, 6),
                   Slice(forecastDate, 0, 4), NatToString(h));
  }

  lemma HeadlinePrefix(name: string, time: string, d: string, m: string, y: string, hs: string)
    ensures var t := name + " " + time + "Z" + " " + d + "/" + m + "/" + y + " " + "(t+" + hs + "h)";
      |t| >= |name| && t[..|name|] == name
  {
    var rest := " " + time + "Z" + " " + d + "/" + m + "/" + y + " " + "(t+" + hs + "h)";
    assert name + " " + time + "Z" + " " + d + "/" + m + "/" + y + " " + "(t+" + hs + "h)" == name + rest;
  }

  /** The weekday of a YYYYMMDD date key. */
  function KeyWeekday(key: string): (w: nat)
    requires |key| == 8 && AllDigits(key)
    ensures w < 7
  {
    Calendar.DateWeekday(DigitsValue(key[..4]), DigitsValue(key[4..6]) - 1, DigitsValue(key[6..8]))
  }

  /** For a date key the headline always names the weekday (never
      "undefined") and writes the date day first. */
  lemma HeadlineOfDateKey(key: string, time: string, h: nat)
    requires |key| == 8 && AllDigits(key)
    ensures DayName(key) == Some(Calendar.DaysOfWeek[KeyWeekday(key)])
    ensures Headline(key, time, h) ==
      Calendar.DaysOfWeek[KeyWeekday(key)] + " " + time + "Z " + key[6..8] + "/" + key[4..6] + "/" + key[..4]
      + " (t+" + NatToString(h) + "h)"
  {
    ParseIntOfDigits(key[..4]);
    ParseIntOfDigits(key[4..6]);
    ParseIntOfDigits(key[6..8]);
    assert Slice(key, 0, 4) == key[..4];
    assert DayName(key) == Some(Calendar.DaysOfWeek[KeyWeekday(key)]);
  }

  lemma KeyWeekday20160823(key: string)
    requires key == "20160823"
    ensures |key| == 8 && AllDigits(key)
    ensures key[..4] == "2016" && key[4..6] == "08" && key[6..8] == "23"
    ensures KeyWeekday(key) == 2
  {
    assert key[..4] == "2016" && key[4..6] == "08" && key[6..8] == "23";
    assert DigitsValue("2") == 2;
    assert "20"[..1] == "2" && "201"[..2] == "20" && "2016"[..3] == "201";
    assert DigitsValue("20") == 20;
    assert DigitsValue("201") == 201;
    assert DigitsValue("2016") == 2016;
    assert "08"[..1] == "0" && "23"[..1] == "2";
    assert DigitsValue("08") == 8;
    assert DigitsValue("23") == 23;
    Calendar.Weekday20160823();
  }

  lemma FirstHeadlineText(name: string, time: string, d: string, m: string, y: string, hs: string)
    requires name == "Tuesday" && time == "0000" && d == "23" && m == "08" && y == "2016" && hs == "0"
    ensures name + " " + time + "Z " + d + "/" + m + "/" + y + " (t+" + hs + "h)" == "Tuesday 0000Z 23/08/2016 (t+0h)"
  {
  }

  /** The first plot of the shipped catalogue: 00Z on 23 August 2016, a Tuesday. */
  lemma FirstHeadline(key: string, time: string)
    requires key == "20160823" && time == "0000"
    ensures Headline(key, time, 0) == "Tuesday 0000Z 23/08/2016 (t+0h)"
  {
    KeyWeekday20160823(key);
    HeadlineOfDateKey(key, time, 0);
    assert Calendar.DaysOfWeek[2] == "Tuesday";
    assert NatToString(0) == "0";
    FirstHeadlineText(Calendar.DaysOfWeek[KeyWeekday(key)], time, key[6..8], key[4..6], key[..4], NatToString(0));
  }
}
