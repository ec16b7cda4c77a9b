/** The dashboard of app/assets/javascripts/fiat.js as values: the globals and
    page elements its event handlers read and write, what each handler makes
    of them, and the invariants the handlers keep. The page object of the
    Dashboard module runs the handlers step by step and is proved to follow
    these definitions. */
module PageModel {
  import opened Wrappers
  import opened Text
  import opened Catalogue
  import opened TimeResolver
  import opened Tabs
  import opened Availability
  import opened Urls

  // ---- Steps and the satellite highlight ----

  /** The two hour-step buttons and arrow keys (`changeHour`). */
  datatype HourStep = MinusHour | PlusHour

  /** The two date-step buttons (`changeDate`). */
  datatype DateStep = MinusDate | PlusDate

  /** The hour button changeHour selects: the next or previous one, if any. */
  function StepHour(h: nat, step: HourStep): (r: nat)
    requires h <= MaxForecastVal
    ensures r <= MaxForecastVal
    ensures step == PlusHour ==> r == if h < MaxForecastVal then h + 1 else h
    ensures step == MinusHour ==> r == if h > 0 then h - 1 else h
  {
    match step
    case PlusHour => if h + 1 != MaxForecastVal + 1 then h + 1 else h
    case MinusHour => if h != 0 then h - 1 else h
  }

  /** Stepping forward and then back returns to the same hour, except from
      the last one. */
  lemma StepHourRoundTrip(h: nat)
    requires h <= MaxForecastVal
    ensures h < MaxForecastVal ==> StepHour(StepHour(h, PlusHour), MinusHour) == h
    ensures h > 0 ==> StepHour(StepHour(h, MinusHour), PlusHour) == h
  {
  }

  /** The date changeDate selects: the next or previous one, if any. */
  function StepDate(i: nat, n: nat, step: DateStep): (r: nat)
    requires i < n
    ensures r < n
    ensures step == PlusDate ==> r == if i < n - 1 then i + 1 else i
    ensures step == MinusDate ==> r == if i > 0 then i - 1 else i
  {
    if step == PlusDate && i < n - 1 then i + 1
    else if step == MinusDate && i > 0 then i - 1
    else i
  }

  /** The Cloud tab's highlighted satellite button right after
      DrawCloudObsButtons, as written: always Cloud Top. */
  function DrawnCloudObsHighlight(cloudObsType: CloudObs): CloudObs
  {
    CloudTop
  }

  /** The highlight after drawing the satellite buttons, corrected: the
      product whose image is shown. */
  function CloudObsHighlight(cloudObsType: CloudObs): (r: CloudObs)
    ensures r == cloudObsType
  {
    cloudObsType
  }

  /** The image sources of a pane depend on the chosen model only through
      the forecast image. */
  lemma PaneUrlsModel(t: Tab, a: Model, b: Model, cloud: CloudObs, m: Moment)
    ensures PaneUrls(t, b, cloud, m) ==
      PaneUrls(t, a, cloud, m)[ForecastImgId(t) := ForecastUrl(b, t, FcstFilename(t).value, m)]
  {
    ForecastImgIds();
  }

  /** The image sources of the Cloud pane depend on the satellite product
      only through the satellite image. */
  lemma PaneUrlsCloudObs(model: Model, a: CloudObs, b: CloudObs, m: Moment)
    ensures PaneUrls(Cloud, model, b, m) == PaneUrls(Cloud, model, a, m)["cloudObsImg" := CloudObsUrl(b, m)]
  {
  }

  // ---- What the page draws ----

  /** The values of the date dropdown's options. */
  function DateValues(options: seq<DateOption>): (dates: seq<string>)
    ensures |dates| == |options|
    ensures forall i :: 0 <= i < |options| ==> dates[i] == options[i].value
  {
    seq(|options|, i requires 0 <= i < |options| => options[i].value)
  }

  /** The slider button's text for a value of `SliderEnabled`. */
  function SliderText(sliderEnabled: nat): string
  {
    if sliderEnabled == 1 then "Slider [Enabled]" else "Slider [Disabled]"
  }

  // ---- The page state ----

  /** The globals of fiat.js and the page elements the handlers change. */
  datatype PageState = PageState(
    /** `DateModelRun`. */
    catalogue: seq<Entry>,
    /** The date dropdown's options and selected index. */
    dateOptions: seq<DateOption>,
    dateIndex: nat,
    /** The model-run dropdown's options and selected index. */
    runOptions: seq<string>,
    runIndex: nat,
    /** The hour buttons, their labels and the active one. */
    buttons: seq<FcstButton>,
    buttonTexts: seq<string>,
    activeHour: nat,
    selectedTab: Tab,
    /** `chosenModel` and whether the UKV button is disabled. */
    chosenModel: Model,
    ukvDisabled: bool,
    /** `cloudObsType` and the satellite button shown as chosen. */
    cloudObsType: CloudObs,
    cloudObsHighlight: CloudObs,
    /** `SliderEnabled` and the slider button's text. */
    sliderEnabled: nat,
    sliderText: string,
    /** The globals CalculateFcstInformation sets for the URL builders, and
        `dateOffset`. */
    moment: Moment,
    dateOffset: nat,
    /** The headline above the plots (`FcstInfo.textContent`). */
    fcstInfo: string,
    /** The source of every image of the pane, by element id. */
    imageSrcs: map<string, string>,
    /** The caption under the forecast image. */
    forecastCaption: string)

  /** The drawn page: the date dropdown lists a well-formed catalogue, one of
      its dates is selected and the hour buttons exist. */
  predicate Drawn(s: PageState)
  {
    && WellFormed(s.catalogue) && s.dateOptions == DateOptionsFor(s.catalogue)
    && s.dateIndex < |s.catalogue| && s.buttons == AllButtons()
  }

  /** The model-run dropdown lists the runs of the selected date and one of
      them is selected. */
  predicate Selected(s: PageState)
  {
    && Drawn(s) && s.runOptions == ModelRunsOf(s.catalogue[s.dateIndex])
    && s.runIndex < |s.runOptions| && IsRunOption(s.runOptions[s.runIndex])
  }

  /** `parseInt` of the selected model run. */
  function Run(s: PageState): nat
    requires Selected(s)
  {
    DigitsValue(s.runOptions[s.runIndex])
  }

  /** The hour buttons carry the labels of the selected run. */
  predicate Labelled(s: PageState)
  {
    Selected(s) && s.buttonTexts == ButtonLabels(Run(s))
  }

  /** A disabled UKV button goes with Euro4, the highlighted satellite button
      is the chosen product, and only images of the current pane have
      sources. */
  predicate Settled(s: PageState)
  {
    && Consistent(Choice(s.chosenModel, s.ukvDisabled))
    && s.cloudObsHighlight == s.cloudObsType
    && (forall id :: id in s.imageSrcs ==> id in ImgIds(s.selectedTab))
  }

  /** The slider button's text matches `SliderEnabled`. */
  predicate SliderShown(s: PageState)
  {
    s.sliderEnabled <= 1 && s.sliderText == SliderText(s.sliderEnabled)
  }

  /** The invariant of the page between events: the dropdowns, the hour
      buttons and their labels agree with the catalogue and the selection,
      an hour is active, and the model choice, the satellite highlight, the
      pane's images and the slider text are consistent. */
  predicate Valid(s: PageState)
  {
    Labelled(s) && s.activeHour <= MaxForecastVal && Settled(s) && SliderShown(s)
  }

  /** The globals CalculateFcstInformation leaves for the selection: the
      lead time and its padded form, the Zulu hour, the clock time, the
      number of days from the run to the forecast, and the forecast date,
      which is the catalogue date that many days after the selected one, and
      then also the observation date, when the catalogue has it. */
  predicate MomentResolved(s: PageState)
    requires Selected(s)
  {
    var m := s.moment;
    && m.selectedDate == s.dateOptions[s.dateIndex].value
    && m.modelRunStr == s.runOptions[s.runIndex]
    && m.hourOffsetStr == NatToString(s.activeHour)
    && m.paddedHourOffsetStr == PaddedOffset(s.activeHour)
    && m.zuluTime == ZuluTime(Run(s), s.activeHour)
    && m.time == m.zuluTime + "00"
    && s.dateOffset == DateOffset(Run(s), s.activeHour)
    && (m.obsDate.Some? <==> s.dateIndex + s.dateOffset < |s.dateOptions|)
    && (m.obsDate.Some? ==> m.obsDate.value == m.forecastDate == s.dateOptions[s.dateIndex + s.dateOffset].value)
  }

  /** The model availability, the source of every image of the pane and the
      forecast caption agree with the hour and the globals. */
  predicate Shown(s: PageState)
  {
    && s.ukvDisabled == (s.activeHour > UkvHorizon)
    && s.imageSrcs == PaneUrls(s.selectedTab, s.chosenModel, s.cloudObsType, s.moment)
    && s.forecastCaption == ModelName(s.chosenModel) + " Forecast"
  }

  /** What CalculateFcstInformation and UpdateImgURLs leave: the globals,
      the headline, the model availability and the source of every image of
      the pane agree with the selection. */
  predicate Resolved(s: PageState)
    requires Selected(s)
  {
    && MomentResolved(s)
    && s.fcstInfo == Headline(s.moment.forecastDate, s.moment.time, s.activeHour)
    && Shown(s)
  }

  // ---- The handlers ----

  /** UpdateImgURLs: set the sources of the pane's images, apply the UKV
      horizon and set the forecast image (setForecastImg) and its caption.
      The caption is the corrected one, naming the chosen model on every
      tab; CaptionAsWritten is the code's. */
  function PaneUpdated(s: PageState): PageState
  {
    var c := ApplyHorizon(Choice(s.chosenModel, s.ukvDisabled), s.activeHour);
    s.(imageSrcs := PaneSources(s.imageSrcs, s.selectedTab, c.chosen, s.cloudObsType, s.moment),
       chosenModel := c.chosen, ukvDisabled := c.ukvDisabled,
       forecastCaption := ModelName(c.chosen) + " Forecast")
  }

  /** CalculateFcstInformation up to its call of UpdateImgURLs: the URL
      parts, the forecast and observation dates and the headline for the
      active hour. `calculateDate` stands for fiat.js's calculateDate, which
      reads the wall clock. */
  function Computed(s: PageState, calculateDate: (string, nat) -> string): PageState
    requires Labelled(s)
  {
    var run := Run(s);
    var h := s.activeHour;
    var offset := DateOffset(run, h);
    var day := ResolveForecastDay(DateValues(s.dateOptions), s.dateIndex, offset, calculateDate);
    var m := MomentFor(s.dateOptions[s.dateIndex].value, s.runOptions[s.runIndex], run, h, day);
    s.(moment := m, dateOffset := offset, fcstInfo := Headline(m.forecastDate, m.time, h))
  }

  /** CalculateFcstInformation, ending with UpdateImgURLs. */
  function Calculated(s: PageState, calculateDate: (string, nat) -> string): PageState
    requires Labelled(s)
  {
    PaneUpdated(Computed(s, calculateDate))
  }

  /** SetActiveFcstBtn: make hour h's button the active one and recompute. */
  function SetActive(s: PageState, h: nat, calculateDate: (string, nat) -> string): PageState
    requires Labelled(s)
  {
    Calculated(s.(activeHour := h), calculateDate)
  }

  /** PopulateModelRunDropdown: list the model runs of the selected date;
      the dropdown then selects the first. */
  function RunsListed(s: PageState): PageState
    requires Drawn(s)
  {
    s.(runOptions := ModelRunsOf(s.catalogue[s.dateIndex]), runIndex := 0)
  }

  /** The relabelling part of UpdateFcstButtonText. */
  function Labels(s: PageState): PageState
    requires Selected(s)
  {
    s.(buttonTexts := ButtonLabels(Run(s)))
  }

  /** UpdateFcstButtonText once an hour button is active: relabel and
      reselect the active hour. */
  function Relabelled(s: PageState, calculateDate: (string, nat) -> string): PageState
    requires Selected(s)
  {
    SetActive(Labels(s), s.activeHour, calculateDate)
  }

  /** changeHour: select the next or previous hour button, if there is one. */
  function HourStepped(s: PageState, step: HourStep, calculateDate: (string, nat) -> string): PageState
    requires Labelled(s) && s.activeHour <= MaxForecastVal
  {
    var h := StepHour(s.activeHour, step);
    if h != s.activeHour then SetActive(s, h, calculateDate) else s
  }

  /** A date picked in the date dropdown: relist the model runs and
      relabel. */
  function DateSelected(s: PageState, i: nat, calculateDate: (string, nat) -> string): PageState
    requires Drawn(s) && i < |s.dateOptions|
  {
    Relabelled(RunsListed(s.(dateIndex := i)), calculateDate)
  }

  /** changeDate: select the next or previous date, if there is one, then
      relist the model runs and relabel, as for a picked date. */
  function DateStepped(s: PageState, step: DateStep, calculateDate: (string, nat) -> string): PageState
    requires Drawn(s)
  {
    DateSelected(s, StepDate(s.dateIndex, |s.dateOptions|, step), calculateDate)
  }

  /** A model run picked in the model-run dropdown: relabel. */
  function RunSelected(s: PageState, j: nat, calculateDate: (string, nat) -> string): PageState
    requires Selected(s) && j < |s.runOptions|
  {
    Relabelled(s.(runIndex := j), calculateDate)
  }

  /** ClearPaneContent and DrawPaneContent: the pane of tab t with no image
      sources yet, fresh model buttons (UKV enabled) captioned with the
      chosen model and, on the Cloud tab, the satellite buttons with the
      Cloud Top image. */
  function PaneDrawn(s: PageState, t: Tab): PageState
  {
    var srcs: map<string, string> :=
      if t == Cloud then ImageCheck(map[], ImgIds(t), "cloudObsImg", CloudObsUrl(CloudTop, s.moment)) else map[];
    var highlight := if t == Cloud then CloudObsHighlight(s.cloudObsType) else s.cloudObsHighlight;
    s.(selectedTab := t, imageSrcs := srcs, ukvDisabled := false, cloudObsHighlight := highlight,
       forecastCaption := ModelName(s.chosenModel) + " Forecast")
  }

  /** SelectTab: draw the tab's pane, then reselect the active hour. */
  function TabSelected(s: PageState, t: Tab, calculateDate: (string, nat) -> string): PageState
    requires Labelled(s)
  {
    SetActive(PaneDrawn(s, t), s.activeHour, calculateDate)
  }

  /** A click on the UKV or Euro4 button: a disabled button does nothing;
      otherwise the model is chosen and the forecast image replaced, under
      the corrected caption (ModelClickedAsWritten is the code's). */
  function ModelClicked(s: PageState, model: Model): PageState
  {
    if model == UKV && s.ukvDisabled then s
    else s.(chosenModel := model, imageSrcs := SetForecastImg(s.imageSrcs, s.selectedTab, model, s.moment),
            forecastCaption := ModelName(model) + " Forecast")
  }

  /** A click on a satellite button of the Cloud tab: that product is
      chosen, highlighted and shown (setCloudObsImg). */
  function CloudObsClicked(s: PageState, o: CloudObs): PageState
  {
    s.(cloudObsType := o, cloudObsHighlight := o,
       imageSrcs := ImageCheck(s.imageSrcs, ImgIds(s.selectedTab), "cloudObsImg", CloudObsUrl(o, s.moment)))
  }

  /** `SliderEnabled ^= 1`. */
  function ToggleBit(n: nat): (r: nat)
    ensures n <= 1 ==> r == 1 - n
  {
    if n % 2 == 0 then n + 1 else n - 1
  }

  /** SliderActivation: set the button's text, then toggle `SliderEnabled`. */
  function SliderToggled(s: PageState): PageState
  {
    s.(sliderText := if s.sliderEnabled == 1 then "Slider [Disabled]" else "Slider [Enabled]",
       sliderEnabled := ToggleBit(s.sliderEnabled))
  }

  /** The globals that init's handlers set, before they first run. */
  const Unset: Moment := Moment("", "", "", "", "", "", None, "")

  /** windowLoaded: the page drawn, the first date selected, the hour buttons
      with their first texts, Euro4 chosen, Cloud Top as the satellite
      product and the slider off. */
  function Loaded(catalogue: seq<Entry>): PageState
  {
    PageState(catalogue, DateOptionsFor(catalogue), 0, [], 0, AllButtons(), InitialTexts(), 0,
              Precipitation, Euro4, false, CloudTop, CloudTop, 0, SliderText(0), Unset, 0, "", map[], "")
  }

  /** init: list the first date's model runs and select the first, label
      the hour buttons (no button is active yet, so nothing is recomputed),
      select the first tab, which selects the t+0h button, and select the
      t+0h button again. */
  function Initial(catalogue: seq<Entry>, calculateDate: (string, nat) -> string): PageState
    requires WellFormed(catalogue)
  {
    var s := Labels(RunsListed(Loaded(catalogue)));
    SetActive(TabSelected(s, Precipitation, calculateDate), 0, calculateDate)
  }

  // ---- What the handlers keep ----

  /** UpdateImgURLs on a settled page: after the horizon rule and
      setForecastImg every image of the pane has its URL, the page is still
      settled, UKV stays chosen within its horizon, and nothing else
      changes. */
  lemma PaneUpdatedShown(s: PageState)
    requires Settled(s)
    ensures var r := PaneUpdated(s);
      && Settled(r) && Shown(r)
      && r.chosenModel == (if s.activeHour > UkvHorizon then Euro4 else s.chosenModel)
      && r.(imageSrcs := s.imageSrcs, chosenModel := s.chosenModel, ukvDisabled := s.ukvDisabled,
            forecastCaption := s.forecastCaption) == s
  {
    var c := ApplyHorizon(Choice(s.chosenModel, s.ukvDisabled), s.activeHour);
    HorizonRule(Choice(s.chosenModel, s.ukvDisabled), s.activeHour);
    PaneSourcesCoverPane(s.imageSrcs, s.selectedTab, c.chosen, s.cloudObsType, s.moment);
  }

  /** What CalculateFcstInformation computes step by step on a labelled
      page agrees with the definitions above: the lead time read back from
      the active button's id, the run parsed from its option and the last
      four characters of the button's label. */
  lemma ReadBack(s: PageState)
    requires Labelled(s) && s.activeHour <= MaxForecastVal
    ensures DigitsOnly(s.buttons[s.activeHour].id) == NatToString(s.activeHour)
    ensures ParseInt(NatToString(s.activeHour)) == Some(s.activeHour)
    ensures ParseInt(s.runOptions[s.runIndex]) == Some(Run(s))
    ensures TakeLast(s.buttonTexts[s.activeHour], 4) == ZuluTime(Run(s), s.activeHour) + "00"
  {
    ButtonIdRoundTrip(s.activeHour);
    ParseIntOfDigits(s.runOptions[s.runIndex]);
    LabelTimeIsZulu(Run(s), s.activeHour);
  }

  /** Validity does not depend on the globals CalculateFcstInformation
      computes. */
  lemma ValidIgnoresGlobals(s: PageState, r: PageState)
    requires Valid(s) && r.(moment := s.moment, dateOffset := s.dateOffset, fcstInfo := s.fcstInfo) == s
    ensures Valid(r)
  {
    assert r.catalogue == s.catalogue && r.dateIndex == s.dateIndex && r.runOptions == s.runOptions;
  }

  /** A page showing its pane holds only images of the selected tab. */
  lemma ShownSettles(s: PageState)
    requires Shown(s) && Consistent(Choice(s.chosenModel, s.ukvDisabled))
    requires s.cloudObsHighlight == s.cloudObsType
    ensures Settled(s)
  {
    PaneSourcesCoverPane(map[], s.selectedTab, s.chosenModel, s.cloudObsType, s.moment);
  }

  /** The labels depend only on the dropdowns and the hour buttons. */
  lemma LabelledFrame(s: PageState, r: PageState)
    requires Labelled(s)
    requires r.catalogue == s.catalogue && r.dateOptions == s.dateOptions && r.dateIndex == s.dateIndex
    requires r.runOptions == s.runOptions && r.runIndex == s.runIndex
    requires r.buttons == s.buttons && r.buttonTexts == s.buttonTexts
    ensures Labelled(r) && Run(r) == Run(s)
  {
  }

  /** The computed globals and the headline depend only on the selection
      and on themselves. */
  lemma MomentFrame(s: PageState, r: PageState)
    requires Selected(s) && MomentResolved(s)
    requires s.fcstInfo == Headline(s.moment.forecastDate, s.moment.time, s.activeHour)
    requires r.catalogue == s.catalogue && r.dateOptions == s.dateOptions && r.dateIndex == s.dateIndex
    requires r.runOptions == s.runOptions && r.runIndex == s.runIndex && r.buttons == s.buttons
    requires r.activeHour == s.activeHour && r.moment == s.moment && r.dateOffset == s.dateOffset
    requires r.fcstInfo == s.fcstInfo
    ensures Selected(r) && MomentResolved(r)
    ensures r.fcstInfo == Headline(r.moment.forecastDate, r.moment.time, r.activeHour)
  {
    assert Run(r) == Run(s);
  }

  /** CalculateFcstInformation changes nothing but the globals it computes,
      so the page stays valid. */
  lemma ComputedValid(s: PageState, calculateDate: (string, nat) -> string)
    requires Valid(s)
    ensures var r := Computed(s, calculateDate);
      Valid(r) && r.(moment := s.moment, dateOffset := s.dateOffset, fcstInfo := s.fcstInfo) == s
  {
    var r := Computed(s, calculateDate);
    assert r.(moment := s.moment, dateOffset := s.dateOffset, fcstInfo := s.fcstInfo) == s;
    ValidIgnoresGlobals(s, r);
  }

  /** The globals CalculateFcstInformation computes are the ones
      MomentResolved describes. */
  lemma ComputedMoment(s: PageState, calculateDate: (string, nat) -> string)
    requires Labelled(s)
    ensures MomentResolved(Computed(s, calculateDate))
  {
    var run, h := Run(s), s.activeHour;
    var offset := DateOffset(run, h);
    var day := ResolveForecastDay(DateValues(s.dateOptions), s.dateIndex, offset, calculateDate);
    var r := Computed(s, calculateDate);
    LabelledFrame(s, r);
    assert r.moment == MomentFor(s.dateOptions[s.dateIndex].value, s.runOptions[s.runIndex], run, h, day);
    assert Run(r) == run && r.activeHour == h && r.dateOffset == offset && r.dateOptions == s.dateOptions;
  }

  /** The globals CalculateFcstInformation computes are the resolved ones,
      and so is the headline; a forecast date past the catalogue comes from
      `calculateDate`, counted from the last listed date; nothing else
      changes. */
  lemma ComputedResolves(s: PageState, calculateDate: (string, nat) -> string)
    requires Valid(s)
    ensures var r := Computed(s, calculateDate);
      && Valid(r) && MomentResolved(r) && r.fcstInfo == Headline(r.moment.forecastDate, r.moment.time, r.activeHour)
      && (r.moment.obsDate.None? ==>
            r.moment.forecastDate == calculateDate(s.dateOptions[|s.dateOptions| - 1].value, r.dateOffset))
      && r.(moment := s.moment, dateOffset := s.dateOffset, fcstInfo := s.fcstInfo) == s
  {
    var run, h := Run(s), s.activeHour;
    var offset := DateOffset(run, h);
    var day := ResolveForecastDay(DateValues(s.dateOptions), s.dateIndex, offset, calculateDate);
    var r := Computed(s, calculateDate);
    ComputedValid(s, calculateDate);
    ComputedMoment(s, calculateDate);
    ComputedFallback(s, calculateDate);
    assert r.fcstInfo == Headline(r.moment.forecastDate, r.moment.time, r.activeHour);
  }

  /** Past the catalogue, the forecast date counts from the last listed
      date. */
  lemma ComputedFallback(s: PageState, calculateDate: (string, nat) -> string)
    requires Valid(s)
    ensures var r := Computed(s, calculateDate);
      r.moment.obsDate.None? ==>
        r.moment.forecastDate == calculateDate(s.dateOptions[|s.dateOptions| - 1].value, r.dateOffset)
  {
    var run, h := Run(s), s.activeHour;
    var offset := DateOffset(run, h);
    var dates := DateValues(s.dateOptions);
    var day := ResolveForecastDay(dates, s.dateIndex, offset, calculateDate);
    var r := Computed(s, calculateDate);
    assert r.moment == MomentFor(s.dateOptions[s.dateIndex].value, s.runOptions[s.runIndex], run, h, day);
    assert r.dateOffset == offset;
    var last := |dates| - 1;
    assert dates[last] == s.dateOptions[last].value;
  }

  /** The globals CalculateFcstInformation sets, once the run and the lead
      time are read back: the forecast date from the date dropdown, or else
      from `calculateDate`, give the page Computed describes. */
  lemma ComputedBy(s: PageState, calculateDate: (string, nat) -> string, m: Moment, offset: nat, headline: string)
    requires Labelled(s)
    requires offset == DateOffset(Run(s), s.activeHour)
    requires m == MomentFor(s.dateOptions[s.dateIndex].value, s.runOptions[s.runIndex], Run(s), s.activeHour,
                            ForecastDay(m.forecastDate, m.obsDate))
    requires s.dateIndex + offset < |s.dateOptions| ==>
      m.forecastDate == s.dateOptions[s.dateIndex + offset].value && m.obsDate == Some(m.forecastDate)
    requires s.dateIndex + offset >= |s.dateOptions| ==>
      m.forecastDate == calculateDate(s.dateOptions[|s.dateOptions| - 1].value, offset) && m.obsDate == None
    requires headline == Headline(m.forecastDate, m.time, s.activeHour)
    ensures Computed(s, calculateDate) == s.(moment := m, dateOffset := offset, fcstInfo := headline)
  {
    DropdownDay(s.dateOptions, s.dateIndex, offset, calculateDate, ForecastDay(m.forecastDate, m.obsDate));
  }

  /** CalculateFcstInformation's try/catch: the option dateOffset places
      after the selected one when the dropdown has it, with observations,
      and otherwise `calculateDate` from the last option, without; that is
      ResolveForecastDay on the dropdown's values. */
  lemma DropdownDay(options: seq<DateOption>, i: nat, offset: nat, calculateDate: (string, nat) -> string,
                    d: ForecastDay)
    requires i < |options|
    requires i + offset < |options| ==> d.forecastDate == options[i + offset].value && d.obsDate == Some(d.forecastDate)
    requires i + offset >= |options| ==>
      d.forecastDate == calculateDate(options[|options| - 1].value, offset) && d.obsDate == None
    ensures ResolveForecastDay(DateValues(options), i, offset, calculateDate) == d
  {
    var dates := DateValues(options);
    var day := ResolveForecastDay(dates, i, offset, calculateDate);
    var j := i + offset;
    if j < |dates| {
      assert dates[j] == options[j].value;
      assert day.forecastDate == d.forecastDate && day.obsDate == d.obsDate;
    } else {
      var last := |dates| - 1;
      assert dates[last] == options[last].value;
      assert day.forecastDate == d.forecastDate && day.obsDate == d.obsDate;
    }
  }

  /** UpdateImgURLs on a valid page whose globals are computed resolves
      it. */
  lemma PaneUpdatedResolves(s: PageState)
    requires Valid(s) && MomentResolved(s) && s.fcstInfo == Headline(s.moment.forecastDate, s.moment.time, s.activeHour)
    ensures var r := PaneUpdated(s);
      && Valid(r) && Resolved(r)
      && r.chosenModel == (if s.activeHour > UkvHorizon then Euro4 else s.chosenModel)
      && r.(imageSrcs := s.imageSrcs, chosenModel := s.chosenModel, ukvDisabled := s.ukvDisabled,
            forecastCaption := s.forecastCaption) == s
  {
    var r := PaneUpdated(s);
    PaneUpdatedShown(s);
    LabelledFrame(s, r);
    MomentFrame(s, r);
  }

  /** CalculateFcstInformation keeps the page valid and resolves it: the
      globals, the headline and every image agree with the selection; a
      forecast date past the catalogue comes from `calculateDate`; only the
      computed globals, the images and the model choice change. */
  lemma CalculatedResolves(s: PageState, calculateDate: (string, nat) -> string)
    requires Valid(s)
    ensures var r := Calculated(s, calculateDate);
      && Valid(r) && Resolved(r)
      && r.chosenModel == (if s.activeHour > UkvHorizon then Euro4 else s.chosenModel)
      && (r.moment.obsDate.None? ==>
            r.moment.forecastDate == calculateDate(s.dateOptions[|s.dateOptions| - 1].value, r.dateOffset))
      && r.(moment := s.moment, dateOffset := s.dateOffset, fcstInfo := s.fcstInfo, imageSrcs := s.imageSrcs,
            chosenModel := s.chosenModel, ukvDisabled := s.ukvDisabled, forecastCaption := s.forecastCaption) == s
  {
    ComputedResolves(s, calculateDate);
    PaneUpdatedResolves(Computed(s, calculateDate));
  }

  /** SetActiveFcstBtn: the page is valid and resolved for the new hour, on
      the same date, run, tab and satellite product. */
  lemma SetActiveResolves(s: PageState, h: nat, calculateDate: (string, nat) -> string)
    requires Valid(s) && h <= MaxForecastVal
    ensures var r := SetActive(s, h, calculateDate);
      && Valid(r) && Resolved(r) && r.activeHour == h
      && r.dateIndex == s.dateIndex && r.runIndex == s.runIndex && r.buttonTexts == s.buttonTexts
      && r.selectedTab == s.selectedTab && r.cloudObsType == s.cloudObsType && r.sliderEnabled == s.sliderEnabled
      && r.chosenModel == (if h > UkvHorizon then Euro4 else s.chosenModel)
  {
    CalculatedResolves(s.(activeHour := h), calculateDate);
  }

  /** UpdateFcstButtonText: the labels follow the selected run, and the page
      is resolved again for the same hour. */
  lemma RelabelledResolves(s: PageState, calculateDate: (string, nat) -> string)
    requires Selected(s) && s.activeHour <= MaxForecastVal && Settled(s) && SliderShown(s)
    ensures var r := Relabelled(s, calculateDate);
      && Valid(r) && Resolved(r) && r.buttonTexts == ButtonLabels(Run(s))
      && r.dateIndex == s.dateIndex && r.runIndex == s.runIndex && r.activeHour == s.activeHour
      && r.selectedTab == s.selectedTab && r.cloudObsType == s.cloudObsType && r.sliderEnabled == s.sliderEnabled
  {
    SetActiveResolves(Labels(s), s.activeHour, calculateDate);
  }

  /** changeHour moves to the neighbouring hour, or stays at either end,
      and the page stays resolved on the same date, run and tab. */
  lemma HourStepKeeps(s: PageState, step: HourStep, calculateDate: (string, nat) -> string)
    requires Valid(s) && Resolved(s)
    ensures var r := HourStepped(s, step, calculateDate);
      && Valid(r) && Resolved(r) && r.activeHour == StepHour(s.activeHour, step)
      && r.dateIndex == s.dateIndex && r.runIndex == s.runIndex && r.selectedTab == s.selectedTab
      && r.cloudObsType == s.cloudObsType && r.sliderEnabled == s.sliderEnabled
  {
    var h := StepHour(s.activeHour, step);
    if h != s.activeHour {
      SetActiveResolves(s, h, calculateDate);
    }
  }

  /** A picked date shows its first model run at the same hour. */
  lemma DateSelectKeeps(s: PageState, i: nat, calculateDate: (string, nat) -> string)
    requires Valid(s) && i < |s.dateOptions|
    ensures var r := DateSelected(s, i, calculateDate);
      && Valid(r) && Resolved(r) && r.dateIndex == i && r.runIndex == 0
      && r.runOptions == ModelRunsOf(s.catalogue[i])
      && r.activeHour == s.activeHour && r.selectedTab == s.selectedTab
      && r.cloudObsType == s.cloudObsType && r.sliderEnabled == s.sliderEnabled
  {
    var s1 := RunsListed(s.(dateIndex := i));
    assert Selected(s1) by {
      assert s1.runOptions[0] in ModelRunsOf(s.catalogue[i]);
    }
    RelabelledResolves(s1, calculateDate);
  }

  /** changeDate moves to the neighbouring date, or stays at either end, and
      always starts again from that date's first model run. */
  lemma DateStepKeeps(s: PageState, step: DateStep, calculateDate: (string, nat) -> string)
    requires Valid(s)
    ensures var r := DateStepped(s, step, calculateDate);
      && Valid(r) && Resolved(r) && r.dateIndex == StepDate(s.dateIndex, |s.catalogue|, step) && r.runIndex == 0
      && r.activeHour == s.activeHour && r.selectedTab == s.selectedTab
      && r.cloudObsType == s.cloudObsType && r.sliderEnabled == s.sliderEnabled
  {
    DateSelectKeeps(s, StepDate(s.dateIndex, |s.dateOptions|, step), calculateDate);
  }

  /** A picked model run relabels the hours and shows that run. */
  lemma RunSelectKeeps(s: PageState, j: nat, calculateDate: (string, nat) -> string)
    requires Valid(s) && j < |s.runOptions|
    ensures var r := RunSelected(s, j, calculateDate);
      && Valid(r) && Resolved(r) && r.runIndex == j && Run(r) == DigitsValue(s.runOptions[j])
      && r.dateIndex == s.dateIndex && r.activeHour == s.activeHour && r.selectedTab == s.selectedTab
      && r.cloudObsType == s.cloudObsType && r.sliderEnabled == s.sliderEnabled
  {
    var s1 := s.(runIndex := j);
    assert Selected(s1) by {
      assert s.runOptions[j] in ModelRunsOf(s.catalogue[s.dateIndex]);
    }
    RelabelledResolves(s1, calculateDate);
  }

  /** SelectTab shows the chosen tab with every one of its images set, at
      the same hour, and the satellite highlight matches the product. */
  lemma TabSelectKeeps(s: PageState, t: Tab, calculateDate: (string, nat) -> string)
    requires Valid(s)
    ensures var r := TabSelected(s, t, calculateDate);
      && Valid(r) && Resolved(r) && r.selectedTab == t
      && r.imageSrcs.Keys == set id | id in ImgIds(t)
      && r.dateIndex == s.dateIndex && r.runIndex == s.runIndex && r.activeHour == s.activeHour
      && r.cloudObsType == s.cloudObsType && r.sliderEnabled == s.sliderEnabled
      && r.chosenModel == (if s.activeHour > UkvHorizon then Euro4 else s.chosenModel)
  {
    var s1 := PaneDrawn(s, t);
    PaneDrawnValid(s, t);
    SetActiveResolves(s1, s.activeHour, calculateDate);
    ShownKeys(TabSelected(s, t, calculateDate));
  }

  /** A page showing its pane has an image source for each image of the
      tab and for nothing else. */
  lemma ShownKeys(s: PageState)
    requires Shown(s)
    ensures s.imageSrcs.Keys == set id | id in ImgIds(s.selectedTab)
  {
    PaneSourcesCoverPane(map[], s.selectedTab, s.chosenModel, s.cloudObsType, s.moment);
  }

  /** Drawing a pane keeps the page valid and changes only the pane. */
  lemma PaneDrawnValid(s: PageState, t: Tab)
    requires Valid(s)
    ensures var r := PaneDrawn(s, t);
      && Valid(r) && r.selectedTab == t
      && r.dateIndex == s.dateIndex && r.runIndex == s.runIndex && r.activeHour == s.activeHour
      && r.cloudObsType == s.cloudObsType && r.sliderEnabled == s.sliderEnabled && r.chosenModel == s.chosenModel
  {
    var r := PaneDrawn(s, t);
    LabelledFrame(s, r);
    assert Settled(r);
  }

  /** A model click is the Availability rule's click, and the page stays
      resolved; only the model, the forecast image and its caption
      change. */
  lemma ModelClickKeeps(s: PageState, model: Model)
    requires Valid(s) && Resolved(s)
    ensures var r := ModelClicked(s, model);
      && Valid(r) && Resolved(r)
      && Choice(r.chosenModel, r.ukvDisabled) == ClickModel(Choice(s.chosenModel, s.ukvDisabled), model)
      && r.(chosenModel := s.chosenModel, imageSrcs := s.imageSrcs, forecastCaption := s.forecastCaption) == s
  {
    var r := ModelClicked(s, model);
    if !(model == UKV && s.ukvDisabled) {
      ForecastImgIds();
      PaneUrlsModel(s.selectedTab, s.chosenModel, model, s.cloudObsType, s.moment);
      assert Shown(r);
      LabelledFrame(s, r);
      MomentFrame(s, r);
      ShownSettles(r);
    }
  }

  /** A satellite click on the Cloud tab shows, highlights and keeps that
      product; only the satellite image changes. */
  lemma CloudObsClickKeeps(s: PageState, o: CloudObs)
    requires Valid(s) && Resolved(s) && s.selectedTab == Cloud
    ensures var r := CloudObsClicked(s, o);
      && Valid(r) && Resolved(r) && r.cloudObsType == o && r.cloudObsHighlight == o
      && r.imageSrcs == s.imageSrcs["cloudObsImg" := CloudObsUrl(o, s.moment)]
      && r.(cloudObsType := s.cloudObsType, cloudObsHighlight := s.cloudObsHighlight, imageSrcs := s.imageSrcs) == s
  {
    var r := CloudObsClicked(s, o);
    PaneUrlsCloudObs(s.chosenModel, s.cloudObsType, o, s.moment);
    assert r.imageSrcs == s.imageSrcs["cloudObsImg" := CloudObsUrl(o, s.moment)];
    assert Shown(r);
    LabelledFrame(s, r);
    MomentFrame(s, r);
    ShownSettles(r);
  }

  /** SliderActivation flips the slider, keeps its text in step, and a
      second click restores the page. */
  lemma SliderKeeps(s: PageState)
    requires SliderShown(s)
    ensures var r := SliderToggled(s);
      && SliderShown(r) && r.sliderEnabled == 1 - s.sliderEnabled
      && SliderToggled(r) == s
      && r.(sliderEnabled := s.sliderEnabled, sliderText := s.sliderText) == s
  {
  }

  /** Before its first pane is drawn, the loaded page lists the runs of the
      first date and labels the buttons for the first of them. */
  lemma LoadedValid(catalogue: seq<Entry>)
    requires WellFormed(catalogue)
    ensures var s := Labels(RunsListed(Loaded(catalogue)));
      && Valid(s) && s.dateIndex == 0 && s.runIndex == 0 && s.activeHour == 0
      && s.chosenModel == Euro4 && s.cloudObsType == CloudTop && s.sliderEnabled == 0
  {
    var s0 := RunsListed(Loaded(catalogue));
    assert Selected(s0) by {
      assert s0.runOptions[0] in ModelRunsOf(catalogue[0]);
    }
  }

  /** init leaves a valid, resolved page: the first date, its first run,
      the t+0h button and the first tab, with Euro4, Cloud Top and the
      slider off. */
  lemma InitialResolves(catalogue: seq<Entry>, calculateDate: (string, nat) -> string)
    requires WellFormed(catalogue)
    ensures var r := Initial(catalogue, calculateDate);
      && Valid(r) && Resolved(r)
      && r.dateIndex == 0 && r.runIndex == 0 && r.activeHour == 0 && r.selectedTab == Precipitation
      && r.chosenModel == Euro4 && r.cloudObsType == CloudTop && r.sliderEnabled == 0
  {
    var s := Labels(RunsListed(Loaded(catalogue)));
    LoadedValid(catalogue);
    TabSelectKeeps(s, Precipitation, calculateDate);
    SetActiveResolves(TabSelected(s, Precipitation, calculateDate), 0, calculateDate);
  }

  /** On a resolved page observations are never from before the selected
      date, and they are from that date exactly when the forecast is for the
      run's own day. */
  lemma ObservedDay(s: PageState)
    requires Valid(s) && Resolved(s)
    ensures var m := s.moment;
      m.obsDate.Some? ==>
        && IsDateKey(m.forecastDate) && IsDateKey(m.selectedDate)
        && DigitsValue(m.selectedDate) <= DigitsValue(m.obsDate.value)
        && (m.obsDate.value == m.selectedDate <==> s.dateOffset == 0)
  {
    if s.moment.obsDate.Some? {
      ObservedKeys(s);
      KeysOrdered(s.catalogue, s.dateIndex, s.dateIndex + s.dateOffset);
    }
  }

  /** With observations, the selected and the forecast date are the catalogue
      keys at the selected index and dateOffset places after it. */
  lemma ObservedKeys(s: PageState)
    requires Valid(s) && Resolved(s) && s.moment.obsDate.Some?
    ensures s.dateIndex + s.dateOffset < |s.catalogue| && WellFormed(s.catalogue)
    ensures s.moment.forecastDate == s.moment.obsDate.value == s.catalogue[s.dateIndex + s.dateOffset].key
    ensures s.moment.selectedDate == s.catalogue[s.dateIndex].key
  {
    var j := s.dateIndex + s.dateOffset;
    assert s.dateOptions[j] == DateOptionFor(s.catalogue[j].key);
    assert s.dateOptions[s.dateIndex] == DateOptionFor(s.catalogue[s.dateIndex].key);
  }

  /** Past the end of the catalogue there is no observation date, and the
      observation images of the pane are still given a source, with the
      text "undefined" where the date would be. */
  lemma UnobservedSourcesSet(s: PageState)
    requires Valid(s) && Resolved(s) && s.dateIndex + s.dateOffset >= |s.dateOptions|
    ensures s.moment.obsDate.None?
    ensures s.selectedTab == Precipitation ==>
      && "precipitationStationObs" in s.imageSrcs && "precipitationRadarObs" in s.imageSrcs
      && s.imageSrcs["precipitationStationObs"] == FIATBaseURL + "/Observations/" + "Precip_Station" + "/" + "undefined" + s.moment.time + ".png"
      && s.imageSrcs["precipitationRadarObs"] == UFOBaseURL + "/Obs_Data/Radar/" + "undefined" + s.moment.time + ".png"
    ensures s.selectedTab == Temperature ==>
      && "temperatureStationObs" in s.imageSrcs
      && s.imageSrcs["temperatureStationObs"] == FIATBaseURL + "/Observations/" + "Temp_Station" + "/" + "undefined" + s.moment.time + ".png"
  {
    var m := s.moment;
    assert MomentResolved(s) && Shown(s);
    assert m.obsDate.None?;
  }

  /** Whenever observations exist, the headline of a resolved page starts
      with the name of the forecast date's weekday. */
  lemma ObservedHeadline(s: PageState)
    requires Valid(s) && Resolved(s)
    ensures var m := s.moment;
      m.obsDate.Some? ==>
        && DayName(m.forecastDate) == Some(Calendar.DaysOfWeek[KeyWeekday(m.forecastDate)])
        && s.fcstInfo[..|Calendar.DaysOfWeek[KeyWeekday(m.forecastDate)]|] == Calendar.DaysOfWeek[KeyWeekday(m.forecastDate)]
  {
    var m := s.moment;
    if m.obsDate.Some? {
      assert m.forecastDate == s.catalogue[s.dateIndex + s.dateOffset].key;
      HeadlineOfDateKey(m.forecastDate, m.time, s.activeHour);
      HeadlineStartsWithDay(m.forecastDate, m.time, s.activeHour);
    }
  }

  // ---- As written ----

  /** DrawPaneContent as written: the pane of PaneDrawn, but on the Cloud
      tab DrawCloudObsButtons highlights Cloud Top whatever `cloudObsType`
      is. */
  function PaneDrawnAsWritten(s: PageState, t: Tab): PageState
  {
    PaneDrawn(s, t).(cloudObsHighlight := if t == Cloud then DrawnCloudObsHighlight(s.cloudObsType) else s.cloudObsHighlight)
  }

  /** SelectTab as written. */
  function TabSelectedAsWritten(s: PageState, t: Tab, calculateDate: (string, nat) -> string): PageState
    requires Labelled(s)
  {
    SetActive(PaneDrawnAsWritten(s, t), s.activeHour, calculateDate)
  }

  /** SetActiveFcstBtn neither reads nor writes the satellite highlight. */
  lemma SetActiveIgnoresHighlight(s: PageState, h: nat, calculateDate: (string, nat) -> string, o: CloudObs)
    requires Labelled(s)
    ensures SetActive(s.(cloudObsHighlight := o), h, calculateDate) == SetActive(s, h, calculateDate).(cloudObsHighlight := o)
  {
    var s1 := s.(cloudObsHighlight := o);
    LabelledFrame(s, s1);
    assert Run(s1.(activeHour := h)) == Run(s.(activeHour := h));
  }

  /** As written, coming back to the Cloud tab after choosing the infrared
      product highlights Cloud Top while UpdateImgURLs shows the infrared
      image: it reads `cloudObsType`, which DrawCloudObsButtons leaves. */
  lemma DrawnHighlightDisagrees(s: PageState, calculateDate: (string, nat) -> string)
    requires Valid(s) && s.cloudObsType == Infrared
    ensures var r := TabSelectedAsWritten(s, Cloud, calculateDate);
      && r.selectedTab == Cloud && r.cloudObsType == Infrared && r.cloudObsHighlight == CloudTop
      && "cloudObsImg" in r.imageSrcs && r.imageSrcs["cloudObsImg"] == CloudObsUrl(Infrared, r.moment)
  {
    var r0 := TabSelected(s, Cloud, calculateDate);
    TabSelectKeeps(s, Cloud, calculateDate);
    ShownCloudObs(r0);
    TabSelectedHighlight(s, Cloud, calculateDate);
  }

  /** SelectTab as written differs from TabSelected only in the highlight
      of the Cloud tab. */
  lemma TabSelectedHighlight(s: PageState, t: Tab, calculateDate: (string, nat) -> string)
    requires Labelled(s)
    ensures TabSelectedAsWritten(s, t, calculateDate) ==
      TabSelected(s, t, calculateDate).(cloudObsHighlight := PaneDrawnAsWritten(s, t).cloudObsHighlight)
  {
    var s1 := PaneDrawn(s, t);
    assert PaneDrawnAsWritten(s, t) == s1.(cloudObsHighlight := PaneDrawnAsWritten(s, t).cloudObsHighlight);
    LabelledFrame(s, s1);
    SetActiveIgnoresHighlight(s1, s.activeHour, calculateDate, PaneDrawnAsWritten(s, t).cloudObsHighlight);
  }

  /** The Cloud pane shows the chosen satellite product. */
  lemma ShownCloudObs(s: PageState)
    requires Shown(s) && s.selectedTab == Cloud
    ensures "cloudObsImg" in s.imageSrcs && s.imageSrcs["cloudObsImg"] == CloudObsUrl(s.cloudObsType, s.moment)
  {
  }

  /** The caption under the forecast image after setForecastImg, as
      written: setForecastImg writes to the forecast image's next sibling,
      which on the Precipitation pane is the colour bar inserted after the
      image, so there the caption keeps the text it was drawn with. */
  function CaptionAsWritten(t: Tab, caption: string, model: Model): string
  {
    if t == Precipitation then caption else ModelName(model) + " Forecast"
  }

  /** A click on the UKV or Euro4 button, as written. */
  function ModelClickedAsWritten(s: PageState, model: Model): PageState
  {
    if model == UKV && s.ukvDisabled then s
    else s.(chosenModel := model, imageSrcs := SetForecastImg(s.imageSrcs, s.selectedTab, model, s.moment),
            forecastCaption := CaptionAsWritten(s.selectedTab, s.forecastCaption, model))
  }

  /** As written, clicking UKV on a Precipitation page showing Euro4
      within the UKV horizon shows the UKV forecast under the caption
      "Euro4 Forecast"; with the caption of ModelClicked it reads "UKV
      Forecast". */
  lemma StaleCaption(s: PageState)
    requires Shown(s) && s.selectedTab == Precipitation && s.chosenModel == Euro4
    requires s.activeHour <= UkvHorizon
    ensures var r := ModelClickedAsWritten(s, UKV);
      && r.chosenModel == UKV
      && ForecastImgId(Precipitation) in r.imageSrcs
      && r.imageSrcs[ForecastImgId(Precipitation)] == ForecastUrl(UKV, Precipitation, "PmslZRnSnCl", s.moment)
      && r.forecastCaption == "Euro4 Forecast"
      && ModelClicked(s, UKV).forecastCaption == "UKV Forecast"
  {
  }

  /** The page init leaves is such a page: the first click on UKV leaves
      the caption "Euro4 Forecast" under the UKV forecast. */
  lemma StalePrecipitationCaption(catalogue: seq<Entry>, calculateDate: (string, nat) -> string)
    requires WellFormed(catalogue)
    ensures var r := ModelClickedAsWritten(Initial(catalogue, calculateDate), UKV);
      r.chosenModel == UKV && r.forecastCaption == "Euro4 Forecast"
  {
    var s := Initial(catalogue, calculateDate);
    InitialResolves(catalogue, calculateDate);
    assert Shown(s);
    StaleCaption(s);
  }
}
