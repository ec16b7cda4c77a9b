/** The page of app/assets/javascripts/fiat.js as one object: its fields are
    the globals the event handlers read and write and the page elements they
    change, and its methods are the handlers, written step by step as
    fiat.js runs them. Each method is proved to leave the state that the
    matching function of PageModel describes, so what PageModel proves
    about those functions holds of the page. */
module Dashboard {
  import opened Wrappers
  import opened Text
  import opened Catalogue
  import opened TimeResolver
  import opened Tabs
  import opened Availability
  import opened Urls
  import opened PageModel

  /** The body of CalculateFcstInformation, step by step as fiat.js takes
      it: parse the run, read the lead time back from the button's id, wrap
      the Zulu hour past midnight and pad it, pad the lead time, count the
      days from the run to the forecast, take the forecast date from the date
      dropdown or else from `calculateDate` (with no observations), cut the
      time from the button's label and write the headline. When the run and
      the lead time read back as `run` and `h`, and the label ends with their
      Zulu time, the result is the Moment MomentFor describes. */
  method FcstInformation(dateOptions: seq<DateOption>, dateIndex: nat, modelRunStr: string, buttonId: string,
                         buttonText: string, calculateDate: (string, nat) -> string, ghost run: nat, ghost h: nat)
    returns (m: Moment, offset: nat, headline: string)
    requires dateIndex < |dateOptions|
    requires ParseInt(modelRunStr) == Some(run)
    requires DigitsOnly(buttonId) == NatToString(h) && ParseInt(NatToString(h)) == Some(h)
    requires TakeLast(buttonText, 4) == ZuluTime(run, h) + "00"
    ensures offset == DateOffset(run, h)
    ensures m == MomentFor(dateOptions[dateIndex].value, modelRunStr, run, h, ForecastDay(m.forecastDate, m.obsDate))
    ensures dateIndex + offset < |dateOptions| ==>
      m.forecastDate == dateOptions[dateIndex + offset].value && m.obsDate == Some(m.forecastDate)
    ensures dateIndex + offset >= |dateOptions| ==>
      m.forecastDate == calculateDate(dateOptions[|dateOptions| - 1].value, offset) && m.obsDate == None
    ensures headline == Headline(m.forecastDate, m.time, h)
  {
    var selectedDate := dateOptions[dateIndex].value;
    var modelRun := ParseInt(modelRunStr).value;
    var hourOffsetIdStr := DigitsOnly(buttonId);
    var hourOffsetId := ParseInt(hourOffsetIdStr).value;
    var zulu := modelRun + hourOffsetId;
    if zulu >= 24 {
      zulu := zulu % 24;
    }
    var zuluTime := TakeLast("0" + NatToString(zulu), 2);
    var padded := if hourOffsetId < 10 then "0" + hourOffsetIdStr else hourOffsetIdStr;
    offset := (modelRun + hourOffsetId) / 24;
    var forecastDate, obsDate;
    if dateIndex + offset < |dateOptions| {
      forecastDate := dateOptions[dateIndex + offset].value;
      obsDate := Some(forecastDate);
    } else {
      forecastDate := calculateDate(dateOptions[|dateOptions| - 1].value, offset);
      obsDate := None;
    }
    var time := TakeLast(buttonText, 4);
    m := Moment(selectedDate, modelRunStr, hourOffsetIdStr, padded, zuluTime, forecastDate, obsDate, time);
    headline := Headline(forecastDate, time, hourOffsetId);
    assert zulu == ZuluHour(run, h);
  }

  class Page {
    /** `DateModelRun`. */
    const catalogue: seq<Entry>

    /** The date dropdown's options and selected index. */
    var dateOptions: seq<DateOption>
    var dateIndex: nat

    /** The model-run dropdown's options and selected index. */
    var runOptions: seq<string>
    var runIndex: nat

    /** The hour buttons, their labels and the active one. */
    var buttons: seq<FcstButton>
    var buttonTexts: seq<string>
    var activeHour: nat

    var selectedTab: Tab

    /** `chosenModel` and whether the UKV button is disabled. */
    var chosenModel: Model
    var ukvDisabled: bool

    /** `cloudObsType` and the satellite button shown as chosen. */
    var cloudObsType: CloudObs
    var cloudObsHighlight: CloudObs

    /** `SliderEnabled` and the slider button's text. */
    var sliderEnabled: nat
    var sliderText: string

    /** The globals CalculateFcstInformation sets for UpdateImgURLs
        (`selectedDate`, `ModelRunStr`, `hourOffsetIdStr`,
        `paddedhourOffsetIdStr`, `zuluTime`, `forecastDate`, `obsDate`,
        `Time`), and `dateOffset`. */
    var moment: Moment
    var dateOffset: nat

    /** The headline above the plots (`FcstInfo.textContent`). */
    var fcstInfo: string

    /** The source of every image of the pane, by element id. */
    var imageSrcs: map<string, string>

    /** The caption under the forecast image. */
    var forecastCaption: string

    /** The page as a value. */
    function State(): PageState
      reads this
    {
      PageState(catalogue, dateOptions, dateIndex, runOptions, runIndex, buttons, buttonTexts, activeHour,
                selectedTab, chosenModel, ukvDisabled, cloudObsType, cloudObsHighlight, sliderEnabled, sliderText,
                moment, dateOffset, fcstInfo, imageSrcs, forecastCaption)
    }

    /** windowLoaded: draw the hour buttons, the slider button and the date
        dropdown, then init. `calculateDate` stands for fiat.js's
        calculateDate, which reads the wall clock. */
    constructor (catalogue: seq<Entry>, calculateDate: (string, nat) -> string)
      requires WellFormed(catalogue)
      ensures State() == Initial(catalogue, calculateDate)
      ensures Valid(State()) && Resolved(State())
    {
      this.catalogue := catalogue;
      var drawn, texts := DrawFcstBtns();
      buttons, buttonTexts := drawn, texts;
      sliderEnabled, sliderText := 0, "Slider [Disabled]";
      var options := PopulateDateSelect(catalogue);
      dateOptions, dateIndex := options, 0;
      runOptions, runIndex := [], 0;
      chosenModel, ukvDisabled := Euro4, false;
      cloudObsType, cloudObsHighlight := CloudTop, CloudTop;
      selectedTab, activeHour := Precipitation, 0;
      moment, dateOffset, fcstInfo, imageSrcs, forecastCaption := Unset, 0, "", map[], "";
      new;
      Init(calculateDate);
      InitialResolves(catalogue, calculateDate);
    }

    /** init: select the first date and its first model run, label the hour
        buttons (no hour button is active yet, so nothing is recomputed),
        select the first tab and then the t+0h button. */
    method Init(calculateDate: (string, nat) -> string)
      requires WellFormed(catalogue) && State() == Loaded(catalogue)
      modifies this
      ensures State() == Initial(catalogue, calculateDate)
    {
      PopulateModelRunDropdown();
      ghost var listed := State();
      var labels := TimeResolver.UpdateFcstButtonText(Run(State()));
      buttonTexts := labels;
      ghost var labelled := State();
      assert labelled == Labels(listed);
      LoadedValid(catalogue);
      TabSelectKeeps(labelled, Precipitation, calculateDate);
      SelectTab(Precipitation, calculateDate);
      ghost var selected := State();
      SetActiveFcstBtn(0, calculateDate);
      assert State() == SetActive(selected, 0, calculateDate);
    }

    /** PopulateModelRunDropdown: find the selected date in the catalogue and
        list its model runs; the dropdown then selects the first. */
    method PopulateModelRunDropdown()
      requires Drawn(State())
      modifies this`runOptions, this`runIndex
      ensures State() == RunsListed(old(State()))
    {
      var found := FindDate(catalogue, dateOptions[dateIndex].value);
      assert found.Some? && found.value == dateIndex by {
        assert catalogue[dateIndex].key == dateOptions[dateIndex].value;
      }
      var options := RetrieveModelRuns(catalogue[found.value].runs);
      runOptions, runIndex := options, 0;
    }

    /** UpdateFcstButtonText once an hour button is active: relabel the hour
        buttons for the selected run and reselect the active hour. */
    method UpdateFcstButtonText(calculateDate: (string, nat) -> string)
      requires Selected(State()) && activeHour <= MaxForecastVal
      modifies this
      ensures State() == Relabelled(old(State()), calculateDate)
    {
      var labels := TimeResolver.UpdateFcstButtonText(Run(State()));
      buttonTexts := labels;
      SetActiveFcstBtn(activeHour, calculateDate);
    }

    /** SetActiveFcstBtn: make hour h's button the active one and recompute
        everything shown. */
    method SetActiveFcstBtn(h: nat, calculateDate: (string, nat) -> string)
      requires Labelled(State()) && h <= MaxForecastVal
      modifies this
      ensures State() == SetActive(old(State()), h, calculateDate)
    {
      activeHour := h;
      CalculateFcstInformation(calculateDate);
    }

    /** CalculateFcstInformation: read the date, the run and the lead time
        back from the dropdowns and the active button, derive the URL parts,
        the forecast and observation dates and the headline, then
        UpdateImgURLs. */
    method CalculateFcstInformation(calculateDate: (string, nat) -> string)
      requires Labelled(State()) && activeHour <= MaxForecastVal
      modifies this
      ensures State() == Calculated(old(State()), calculateDate)
    {
      ghost var s := State();
      ReadBack(s);
      var m, offset, headline := FcstInformation(dateOptions, dateIndex, runOptions[runIndex],
        buttons[activeHour].id, buttonTexts[activeHour], calculateDate, Run(s), activeHour);
      SetGlobals(m, offset, headline);
      ComputedBy(s, calculateDate, m, offset, headline);
      UpdateImgURLs();
    }

    /** The globals and the headline CalculateFcstInformation sets. */
    method SetGlobals(m: Moment, offset: nat, headline: string)
      modifies this`moment, this`dateOffset, this`fcstInfo
      ensures State() == old(State()).(moment := m, dateOffset := offset, fcstInfo := headline)
    {
      moment, dateOffset, fcstInfo := m, offset, headline;
    }

    /** UpdateImgURLs: set the sources of the pane's images, apply the UKV
        horizon, and set the forecast image and its caption. */
    method UpdateImgURLs()
      modifies this`imageSrcs, this`ukvDisabled, this`chosenModel, this`forecastCaption
      ensures State() == PaneUpdated(old(State()))
    {
      CheckPaneImages();
      LimitUkv();
      SetForecastImage();
    }

    /** The horizon rule of UpdateImgURLs: past t+36h disable UKV and choose
        Euro4; otherwise, with Euro4 chosen, enable UKV again. */
    method LimitUkv()
      modifies this`ukvDisabled, this`chosenModel
      ensures var c := ApplyHorizon(Choice(old(chosenModel), old(ukvDisabled)), activeHour);
        State() == old(State()).(chosenModel := c.chosen, ukvDisabled := c.ukvDisabled)
    {
      if activeHour > UkvHorizon {
        ukvDisabled, chosenModel := true, Euro4;
      } else if chosenModel == Euro4 {
        ukvDisabled := false;
      }
    }

    /** The ImageCheck calls UpdateImgURLs makes for the selected tab's
        observation and modified-forecast images (setCloudObsImg on the
        Cloud tab). */
    method CheckPaneImages()
      modifies this`imageSrcs
      ensures State() == old(State()).(imageSrcs := ImageChecks(old(imageSrcs), ImgIds(selectedTab),
                                                                TabWrites(selectedTab, cloudObsType, moment)))
    {
      imageSrcs := ImageChecks(imageSrcs, ImgIds(selectedTab), TabWrites(selectedTab, cloudObsType, moment));
    }

    /** setForecastImg: the chosen model's forecast plot for the selected
        tab, and the caption naming the model, as corrected: on the
        Precipitation pane the code's caption write misses the caption
        (PageModel.CaptionAsWritten). */
    method SetForecastImage()
      modifies this`imageSrcs, this`forecastCaption
      ensures State() == old(State()).(imageSrcs := SetForecastImg(old(imageSrcs), selectedTab, chosenModel, moment),
                                       forecastCaption := ModelName(chosenModel) + " Forecast")
    {
      imageSrcs := SetForecastImg(imageSrcs, selectedTab, chosenModel, moment);
      forecastCaption := ModelName(chosenModel) + " Forecast";
    }

    /** changeHour: find the active button among the hour buttons, then
        select the next or previous one, if there is one. */
    method ChangeHour(step: HourStep, calculateDate: (string, nat) -> string)
      requires Labelled(State()) && activeHour <= MaxForecastVal
      modifies this
      ensures State() == HourStepped(old(State()), step, calculateDate)
    {
      var activeId := buttons[activeHour].id;
      var i := 0;
      while i < |buttons| && buttons[i].id != activeId
        invariant i <= |buttons|
        invariant forall k :: 0 <= k < i ==> buttons[k].id != activeId
        decreases |buttons| - i
      {
        i := i + 1;
      }
      assert i < |buttons| by {
        assert buttons[activeHour].id == activeId;
      }
      ButtonIdInjective(i, activeHour);
      if step == PlusHour && i + 1 != |buttons| {
        SetActiveFcstBtn(i + 1, calculateDate);
      } else if step == MinusHour && i != 0 {
        SetActiveFcstBtn(i - 1, calculateDate);
      }
    }

    /** changeDate: select the next or previous date, if there is one, then
        relist the model runs (which selects the first) and relabel, as the
        date dropdown's change handler does. */
    method ChangeDate(step: DateStep, calculateDate: (string, nat) -> string)
      requires Drawn(State()) && activeHour <= MaxForecastVal
      modifies this
      ensures State() == DateStepped(old(State()), step, calculateDate)
    {
      var i := dateIndex;
      if step == PlusDate && dateIndex < |dateOptions| - 1 {
        i := dateIndex + 1;
      } else if step == MinusDate && dateIndex > 0 {
        i := dateIndex - 1;
      }
      SelectDate(i, calculateDate);
    }

    /** The date dropdown's change handler: a date picked, the model runs
        relisted and the buttons relabelled. */
    method SelectDate(i: nat, calculateDate: (string, nat) -> string)
      requires Drawn(State()) && i < |dateOptions| && activeHour <= MaxForecastVal
      modifies this
      ensures State() == DateSelected(old(State()), i, calculateDate)
    {
      dateIndex := i;
      PopulateModelRunDropdown();
      UpdateFcstButtonText(calculateDate);
    }

    /** A model run picked in the model-run dropdown. */
    method SelectModelRun(j: nat, calculateDate: (string, nat) -> string)
      requires Selected(State()) && j < |runOptions| && activeHour <= MaxForecastVal
      modifies this
      ensures State() == RunSelected(old(State()), j, calculateDate)
    {
      runIndex := j;
      UpdateFcstButtonText(calculateDate);
    }

    /** SelectTab: draw the chosen tab's pane, then reselect the active
        hour. */
    method SelectTab(t: Tab, calculateDate: (string, nat) -> string)
      requires Labelled(State()) && activeHour <= MaxForecastVal
      modifies this
      ensures State() == TabSelected(old(State()), t, calculateDate)
    {
      ghost var s := State();
      DrawPaneContent(t);
      LabelledFrame(s, State());
      SetActiveFcstBtn(activeHour, calculateDate);
    }

    /** ClearPaneContent, then DrawPaneContent for tab t: the tab's images
        with no sources yet, fresh model buttons (UKV enabled again) under a
        caption naming the chosen model and, on the Cloud tab,
        DrawCloudObsButtons with the Cloud Top image. */
    method DrawPaneContent(t: Tab)
      modifies this`imageSrcs, this`selectedTab, this`ukvDisabled, this`forecastCaption, this`cloudObsHighlight
      ensures State() == PaneDrawn(old(State()), t)
    {
      var srcs: map<string, string> := map[];
      var highlight := cloudObsHighlight;
      if t == Cloud {
        highlight := CloudObsHighlight(cloudObsType);
        srcs := ImageCheck(srcs, ImgIds(t), "cloudObsImg", CloudObsUrl(CloudTop, moment));
      }
      imageSrcs, selectedTab, cloudObsHighlight := srcs, t, highlight;
      ukvDisabled, forecastCaption := false, ModelName(chosenModel) + " Forecast";
    }

    /** A click on the UKV or Euro4 button: a disabled button does nothing;
        otherwise the model is chosen and the forecast image replaced. */
    method ClickModel(model: Model)
      modifies this`chosenModel, this`imageSrcs, this`forecastCaption
      ensures State() == ModelClicked(old(State()), model)
    {
      if model == UKV && ukvDisabled {
        return;
      }
      chosenModel := model;
      SetForecastImage();
    }

    /** setCloudObsImg, from a satellite button of the Cloud tab: that
        product is chosen, highlighted and shown. */
    method ClickCloudObs(o: CloudObs)
      modifies this`cloudObsType, this`cloudObsHighlight, this`imageSrcs
      ensures State() == CloudObsClicked(old(State()), o)
    {
      cloudObsType, cloudObsHighlight := o, o;
      imageSrcs := ImageCheck(imageSrcs, ImgIds(selectedTab), "cloudObsImg", CloudObsUrl(o, moment));
    }

    /** SliderActivation: set the button's text, then toggle the slider. */
    method SliderActivation()
      modifies this`sliderEnabled, this`sliderText
      ensures State() == SliderToggled(old(State()))
    {
      if sliderEnabled == 1 {
        sliderText := "Slider [Disabled]";
      } else {
        sliderText := "Slider [Enabled]";
      }
      sliderEnabled := ToggleBit(sliderEnabled);
    }
  }
}
