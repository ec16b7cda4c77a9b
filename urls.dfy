/** The plot URLs of app/assets/javascripts/fiat.js (UpdateImgURLs,
    setForecastImg, setCloudObsImg) and what ImageCheck does with them: the
    source of an image is set only when the page has that image. */
module Urls {
  import opened Wrappers
  import opened Text
  import opened Tabs
  import opened Availability
  import TimeResolver

  const FIATBaseURL: string := "FIATPlots"
  const UFOBaseURL: string := "http://www-nwp/~meso/UFO_VT"

  /** The satellite products of the Cloud tab (`cloudObsType`). */
  datatype CloudObs = CloudTop | VisibleLight | Infrared

  function CloudObsPath(o: CloudObs): string
  {
    match o
    case CloudTop => "Cloud/EHEA11"
    case VisibleLight => "Vis/EVEB71"
    case Infrared => "IR/EIEA51"
  }

  /** The globals CalculateFcstInformation leaves for the URL builders. */
  datatype Moment = Moment(
    selectedDate: string,
    modelRunStr: string,
    hourOffsetStr: string,
    paddedHourOffsetStr: string,
    zuluTime: string,
    forecastDate: string,
    obsDate: Option<string>,
    time: string)

  /** The Moment for a selected date, model run and lead time. */
  function MomentFor(selectedDate: string, runStr: string, run: nat, h: nat, day: TimeResolver.ForecastDay): Moment
  {
    Moment(selectedDate, runStr, NatToString(h), TimeResolver.PaddedOffset(h), TimeResolver.ZuluTime(run, h),
           day.forecastDate, day.obsDate, TimeResolver.ZuluTime(run, h) + "00")
  }

  /** A station observation plot: `FIATBaseURL + "/Observations/<kind>/" + obsDate + Time + ".png"`. */
  function StationObsUrl(kind: string, m: Moment): string
  {
    FIATBaseURL + "/Observations/" + kind + "/" + Show(m.obsDate) + m.time + ".png"
  }

  /** A modified forecast plot, numbered by the padded lead time. */
  function ModifiedForecastUrl(folder: string, field: string, m: Moment): string
  {
    FIATBaseURL + "/ModifiedForecasts/" + folder + "/" + m.selectedDate + "/" + m.modelRunStr + "Z/" + field + "_"
      + m.paddedHourOffsetStr + ".png"
  }

  function RadarObsUrl(m: Moment): string
  {
    UFOBaseURL + "/Obs_Data/Radar/" + Show(m.obsDate) + m.time + ".png"
  }

  function ErrorMapUrl(m: Moment): string
  {
    UFOBaseURL + "/Obs_Data/ScreenTemp_ErrorMap/" + Show(m.obsDate) + "/" + m.modelRunStr + "Z/ScreenTemp-"
      + m.hourOffsetStr + ".png"
  }

  /** setCloudObsImg: the satellite image of the selected date (not of the
      forecast date) at the label's time. */
  function CloudObsUrl(o: CloudObs, m: Moment): string
  {
    UFOBaseURL + "/Obs_Data/Sat_" + CloudObsPath(o) + "_" + m.selectedDate + m.time + ".png"
  }

  /** setForecastImg: the raw UKV or Euro4 forecast plot. */
  function ForecastUrl(model: Model, t: Tab, filename: string, m: Moment): string
  {
    FIATBaseURL + "/Forecasts/" + ModelName(model) + "/" + TabName(t) + "/" + m.selectedDate + "/" + m.modelRunStr
      + "Z/" + filename + "_oper-" + ModelTag(model) + "_" + m.forecastDate + "_" + m.zuluTime + "Z_T"
      + m.hourOffsetStr + "_UKrot.png"
  }

  /** ImageCheck(id, url): set the source of image `id` if the page has it. */
  function ImageCheck(srcs: map<string, string>, page: seq<string>, id: string, url: string): (r: map<string, string>)
    ensures id in page ==> r == srcs[id := url]
    ensures id !in page ==> r == srcs
  {
    if id in page then srcs[id := url] else srcs
  }

  /** A run of ImageCheck calls, in order. */
  function ImageChecks(srcs: map<string, string>, page: seq<string>, writes: seq<(string, string)>): map<string, string>
    decreases |writes|
  {
    if writes == [] then srcs
    else ImageChecks(ImageCheck(srcs, page, writes[0].0, writes[0].1), page, writes[1..])
  }

  /** The ids a run of ImageCheck calls names that the page has. */
  function WrittenIds(page: seq<string>, writes: seq<(string, string)>): set<string>
  {
    set k | 0 <= k < |writes| && writes[k].0 in page :: writes[k].0
  }

  /** A run of ImageCheck calls gives sources to the images it names that the
      page has, and leaves every other image as it was. */
  lemma {:induction false} ImageChecksFrame(srcs: map<string, string>, page: seq<string>,
                                           writes: seq<(string, string)>, id: string)
    decreases |writes|
    ensures ImageChecks(srcs, page, writes).Keys == srcs.Keys + WrittenIds(page, writes)
    ensures id !in WrittenIds(page, writes) && id in srcs ==> ImageChecks(srcs, page, writes)[id] == srcs[id]
  {
    if writes != [] {
      var s1 := ImageCheck(srcs, page, writes[0].0, writes[0].1);
      ImageChecksFrame(s1, page, writes[1..], id);
      var w0 := if writes[0].0 in page then {writes[0].0} else {};
      assert WrittenIds(page, writes) == w0 + WrittenIds(page, writes[1..]) by {
        forall x | x in WrittenIds(page, writes)
          ensures x in w0 + WrittenIds(page, writes[1..])
        {
          var k :| 0 <= k < |writes| && writes[k].0 in page && writes[k].0 == x;
          if k > 0 {
            assert writes[1..][k - 1] == writes[k];
          }
        }
        forall x | x in WrittenIds(page, writes[1..])
          ensures x in WrittenIds(page, writes)
        {
          var k :| 0 <= k < |writes[1..]| && writes[1..][k].0 in page && writes[1..][k].0 == x;
          assert writes[k + 1] == writes[1..][k];
        }
      }
    } else {
      assert WrittenIds(page, writes) == {};
    }
  }

  /** The ImageCheck calls UpdateImgURLs makes for a tab, before the
      forecast image. */
  function TabWrites(t: Tab, cloud: CloudObs, m: Moment): seq<(string, string)>
  {
    match t
    case Precipitation =>
      [("precipitationStationObs", StationObsUrl("Precip_Station", m)),
       ("precipitationModImg", ModifiedForecastUrl("Modified_Rain_Rate", "Rain_Rate", m)),
       ("precipitationRadarObs", RadarObsUrl(m))]
    case Temperature =>
      [("temperatureStationObs", StationObsUrl("Temp_Station", m)),
       ("temperatureModImg", ModifiedForecastUrl("Modified_Temperature_1p5m", "Temperature_1p5m", m)),
       ("temperatureErrorMap", ErrorMapUrl(m))]
    case Cloud =>
      [("cloudModImg", ModifiedForecastUrl("Modified_Cloud", "Cloud", m)),
       ("cloudObsImg", CloudObsUrl(cloud, m))]
  }

  /** setForecastImg: every tab's pane has a forecast image, so its source
      is always set to the chosen model's forecast plot. */
  function SetForecastImg(srcs: map<string, string>, t: Tab, model: Model, m: Moment): (r: map<string, string>)
    ensures r == srcs[ForecastImgId(t) := ForecastUrl(model, t, FcstFilename(t).value, m)]
  {
    ForecastImageOnPage(t);
    ImageCheck(srcs, ImgIds(t), ForecastImgId(t), ForecastUrl(model, t, FcstFilename(t).value, m))
  }

  /** The image sources of a tab's pane after UpdateImgURLs, given the model
      the horizon rule has chosen. */
  function PaneSources(srcs: map<string, string>, t: Tab, model: Model, cloud: CloudObs, m: Moment): map<string, string>
  {
    SetForecastImg(ImageChecks(srcs, ImgIds(t), TabWrites(t, cloud, m)), t, model, m)
  }

  /** The sources UpdateImgURLs gives every image of a freshly drawn pane. */
  function PaneUrls(t: Tab, model: Model, cloud: CloudObs, m: Moment): map<string, string>
  {
    match t
    case Precipitation =>
      map["precipitationStationObs" := StationObsUrl("Precip_Station", m),
          "precipitationModImg" := ModifiedForecastUrl("Modified_Rain_Rate", "Rain_Rate", m),
          "precipitationRadarObs" := RadarObsUrl(m),
          "precipitationFcstImg" := ForecastUrl(model, t, "PmslZRnSnCl", m)]
    case Temperature =>
      map["temperatureStationObs" := StationObsUrl("Temp_Station", m),
          "temperatureModImg" := ModifiedForecastUrl("Modified_Temperature_1p5m", "Temperature_1p5m", m),
          "temperatureFcstImg" := ForecastUrl(model, t, "T_surf", m)]
    case Cloud =>
      map["cloudModImg" := ModifiedForecastUrl("Modified_Cloud", "Cloud", m),
          "cloudObsImg" := CloudObsUrl(cloud, m),
          "cloudFcstImg" := ForecastUrl(model, t, "cloud", m)]
  }

  /** Two ImageCheck calls on images the page has, then the forecast image,
      on a page with no other images: every image ends with its own source. */
  lemma TwoChecksCover(srcs: map<string, string>, page: seq<string>, a: (string, string), b: (string, string),
                       kf: string, vf: string)
    requires a.0 in page && b.0 in page && kf in page
    requires forall id :: id in page ==> id == a.0 || id == b.0 || id == kf
    requires forall id :: id in srcs ==> id in page
    ensures ImageChecks(srcs, page, [a, b])[kf := vf] == map[a.0 := a.1, b.0 := b.1, kf := vf]
  {
    var s0 := srcs[a.0 := a.1];
    var s1 := s0[b.0 := b.1];
    assert [a, b][1..] == [b] && [b][1..] == [];
    assert ImageChecks(srcs, page, [a, b]) == ImageChecks(s0, page, [b]) == s1;
    assert s1[kf := vf].Keys == map[a.0 := a.1, b.0 := b.1, kf := vf].Keys;
  }

  /** Three ImageCheck calls, the last of which names an image the page may
      not have, then the forecast image, on a page with no other images. */
  lemma ThreeChecksCover(srcs: map<string, string>, page: seq<string>, a: (string, string), b: (string, string),
                         c: (string, string), kf: string, vf: string)
    requires a.0 in page && b.0 in page && kf in page
    requires forall id :: id in page ==> id == a.0 || id == b.0 || id == c.0 || id == kf
    requires forall id :: id in srcs ==> id in page
    ensures c.0 in page ==> ImageChecks(srcs, page, [a, b, c])[kf := vf] == map[a.0 := a.1, b.0 := b.1, c.0 := c.1, kf := vf]
    ensures c.0 !in page ==> ImageChecks(srcs, page, [a, b, c])[kf := vf] == map[a.0 := a.1, b.0 := b.1, kf := vf]
  {
    var s0 := srcs[a.0 := a.1];
    var s1 := s0[b.0 := b.1];
    var s2 := ImageCheck(s1, page, c.0, c.1);
    assert [a, b, c][1..] == [b, c] && [b, c][1..] == [c] && [c][1..] == [];
    assert ImageChecks(srcs, page, [a, b, c]) == ImageChecks(s0, page, [b, c]) == ImageChecks(s1, page, [c]) == s2;
    if c.0 in page {
      assert s2[kf := vf].Keys == map[a.0 := a.1, b.0 := b.1, c.0 := c.1, kf := vf].Keys;
    } else {
      assert s2[kf := vf].Keys == map[a.0 := a.1, b.0 := b.1, kf := vf].Keys;
    }
  }

  lemma PaneSourcesPrecipitation(srcs: map<string, string>, model: Model, cloud: CloudObs, m: Moment)
    requires forall id :: id in srcs ==> id in ImgIds(Precipitation)
    ensures PaneSources(srcs, Precipitation, model, cloud, m) == PaneUrls(Precipitation, model, cloud, m)
  {
    ForecastImgIds();
    var w := TabWrites(Precipitation, cloud, m);
    ThreeChecksCover(srcs, ImgIds(Precipitation), w[0], w[1], w[2], ForecastImgId(Precipitation),
                     ForecastUrl(model, Precipitation, "PmslZRnSnCl", m));
    assert w == [w[0], w[1], w[2]];
  }

  lemma PaneSourcesTemperature(srcs: map<string, string>, model: Model, cloud: CloudObs, m: Moment)
    requires forall id :: id in srcs ==> id in ImgIds(Temperature)
    ensures PaneSources(srcs, Temperature, model, cloud, m) == PaneUrls(Temperature, model, cloud, m)
  {
    ForecastImgIds();
    var w := TabWrites(Temperature, cloud, m);
    ThreeChecksCover(srcs, ImgIds(Temperature), w[0], w[1], w[2], ForecastImgId(Temperature),
                     ForecastUrl(model, Temperature, "T_surf", m));
    assert w == [w[0], w[1], w[2]];
    assert "temperatureErrorMap" !in ImgIds(Temperature);
  }

  lemma PaneSourcesCloud(srcs: map<string, string>, model: Model, cloud: CloudObs, m: Moment)
    requires forall id :: id in srcs ==> id in ImgIds(Cloud)
    ensures PaneSources(srcs, Cloud, model, cloud, m) == PaneUrls(Cloud, model, cloud, m)
  {
    ForecastImgIds();
    var w := TabWrites(Cloud, cloud, m);
    TwoChecksCover(srcs, ImgIds(Cloud), w[0], w[1], ForecastImgId(Cloud), ForecastUrl(model, Cloud, "cloud", m));
    assert w == [w[0], w[1]];
  }

  /** UpdateImgURLs gives every image of the pane a URL, whatever the images
      showed before, and nothing else: the Temperature tab's error-map URL is
      built but lands nowhere, because the pane has no such image. */
  lemma PaneSourcesCoverPane(srcs: map<string, string>, t: Tab, model: Model, cloud: CloudObs, m: Moment)
    requires forall id :: id in srcs ==> id in ImgIds(t)
    ensures PaneSources(srcs, t, model, cloud, m) == PaneUrls(t, model, cloud, m)
    ensures PaneUrls(t, model, cloud, m).Keys == set id | id in ImgIds(t)
  {
    match t
    case Precipitation => PaneSourcesPrecipitation(srcs, model, cloud, m);
    case Temperature => PaneSourcesTemperature(srcs, model, cloud, m);
    case Cloud => PaneSourcesCloud(srcs, model, cloud, m);
  }

  /** The folder part of the example URL, written out. */
  lemma ExampleFolder()
    ensures "FIATPlots" + "/Forecasts/" + "UKV" + "/" + "Temperature" + "/" + "20160823" + "/" + "00" + "Z/" == "FIATPlots/Forecasts/UKV/Temperature/20160823/00Z/"
  {
    assert "FIATPlots" + "/Forecasts/" == "FIATPlots/Forecasts/";
    assert "FIATPlots/Forecasts/" + "UKV" == "FIATPlots/Forecasts/UKV";
    assert "FIATPlots/Forecasts/UKV" + "/" == "FIATPlots/Forecasts/UKV/";
    assert "FIATPlots/Forecasts/UKV/" + "Temperature" == "FIATPlots/Forecasts/UKV/Temperature";
    assert "FIATPlots/Forecasts/UKV/Temperature" + "/" == "FIATPlots/Forecasts/UKV/Temperature/";
    assert "FIATPlots/Forecasts/UKV/Temperature/" + "20160823" == "FIATPlots/Forecasts/UKV/Temperature/20160823";
    assert "FIATPlots/Forecasts/UKV/Temperature/20160823" + "/" == "FIATPlots/Forecasts/UKV/Temperature/20160823/";
    assert "FIATPlots/Forecasts/UKV/Temperature/20160823/" + "00" == "FIATPlots/Forecasts/UKV/Temperature/20160823/00";
    assert "FIATPlots/Forecasts/UKV/Temperature/20160823/00" + "Z/" == "FIATPlots/Forecasts/UKV/Temperature/20160823/00Z/";
  }

  /** The file part of the example URL, written out. */
  lemma ExampleFile()
    ensures "T_surf" + "_oper-" + "ukv" + "_" + "20160823" + "_" + "05" + "Z_T" + "5" + "_UKrot.png" == "T_surf_oper-ukv_20160823_05Z_T5_UKrot.png"
  {
    assert "T_surf" + "_oper-" == "T_surf_oper-";
    assert "T_surf_oper-" + "ukv" == "T_surf_oper-ukv";
    assert "T_surf_oper-ukv" + "_" == "T_surf_oper-ukv_";
    assert "T_surf_oper-ukv_" + "20160823" == "T_surf_oper-ukv_20160823";
    assert "T_surf_oper-ukv_20160823" + "_" == "T_surf_oper-ukv_20160823_";
    assert "T_surf_oper-ukv_20160823_" + "05" == "T_surf_oper-ukv_20160823_05";
    assert "T_surf_oper-ukv_20160823_05" + "Z_T" == "T_surf_oper-ukv_20160823_05Z_T";
    assert "T_surf_oper-ukv_20160823_05Z_T" + "5" == "T_surf_oper-ukv_20160823_05Z_T5";
    assert "T_surf_oper-ukv_20160823_05Z_T5" + "_UKrot.png" == "T_surf_oper-ukv_20160823_05Z_T5_UKrot.png";
  }

  /** The example URL, folder and file apart. */
  lemma ForecastUrlExamplePieces(m: Moment)
    requires m.selectedDate == "20160823" && m.modelRunStr == "00" && m.forecastDate == "20160823"
    requires m.zuluTime == "05" && m.hourOffsetStr == "5"
    ensures ForecastUrl(UKV, Temperature, "T_surf", m) == ("FIATPlots" + "/Forecasts/" + "UKV" + "/" + "Temperature" + "/" + "20160823" + "/" + "00" + "Z/") + ("T_surf" + "_oper-" + "ukv" + "_" + "20160823" + "_" + "05" + "Z_T" + "5" + "_UKrot.png")
  {
    ModelTags();
  }

  /** The raw-forecast plot of the UKV 00Z run of 23 August 2016 at t+5h:
      the hour in the file name is the time of day (05Z) and the lead time is
      not padded (T5). */
  lemma ForecastUrlExample(m: Moment)
    requires m.selectedDate == "20160823" && m.modelRunStr == "00" && m.forecastDate == "20160823"
    requires m.zuluTime == "05" && m.hourOffsetStr == "5"
    ensures ForecastUrl(UKV, Temperature, "T_surf", m) == "FIATPlots/Forecasts/UKV/Temperature/20160823/00Z/" + "T_surf_oper-ukv_20160823_05Z_T5_UKrot.png"
  {
    ForecastUrlExamplePieces(m);
    ExampleFolder();
    ExampleFile();
  }

  /** Different lead times give different modified-forecast plots. */
  lemma ModifiedForecastUrlInjective(folder: string, field: string, m1: Moment, m2: Moment, g: nat, h: nat)
    requires m1.selectedDate == m2.selectedDate && m1.modelRunStr == m2.modelRunStr
    requires m1.paddedHourOffsetStr == TimeResolver.PaddedOffset(g)
    requires m2.paddedHourOffsetStr == TimeResolver.PaddedOffset(h)
    requires ModifiedForecastUrl(folder, field, m1) == ModifiedForecastUrl(folder, field, m2)
    ensures g == h
  {
    var p := FIATBaseURL + "/ModifiedForecasts/" + folder + "/" + m1.selectedDate + "/" + m1.modelRunStr + "Z/"
      + field + "_";
    assert ModifiedForecastUrl(folder, field, m1) == p + m1.paddedHourOffsetStr + ".png";
    assert ModifiedForecastUrl(folder, field, m2) == p + m2.paddedHourOffsetStr + ".png";
    ConcatCancel(p, m1.paddedHourOffsetStr, m2.paddedHourOffsetStr, ".png");
    TimeResolver.PaddedOffsetInjective(g, h);
  }

  /** The UKV and Euro4 plots of the same moment are different files. */
  lemma ForecastUrlDistinguishesModels(t: Tab, filename: string, m: Moment)
    ensures ForecastUrl(UKV, t, filename, m) != ForecastUrl(Euro4, t, filename, m)
  {
    var p := FIATBaseURL + "/Forecasts/";
    var u := ForecastUrl(UKV, t, filename, m);
    var e := ForecastUrl(Euro4, t, filename, m);
    assert u[|p|] == 'U';
    assert e[|p|] == 'E';
  }
}
