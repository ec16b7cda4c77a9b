/** The `Tabs` table of app/assets/javascripts/fiat.js: one entry per tab of
    plots, naming its images, their captions, its icon and the file name of its
    UKV/Euro4 forecast plots; and the tab's label (setTabIcon). */
module Tabs {
  import opened Wrappers
  import opened Text

  /** The tabs, in the order DrawTabs draws them. */
  datatype Tab = Precipitation | Temperature | Cloud

  const TabOrder: seq<Tab> := [Precipitation, Temperature, Cloud]

  /** The tab's element id and dictionary key. */
  function TabName(t: Tab): string
  {
    match t
    case Precipitation => "Precipitation"
    case Temperature => "Temperature"
    case Cloud => "Cloud"
  }

  const IconFolder: string := "/assets/fiat/icons/"

  /** One dictionary of `Tabs`. */
  datatype TabInfo = TabInfo(
    imgIds: seq<string>,
    imgTitles: seq<string>,
    iconSrc: Option<string>,
    modelFcstFilename: Option<string>,
    slider: string)

  /** The ids of the tab's images, in the order the pane shows them. */
  function ImgIds(t: Tab): seq<string>
  {
    match t
    case Precipitation => ["precipitationModImg", "precipitationFcstImg", "precipitationRadarObs", "precipitationStationObs"]
    case Temperature => ["temperatureModImg", "temperatureFcstImg", "temperatureStationObs"]
    case Cloud => ["cloudModImg", "cloudFcstImg", "cloudObsImg"]
  }

  /** The file name of the tab's UKV/Euro4 forecast plots. */
  function FcstFilename(t: Tab): Option<string>
  {
    match t
    case Precipitation => Some("PmslZRnSnCl")
    case Temperature => Some("T_surf")
    case Cloud => Some("cloud")
  }

  function Info(t: Tab): TabInfo
  {
    match t
    case Precipitation =>
      TabInfo(ImgIds(t),
              ["Modified Forecast", "Euro4 Forecast", "", "Radar/Station Observations (Rain Gauge)"],
              Some(IconFolder + "precip.png"), FcstFilename(t), "enabled")
    case Temperature =>
      TabInfo(ImgIds(t),
              ["Modified Forecast", "Euro4 Forecast", "Station Observations"],
              Some(IconFolder + "temp.png"), FcstFilename(t), "disabled")
    case Cloud =>
      TabInfo(ImgIds(t),
              ["Modified Forecast", "Euro4 Forecast", "Satellite Image Type"],
              Some(IconFolder + "cloud.png"), FcstFilename(t), "disabled")
  }

  /** setTabIcon: the tab shows the first letter of its name when it has no
      icon, and otherwise an image of the icon sized 41 by 30 pixels. */
  function TabIcon(id: string, iconSrc: Option<string>): (html: string)
    ensures (iconSrc.None? || iconSrc.value == "") ==> html == Slice(id, 0, 1) && |html| <= 1
    ensures iconSrc.Some? && iconSrc.value != "" ==>
      var prefix := "<img id='" + id + "Icon' src='";
      |html| > |prefix| + |iconSrc.value| && html[|prefix|..|prefix| + |iconSrc.value|] == iconSrc.value
  {
    if iconSrc.None? || iconSrc.value == "" then Slice(id, 0, 1)
    else
      var prefix := "<img id='" + id + "Icon' src='";
      var html := prefix + iconSrc.value + "' style='width: 41px; height: 30px'/>";
      assert html[|prefix|..|prefix| + |iconSrc.value|] == iconSrc.value;
      html
  }

  /** `plotType.toLowerCase() + "FcstImg"`: the image the UKV/Euro4 forecast
      goes in. */
  function ForecastImgId(t: Tab): string
  {
    ToLower(TabName(t)) + "FcstImg"
  }

  lemma ForecastImgIds()
    ensures ForecastImgId(Precipitation) == "precipitationFcstImg"
    ensures ForecastImgId(Temperature) == "temperatureFcstImg"
    ensures ForecastImgId(Cloud) == "cloudFcstImg"
  {
    assert ToLower("Precipitation") == "precipitation";
    assert ToLower("Temperature") == "temperature";
    assert ToLower("Cloud") == "cloud";
  }

  /** Every tab has a forecast plot and an image to show it in. */
  lemma ForecastImageOnPage(t: Tab)
    ensures FcstFilename(t).Some? && ForecastImgId(t) in ImgIds(t)
  {
    ForecastImgIds();
  }

  /** The position of an id in a list (`indexOf`), -1 when absent. */
  function IndexOf(ids: seq<string>, id: string): (k: int)
    ensures -1 <= k < |ids|
    ensures k >= 0 ==> ids[k] == id && forall j :: 0 <= j < k ==> ids[j] != id
    ensures k == -1 ==> id !in ids
  {
    if ids == [] then -1
    else if ids[0] == id then 0
    else
      var k := IndexOf(ids[1..], id);
      if k == -1 then -1 else k + 1
  }

  /** Ids within a list are pairwise different. */
  predicate Distinct(ids: seq<string>)
  {
    forall i, j :: 0 <= i < j < |ids| ==> ids[i] != ids[j]
  }

  /** What the dashboard relies on from the table: every tab has as many
      captions as images, distinct image ids, a forecast file name, and a
      forecast image (DrawModelSelectBtns finds it with `indexOf`, at
      position 1). */
  lemma TableConsistent(t: Tab)
    ensures |Info(t).imgIds| == |Info(t).imgTitles|
    ensures Distinct(Info(t).imgIds)
    ensures Info(t).modelFcstFilename.Some?
    ensures IndexOf(Info(t).imgIds, ForecastImgId(t)) == 1
  {
    ForecastImgIds();
  }

  /** The images of different tabs are different elements. */
  lemma TabsShareNoImage(s: Tab, t: Tab, id: string)
    requires s != t && id in Info(s).imgIds
    ensures id !in Info(t).imgIds
  {
  }

  /** The Temperature tab draws no image for its observed error map. */
  lemma NoErrorMapImage(t: Tab)
    ensures "temperatureErrorMap" !in Info(t).imgIds
  {
  }

  /** Every shipped tab has an icon, so no tab falls back to its initial. */
  lemma EveryTabHasIcon(t: Tab)
    ensures TabIcon(TabName(t), Info(t).iconSrc) ==
      "<img id='" + TabName(t) + "Icon' src='" + Info(t).iconSrc.value + "' style='width: 41px; height: 30px'/>"
  {
  }
}
