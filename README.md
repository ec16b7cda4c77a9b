# FIAT forecast dashboard and station-observation maps, in Dafny

This project models the two working parts of FIAT, a forecast-verification web
page. The page shows a modified forecast, the raw UKV or Euro4 forecast and the
observations for a chosen date, model run and lead time.

- **The dashboard script** is `app/assets/javascripts/fiat.js`. It holds:
  - the date catalogue `DateModelRun` and the two dropdowns built from it;
  - the 121 hour buttons, t+0h to t+120h, in collapsible sections of twelve;
  - `CalculateFcstInformation`, which turns the selection into the URL parts
    and the headline;
  - `UpdateImgURLs`, `setForecastImg` and `setCloudObsImg`, which build the
    image URLs of the selected tab;
  - the UKV horizon rule (UKV only up to t+36h);
  - the tab table `Tabs`, the satellite buttons of the Cloud tab, and the
    slider toggle.

  Its global variables and the page elements the handlers change are the
  fields of the class `Dashboard.Page`. Each handler is a method of that class.
  Each method is proved to leave the page in the state a function of
  `PageModel` describes. The lemmas of `PageModel` then prove what those
  functions keep:
  - the dropdowns, buttons and labels agree with the catalogue and the
    selection;
  - every image of the pane has the URL of the selected moment;
  - a disabled UKV button goes with Euro4 chosen;
  - observations are never dated before the selected day.

  The pure parts are modelled as functions with lemmas:
  - `Text` models the string idioms;
  - `Calendar` models the weekday of `new Date(y, m, d)`;
  - `Catalogue` models date options and model-run parsing;
  - `TimeResolver` models Zulu hours, day offsets, button ids and labels, and
    the headline;
  - `Tabs`, `Availability` and `Urls` model the tab table, the model horizon
    rule and the URLs.
- **The map bookkeeping of the observation-plotting script** is
  `public/FIAT/python/FIAT_Plot_StationObs_Maps.py`. It does the following:
  - `setStartTime` finds from a plot folder's existing maps the hour to resume
    from;
  - `getEarliestStartTime` and `extractData` decide whether to query MetDB and
    from when;
  - `assignLandsynData` and `assignSrewData` file every observation row under
    its time key in each plot dictionary.

  A plot dictionary is the class `StationObs.PlotDictionary`. The script's
  `datadicts` is `ObsScript.Datadicts`, and one date of `main`'s loop is
  `Datadicts.ProcessDate`. The orchestration is in `ObsScript`, the
  resume-time and decision logic in `ObsSchedule`.

The clock (`calculateDate`, `datetime.now()`), the file system (`glob`) and
MetDB are parameters: a function `calculateDate`, the clock's text `now`, a
folder's file names and the rows a query returns.

Two behaviours of the code are worth stating:
- **The raw-forecast URL.** For the UKV 00Z run of 23 August 2016 at t+5h, the
  code builds `…/00Z/T_surf_oper-ukv_20160823_05Z_T5_UKrot.png`. The hour in
  the file name is the time of day, and the lead time is not padded. See
  `Urls.ForecastUrlExample`.
- **Observation URLs past the catalogue.** When the forecast date is past the
  catalogue, `obsDate` is `undefined`. The observation URLs are still built,
  with the text "undefined" in them. See
  `PageModel.UnobservedSourcesSet`.

## Model

| member | source | states |
|---|---|---|
| Text.NatToString | app/assets/javascripts/fiat.js:818 | `i.toString()` is a non-empty digit string whose first digit is 0 only for 0 |
| Text.NatToStringRoundTrip | app/assets/javascripts/fiat.js:869-871 | `parseInt(i.toString())` reads back i: the digits of a number denote the number |
| Text.TakeLast | app/assets/javascripts/fiat.js:612 | `slice(-n)` has length min(n, length) and is the tail of the string |
| Text.Slice | app/assets/javascripts/fiat.js:630-632 | `slice(a, b)` within the string is the substring from a to b, and is never longer than b - a |
| Text.Pad2Digits | app/assets/javascripts/fiat.js:612 | `("0" + n).slice(-2)` of a number below 100 is two digits that read back as n |
| Text.Pad2Injective | public/FIAT/python/FIAT_Plot_StationObs_Maps.py:374-377 | two numbers below 100 with the same two-character padding are equal |
| Text.Split | app/assets/javascripts/fiat.js:536 | `split(",")` gives at least one piece and no piece holds the separator |
| Text.JoinSplit | app/assets/javascripts/fiat.js:536 | splitting loses nothing: re-joining the pieces with the separator gives the input |
| Text.SplitNoSeparator | app/assets/javascripts/fiat.js:536 | a string without the separator splits into itself alone |
| Text.SplitAtSeparator | app/assets/javascripts/fiat.js:536 | a separator after a separator-free piece ends that piece and the rest splits on its own |
| Text.SplitJoin | app/assets/javascripts/fiat.js:536 | joining separator-free pieces and splitting again gives the pieces back |
| Text.DigitsOnly | app/assets/javascripts/fiat.js:603 | `replace(/\D+/g, '')` leaves only digits |
| Text.DigitsOnlyAppend | app/assets/javascripts/fiat.js:603 | stripping non-digits distributes over concatenation |
| Text.DigitsOnlyOfDigits | app/assets/javascripts/fiat.js:603 | stripping non-digits from a digit string leaves it unchanged |
| Text.LeadingDigits | app/assets/javascripts/fiat.js:602 | the part `parseInt` reads is a digit prefix of its argument |
| Text.LeadingDigitsOfDigits | app/assets/javascripts/fiat.js:602 | on a digit string `parseInt` reads every character |
| Text.ParseIntOfDigits | app/assets/javascripts/fiat.js:602-604 | `parseInt` of a non-empty digit string is its decimal value |
| Text.ToLowerLetters | app/assets/javascripts/fiat.js:931 | `toLowerCase()` turns each capital into its small letter, keeps every other character, and leaves no capital |
| Text.LexLeTotal | public/FIAT/python/FIAT_Plot_StationObs_Maps.py:247 | Python string order compares any two strings |
| Text.LexLeTransitive | public/FIAT/python/FIAT_Plot_StationObs_Maps.py:247 | Python string order is transitive |
| Text.LexLeAntisymmetric | public/FIAT/python/FIAT_Plot_StationObs_Maps.py:247 | strings ordered both ways are equal |
| Text.LexLeDigits | public/FIAT/python/FIAT_Plot_StationObs_Maps.py:247-249 | on digit strings of one length, string order is numeric order, in both directions |
| Calendar.DaysInMonth | app/assets/javascripts/fiat.js:636 | every month of the Gregorian calendar has 28 to 31 days |
| Calendar.Weekday | app/assets/javascripts/fiat.js:638 | `getDay()` is a weekday index 0..6 |
| Calendar.DateWeekday | app/assets/javascripts/fiat.js:636-638 | `new Date(y, m - 1, d).getDay()` is a weekday index 0..6 |
| Calendar.NextDate | app/assets/javascripts/fiat.js:636 | the day after a valid date is a valid date |
| Calendar.YearLength | app/assets/javascripts/fiat.js:636 | a year has 366 days exactly when it is a leap year, otherwise 365 |
| Calendar.DaysBeforeDecember | app/assets/javascripts/fiat.js:636 | January to November hold 334 days, 335 in a leap year |
| Calendar.NextDateIsNextDay | app/assets/javascripts/fiat.js:636 | consecutive calendar days have consecutive day numbers |
| Calendar.NextDayInMonth | app/assets/javascripts/fiat.js:636 | within a month the next day is the next day number |
| Calendar.NextDayNextMonth | app/assets/javascripts/fiat.js:636 | the first of a month follows the last of the month before |
| Calendar.NextDayNextYear | app/assets/javascripts/fiat.js:636 | 1 January follows 31 December |
| Calendar.DayNumberInYear | app/assets/javascripts/fiat.js:636 | a month in 1..12 does not roll into another year |
| Calendar.NextDateWeekday | app/assets/javascripts/fiat.js:636-638 | the weekday of the next day is the next weekday, modulo 7 |
| Calendar.Weekday20160823 | app/assets/javascripts/fiat.js:636-638 | `new Date(2016, 7, 23).getDay()` is 2, a Tuesday |
| Calendar.DayInText | app/assets/javascripts/fiat.js:798-802 | `getDayInText` names a weekday exactly for indexes 0..6, otherwise `undefined` |
| Calendar.MonthInText | app/assets/javascripts/fiat.js:804-808 | `getMonthInText` names a month exactly for indexes 0..11, otherwise `undefined` |
| Calendar.DayInTextInjective | app/assets/javascripts/fiat.js:798-802 | different weekday indexes have different names |
| Catalogue.DateLabelShape | app/assets/javascripts/fiat.js:484 | the label of a YYYYMMDD key is ten characters, dashes at 4 and 7, and the key once the dashes are removed |
| Catalogue.PopulateDateSelect | app/assets/javascripts/fiat.js:478-487 | the loop yields the dropdown the page keeps (`DateOptionsFor`): one option per catalogue date, in catalogue order, shown as YYYY-MM-DD and valued YYYYMMDD |
| Catalogue.HasRunPatternIff | app/assets/javascripts/fiat.js:530-540 | the unanchored `/\d{2}./` search succeeds exactly when two digits and a non-line-terminator occur somewhere |
| Catalogue.RunOptions | app/assets/javascripts/fiat.js:539-544 | no more options than tokens |
| Catalogue.RunOptionsAppend | app/assets/javascripts/fiat.js:539-544 | the options of two token lists are the options of each, in order |
| Catalogue.RunOptionsMembership | app/assets/javascripts/fiat.js:539-544 | a string is offered exactly when it is the first two characters of a token the pattern matches |
| Catalogue.RetrieveModelRuns | app/assets/javascripts/fiat.js:526-545 | the dropdown receives the options of the comma-split run list, in order |
| Catalogue.RunOptionsAllMatch | app/assets/javascripts/fiat.js:539-544 | when every token starts with two digits and a character, every token gives its first two characters |
| Catalogue.SplitFourRuns | app/assets/javascripts/fiat.js:85 | `"00Z,06Z,12Z,18Z".split(",")` is the four runs |
| Catalogue.FourRunOptions | app/assets/javascripts/fiat.js:539-544 | the four shipped tokens give 00, 06, 12, 18 |
| Catalogue.FourRunsParsed | app/assets/javascripts/fiat.js:85 | the shipped four-run list offers 00, 06, 12 and 18 |
| Catalogue.SplitTwoRuns | app/assets/javascripts/fiat.js:85 | `"00Z,06Z".split(",")` is the two runs |
| Catalogue.TwoRunOptions | app/assets/javascripts/fiat.js:539-544 | the two shipped tokens give 00 and 06 |
| Catalogue.TwoRunsParsed | app/assets/javascripts/fiat.js:85 | the shipped two-run list of 26 August offers 00 and 06 |
| Catalogue.CatalogueAscending | app/assets/javascripts/fiat.js:480 | in a well-formed catalogue later dates are larger numbers |
| Catalogue.KeysOrdered | app/assets/javascripts/fiat.js:480 | keys at or after a position are date keys no smaller, equal only at that position |
| Catalogue.EntryWithRuns | app/assets/javascripts/fiat.js:85 | an entry with a date key and two-digit runs is well formed |
| Catalogue.FourOptionsWellFormed | app/assets/javascripts/fiat.js:85 | a date key with runs 00, 06, 12, 18 is a well-formed entry |
| Catalogue.FourRunEntryWellFormed | app/assets/javascripts/fiat.js:85 | a date key with the run list `00Z,06Z,12Z,18Z` is a well-formed entry |
| Catalogue.TwoRunEntryWellFormed | app/assets/javascripts/fiat.js:85 | a date key with the run list `00Z,06Z` is a well-formed entry |
| Catalogue.TwoOptionsWellFormed | app/assets/javascripts/fiat.js:85 | a date key with runs 00 and 06 is a well-formed entry |
| Catalogue.AugustKeysOrdered | app/assets/javascripts/fiat.js:85 | keys differing only in their last digit sort by it and are distinct |
| Catalogue.DateModelRunEntries | app/assets/javascripts/fiat.js:85 | every shipped entry is well formed |
| Catalogue.DateModelRunOrdered | app/assets/javascripts/fiat.js:85 | the shipped keys are strictly ascending |
| Catalogue.DateModelRunWellFormed | app/assets/javascripts/fiat.js:85 | the shipped catalogue is well formed |
| Catalogue.FindDate | app/assets/javascripts/fiat.js:515-524 | the search returns the first entry whose key is the selected date, or none when no key is |
| TimeResolver.ZuluHour | app/assets/javascripts/fiat.js:607-611 | run + lead time wrapped past midnight is an hour below 24 |
| TimeResolver.DayAndHourDecompose | app/assets/javascripts/fiat.js:607-619 | 24 × dateOffset + Zulu hour = run + lead time, and that is the only such day-and-hour pair |
| TimeResolver.ZuluTimeDigits | app/assets/javascripts/fiat.js:612 | the URL hour is two digits that read back as the Zulu hour |
| TimeResolver.Run06At90 | app/assets/javascripts/fiat.js:619 | 06Z at t+90h is four days later, at 00Z |
| TimeResolver.PaddedOffsetDigits | app/assets/javascripts/fiat.js:614-618 | the padded lead time has at least two digits and reads back as the lead time |
| TimeResolver.PaddedOffsetInjective | app/assets/javascripts/fiat.js:614-618 | different lead times pad differently |
| TimeResolver.ButtonIdRoundTrip | app/assets/javascripts/fiat.js:603-604 | stripping non-digits from `"FcstSel" + i` and parsing gives i back |
| TimeResolver.ButtonIdInjective | app/assets/javascripts/fiat.js:821 | different lead times have different button ids |
| TimeResolver.DrawFcstBtns | app/assets/javascripts/fiat.js:811-855 | the loop yields the buttons and texts the page keeps (`AllButtons`, `InitialTexts`): 121 buttons, the i-th with id `FcstSel`i, a header every twelfth, text "+i hrs" |
| TimeResolver.SectionOfButton | app/assets/javascripts/fiat.js:827-852 | every button sits in the section of the last header at or before it, twelve to a section |
| TimeResolver.LabelHour | app/assets/javascripts/fiat.js:871-875 | the label's hour is below 24 |
| TimeResolver.DoublePadIsPad2 | app/assets/javascripts/fiat.js:879 | padding from "00" and padding from "0" agree for hours below 100 |
| TimeResolver.DoublePadShort | app/assets/javascripts/fiat.js:879 | for one or two characters, padding from "00" and from "0" agree |
| TimeResolver.LabelExtendsInitialText | app/assets/javascripts/fiat.js:882 | a label is the button's first text, " - ", and the Zulu time the URLs use followed by "00" |
| TimeResolver.LabelTimeIsZulu | app/assets/javascripts/fiat.js:628 | the last four characters of a label are the URL's Zulu hour and "00" |
| TimeResolver.LabelFromHour | app/assets/javascripts/fiat.js:871-882 | the loop's `TimeInt`/`TimeStr` steps build the label the model defines |
| TimeResolver.UpdateFcstButtonText | app/assets/javascripts/fiat.js:867-883 | the loop yields the labels the page keeps (`ButtonLabels`): every button 0..120 gets the label of the run |
| TimeResolver.ResolveForecastDay | app/assets/javascripts/fiat.js:619-627 | observations exist exactly when the dropdown has the date offset places later, then both dates are that option; otherwise `calculateDate` of the last option |
| TimeResolver.ObservedDayNotBefore | app/assets/javascripts/fiat.js:621-627 | with ascending dates, observations are from the selected date or later, from it exactly at offset 0 |
| TimeResolver.HeadlineStartsWithDay | app/assets/javascripts/fiat.js:636-641 | the headline starts with the forecast date's weekday name (or "undefined") |
| TimeResolver.HeadlinePrefix | app/assets/javascripts/fiat.js:641 | the headline's text starts with its first part |
| TimeResolver.KeyWeekday | app/assets/javascripts/fiat.js:630-638 | a YYYYMMDD key has a weekday index below 7 |
| TimeResolver.HeadlineOfDateKey | app/assets/javascripts/fiat.js:630-641 | for a date key the headline names the weekday (never "undefined") and writes DD/MM/YYYY |
| TimeResolver.KeyWeekday20160823 | app/assets/javascripts/fiat.js:630-638 | 20160823 is cut into 2016, 08, 23 and is a Tuesday |
| TimeResolver.FirstHeadline | app/assets/javascripts/fiat.js:630-641 | the headline of the first catalogue date at t+0h is "Tuesday 0000Z 23/08/2016 (t+0h)" |
| Tabs.TabIcon | app/assets/javascripts/fiat.js:205-216 | no icon: the tab's first letter; an icon: an image tag holding its source |
| Tabs.ForecastImgIds | app/assets/javascripts/fiat.js:931 | each tab's forecast image id is its lower-case name + "FcstImg" |
| Tabs.ForecastImageOnPage | app/assets/javascripts/fiat.js:117-143 | every tab has a forecast file name and its forecast image among its images |
| Tabs.IndexOf | app/assets/javascripts/fiat.js:932 | `indexOf` is the first position of the id, or -1 exactly when absent |
| Tabs.TableConsistent | app/assets/javascripts/fiat.js:117-143 | as many captions as images, distinct ids, a forecast file, the forecast image at position 1 |
| Tabs.TabsShareNoImage | app/assets/javascripts/fiat.js:117-143 | different tabs have no image in common |
| Tabs.NoErrorMapImage | app/assets/javascripts/fiat.js:769 | no tab draws a `temperatureErrorMap` image |
| Tabs.EveryTabHasIcon | app/assets/javascripts/fiat.js:205-216 | every shipped tab shows its icon image, never its initial |
| Availability.ModelTag | app/assets/javascripts/fiat.js:965 | the model's tag in a file name is three characters |
| Availability.ModelTags | app/assets/javascripts/fiat.js:965 | the tags are "ukv" and "eur" |
| Availability.HorizonRule | app/assets/javascripts/fiat.js:779-794 | after the rule, UKV is disabled exactly past t+36h, then with Euro4 chosen, and consistency is kept |
| Availability.HorizonKeepsChoice | app/assets/javascripts/fiat.js:783-792 | within t+36h the rule keeps the chosen model |
| Availability.HorizonIdempotent | app/assets/javascripts/fiat.js:783-792 | applying the rule twice for one hour is applying it once |
| Availability.ClickConsistent | app/assets/javascripts/fiat.js:910-926 | clicks keep a disabled UKV button paired with Euro4 |
| Availability.UkvChoiceSurvives | app/assets/javascripts/fiat.js:783-792 | a UKV click within the horizon survives the next hour within it and is overridden past it |
| Urls.ImageChecksFrame | app/assets/javascripts/fiat.js:757-777 | a run of checks sets the images it names that exist, and leaves every other image alone |
| Urls.SetForecastImg | app/assets/javascripts/fiat.js:951-978 | the forecast image gets the chosen model's forecast URL, nothing else changes |
| Urls.TwoChecksCover | app/assets/javascripts/fiat.js:771-777 | two checks and the forecast image cover a three-image pane |
| Urls.ThreeChecksCover | app/assets/javascripts/fiat.js:762-769 | three checks and the forecast image cover the pane, the third landing only if present |
| Urls.PaneSourcesPrecipitation | app/assets/javascripts/fiat.js:751-760 | UpdateImgURLs on the Precipitation pane sets all four images to their URLs |
| Urls.PaneSourcesTemperature | app/assets/javascripts/fiat.js:762-769 | UpdateImgURLs on the Temperature pane sets its three images; the error map lands nowhere |
| Urls.PaneSourcesCloud | app/assets/javascripts/fiat.js:771-777 | UpdateImgURLs on the Cloud pane sets its three images |
| Urls.PaneSourcesCoverPane | app/assets/javascripts/fiat.js:745-795 | whatever the pane showed, afterwards exactly the tab's images have sources, each its own URL |
| Urls.ForecastUrlExamplePieces | app/assets/javascripts/fiat.js:952-972 | the example URL is its folder and file parts |
| Urls.ForecastUrlExample | app/assets/javascripts/fiat.js:952-972 | UKV 00Z 23 August 2016 t+5h gives `…/00Z/T_surf_oper-ukv_20160823_05Z_T5_UKrot.png` |
| Urls.ModifiedForecastUrlInjective | app/assets/javascripts/fiat.js:754 | different lead times give different modified-forecast plots |
| Urls.ForecastUrlDistinguishesModels | app/assets/javascripts/fiat.js:952-972 | the UKV and Euro4 plots of one moment are different URLs |
| PageModel.StepHour | app/assets/javascripts/fiat.js:410-435 | changeHour moves to the next or previous hour, staying at either end |
| PageModel.StepHourRoundTrip | app/assets/javascripts/fiat.js:410-435 | stepping forward then back (or back then forward) returns to the hour, away from the ends |
| PageModel.StepDate | app/assets/javascripts/fiat.js:494-500 | changeDate moves to the next or previous date, staying at either end |
| PageModel.DrawnHighlightDisagrees | app/assets/javascripts/fiat.js:1028-1032 | as written, SelectTab back to the Cloud tab with the infrared product chosen highlights Cloud Top while the pane shows the infrared image |
| PageModel.TabSelectedHighlight | app/assets/javascripts/fiat.js:1028-1032 | SelectTab as written differs from the corrected SelectTab only in the satellite highlight |
| PageModel.SetActiveIgnoresHighlight | app/assets/javascripts/fiat.js:577-595 | SetActiveFcstBtn neither reads nor writes the satellite highlight |
| PageModel.ShownCloudObs | app/assets/javascripts/fiat.js:771-777 | the Cloud pane's satellite image is the chosen product's |
| PageModel.StaleCaption | app/assets/javascripts/fiat.js:976-977 | as written, a UKV click on the Precipitation pane shows the UKV forecast under "Euro4 Forecast"; corrected, the caption reads "UKV Forecast" |
| PageModel.StalePrecipitationCaption | app/assets/javascripts/fiat.js:976-977 | as written, the first UKV click on the page init leaves keeps the caption "Euro4 Forecast" |
| PageModel.PaneUrlsModel | app/assets/javascripts/fiat.js:779-794 | the model choice affects a pane only through its forecast image |
| PageModel.PaneUrlsCloudObs | app/assets/javascripts/fiat.js:1052-1055 | the satellite product affects the Cloud pane only through its satellite image |
| PageModel.ToggleBit | app/assets/javascripts/fiat.js:1084 | `^= 1` flips 0 and 1 |
| PageModel.PaneUpdatedShown | app/assets/javascripts/fiat.js:745-795 | UpdateImgURLs shows every image of the pane, keeps the page settled, keeps UKV within t+36h, changes nothing else |
| PageModel.ReadBack | app/assets/javascripts/fiat.js:600-628 | on a labelled page the lead time read from the button id, the parsed run and the label's last four characters are what the model defines |
| PageModel.ValidIgnoresGlobals | app/assets/javascripts/fiat.js:597-642 | the page invariant does not depend on the computed globals |
| PageModel.ShownSettles | app/assets/javascripts/fiat.js:745-795 | a page showing its pane holds only images of the selected tab |
| PageModel.LabelledFrame | app/assets/javascripts/fiat.js:863-883 | the labels depend only on the dropdowns and the buttons |
| PageModel.MomentFrame | app/assets/javascripts/fiat.js:597-642 | the computed globals depend only on the selection |
| PageModel.ComputedValid | app/assets/javascripts/fiat.js:597-642 | CalculateFcstInformation changes only the globals it computes, and the page stays valid |
| PageModel.ComputedMoment | app/assets/javascripts/fiat.js:597-642 | the globals it computes are the resolved ones |
| PageModel.ComputedResolves | app/assets/javascripts/fiat.js:597-642 | globals and headline resolved, a date past the catalogue from `calculateDate`, nothing else changed |
| PageModel.ComputedFallback | app/assets/javascripts/fiat.js:621-627 | past the catalogue the forecast date counts from the last listed date |
| PageModel.ComputedBy | app/assets/javascripts/fiat.js:597-642 | the step-by-step globals give exactly the page Computed describes |
| PageModel.DropdownDay | app/assets/javascripts/fiat.js:621-627 | the try/catch on the dropdown is ResolveForecastDay on its values |
| PageModel.PaneUpdatedResolves | app/assets/javascripts/fiat.js:745-795 | UpdateImgURLs on a page with computed globals resolves it |
| PageModel.CalculatedResolves | app/assets/javascripts/fiat.js:597-644 | CalculateFcstInformation keeps the page valid, resolves it, changes only globals, images and model choice |
| PageModel.SetActiveResolves | app/assets/javascripts/fiat.js:577-595 | SetActiveFcstBtn resolves the page for the new hour on the same date, run, tab and product |
| PageModel.RelabelledResolves | app/assets/javascripts/fiat.js:863-890 | UpdateFcstButtonText labels for the selected run and re-resolves the same hour |
| PageModel.HourStepKeeps | app/assets/javascripts/fiat.js:410-435 | changeHour moves to the neighbouring hour and keeps the page resolved on the same date, run and tab |
| PageModel.DateSelectKeeps | app/assets/javascripts/fiat.js:459-462 | a picked date lists its runs, selects the first and shows the same hour |
| PageModel.DateStepKeeps | app/assets/javascripts/fiat.js:490-503 | changeDate moves to the neighbouring date and always restarts from its first run |
| PageModel.RunSelectKeeps | app/assets/javascripts/fiat.js:511 | a picked run relabels the hours and is the run shown |
| PageModel.TabSelectKeeps | app/assets/javascripts/fiat.js:268-285 | SelectTab shows the tab with exactly its images set, at the same hour, highlight matching the product |
| PageModel.ShownKeys | app/assets/javascripts/fiat.js:745-795 | a shown pane has sources for exactly the tab's images |
| PageModel.PaneDrawnValid | app/assets/javascripts/fiat.js:290-376 | drawing a pane keeps the page valid and changes only the pane |
| PageModel.ModelClickKeeps | app/assets/javascripts/fiat.js:910-926 | a model click is the availability click; the page stays resolved, only model, forecast image and caption change |
| PageModel.CloudObsClickKeeps | app/assets/javascripts/fiat.js:986-1018 | a satellite click chooses, highlights and shows that product; only the satellite image changes |
| PageModel.SliderKeeps | app/assets/javascripts/fiat.js:1078-1085 | SliderActivation flips the slider, keeps its text in step, and a second click restores the page |
| PageModel.LoadedValid | app/assets/javascripts/fiat.js:19-27 | the loaded page lists the first date's runs and labels for the first of them, with Euro4, Cloud Top, slider off |
| PageModel.InitialResolves | app/assets/javascripts/fiat.js:147-161 | init leaves a valid, resolved page: first date, first run, t+0h, first tab |
| PageModel.ObservedDay | app/assets/javascripts/fiat.js:621-627 | observations are never from before the selected date, and from it exactly at offset 0 |
| PageModel.ObservedKeys | app/assets/javascripts/fiat.js:621-623 | with observations, the selected and forecast dates are catalogue keys dateOffset apart |
| PageModel.ObservedHeadline | app/assets/javascripts/fiat.js:630-641 | with observations, the headline starts with the forecast date's weekday name |
| PageModel.UnobservedSourcesSet | app/assets/javascripts/fiat.js:751-769 | past the end of the catalogue there is no observation date, and the observation images still get a source with "undefined" in place of the date |
| Dashboard.FcstInformation | app/assets/javascripts/fiat.js:597-642 | the step-by-step body yields the resolved globals, dates and headline |
| Dashboard.Page.constructor | app/assets/javascripts/fiat.js:19-27 | windowLoaded leaves the initial page, which is valid and resolved |
| Dashboard.Page.Init | app/assets/javascripts/fiat.js:147-161 | init takes the loaded page to the initial one |
| Dashboard.Page.PopulateModelRunDropdown | app/assets/javascripts/fiat.js:515-524 | the runs of the selected date are listed and the first selected |
| Dashboard.Page.UpdateFcstButtonText | app/assets/javascripts/fiat.js:863-890 | the page becomes Relabelled of the old one |
| Dashboard.Page.SetActiveFcstBtn | app/assets/javascripts/fiat.js:577-595 | the page becomes SetActive of the old one |
| Dashboard.Page.CalculateFcstInformation | app/assets/javascripts/fiat.js:597-644 | the page becomes Calculated of the old one |
| Dashboard.Page.SetGlobals | app/assets/javascripts/fiat.js:600-641 | only the computed globals and the headline change |
| Dashboard.Page.UpdateImgURLs | app/assets/javascripts/fiat.js:745-795 | the page becomes PaneUpdated of the old one |
| Dashboard.Page.LimitUkv | app/assets/javascripts/fiat.js:779-792 | the model choice becomes the horizon rule's, nothing else changes |
| Dashboard.Page.CheckPaneImages | app/assets/javascripts/fiat.js:751-777 | the tab's ImageCheck calls are applied in order, nothing else changes |
| Dashboard.Page.SetForecastImage | app/assets/javascripts/fiat.js:951-978 | the forecast image and its caption are set for the chosen model (the caption as corrected under Findings) |
| Dashboard.Page.ChangeHour | app/assets/javascripts/fiat.js:410-435 | the page becomes HourStepped of the old one |
| Dashboard.Page.ChangeDate | app/assets/javascripts/fiat.js:490-503 | the page becomes DateStepped of the old one |
| Dashboard.Page.SelectDate | app/assets/javascripts/fiat.js:459-462 | the page becomes DateSelected of the old one |
| Dashboard.Page.SelectModelRun | app/assets/javascripts/fiat.js:511 | the page becomes RunSelected of the old one |
| Dashboard.Page.SelectTab | app/assets/javascripts/fiat.js:268-285 | the page becomes TabSelected of the old one |
| Dashboard.Page.DrawPaneContent | app/assets/javascripts/fiat.js:290-376 | the page becomes PaneDrawn of the old one |
| Dashboard.Page.ClickModel | app/assets/javascripts/fiat.js:910-926 | the page becomes ModelClicked of the old one |
| Dashboard.Page.ClickCloudObs | app/assets/javascripts/fiat.js:986-1018 | the page becomes CloudObsClicked of the old one |
| Dashboard.Page.SliderActivation | app/assets/javascripts/fiat.js:1078-1085 | the page becomes SliderToggled of the old one |
| ObsSchedule.FileTime | public/FIAT/python/FIAT_Plot_StationObs_Maps.py:484 | `int(FileName[8:12])` of four digits is below 10000 |
| ObsSchedule.FileTimes | public/FIAT/python/FIAT_Plot_StationObs_Maps.py:478-485 | no more times than files, each below 10000 |
| ObsSchedule.FileTimesOfMaps | public/FIAT/python/FIAT_Plot_StationObs_Maps.py:479-484 | a time is listed exactly when some file of the folder matches the date's glob and has that time |
| ObsSchedule.Latest | public/FIAT/python/FIAT_Plot_StationObs_Maps.py:485-492 | the last of the sorted times is one of them and no smaller than any |
| ObsSchedule.Pad4Digits | public/FIAT/python/FIAT_Plot_StationObs_Maps.py:494 | `("0" + str(n))[-4:]` for 100..9999 is four digits reading back as n |
| ObsSchedule.ResumeAfterLatest | public/FIAT/python/FIAT_Plot_StationObs_Maps.py:487-495 | "0000" for no maps, otherwise four digits one hour after the latest, later than every map |
| ObsSchedule.ResumeAfterLastHour | public/FIAT/python/FIAT_Plot_StationObs_Maps.py:490-495 | a map at 2300 resumes at "2400" |
| ObsSchedule.ResumeAfterMidnight | public/FIAT/python/FIAT_Plot_StationObs_Maps.py:490-495 | a map at 0000 resumes at "0100" |
| ObsSchedule.Insert | public/FIAT/python/FIAT_Plot_StationObs_Maps.py:246-247 | append then sort adds one entry |
| ObsSchedule.InsertSorted | public/FIAT/python/FIAT_Plot_StationObs_Maps.py:246-247 | append then sort keeps the list sorted and is a permutation of the list plus the new entry |
| ObsSchedule.Earliest | public/FIAT/python/FIAT_Plot_StationObs_Maps.py:242-249 | the earliest start is one of them and sorts before all |
| ObsSchedule.EarliestUnique | public/FIAT/python/FIAT_Plot_StationObs_Maps.py:242-249 | any start that sorts before all is the earliest |
| ObsSchedule.EarliestStartTime | public/FIAT/python/FIAT_Plot_StationObs_Maps.py:242-249 | getEarliestStartTime returns the earliest start |
| ObsSchedule.EarliestIsNumericMin | public/FIAT/python/FIAT_Plot_StationObs_Maps.py:242-249 | on four-digit times the first as strings is the numeric minimum |
| ObsSchedule.QueryWhenBehind | public/FIAT/python/FIAT_Plot_StationObs_Maps.py:434-444 | MetDB is queried exactly when the start is neither "2400" nor the current hour, from that start |
| ObsSchedule.AllImagesMeansDayComplete | public/FIAT/python/FIAT_Plot_StationObs_Maps.py:431-437 | "Already have all images" only when every folder has a map at 23:00 or later |
| StationObs.Pad2Shape | public/FIAT/python/FIAT_Plot_StationObs_Maps.py:374-377 | `("0" + str(n))[-2:]` is always two digits |
| StationObs.Cut5 | public/FIAT/python/FIAT_Plot_StationObs_Maps.py:379 | the glued key cuts back into its five parts |
| StationObs.TimeKeyMatches | public/FIAT/python/FIAT_Plot_StationObs_Maps.py:297-298 | every key is all digits and passes plotObsMaps's eight-digit date filter |
| StationObs.TimeKeyFields | public/FIAT/python/FIAT_Plot_StationObs_Maps.py:297-301 | `DateTime[0:8]` and `DateTime[8:]` read back as the row's date and hour-minutes |
| StationObs.LandsynSameKey | public/FIAT/python/FIAT_Plot_StationObs_Maps.py:373-382 | two LANDSYN rows share a key exactly when they share the minute of observation |
| StationObs.SrewSameKey | public/FIAT/python/FIAT_Plot_StationObs_Maps.py:404-413 | two SREW rows share a key exactly when they share the hour |
| StationObs.LandsynRouting | public/FIAT/python/FIAT_Plot_StationObs_Maps.py:384-396 | a row gives one point with its position and this plot type's reading, or nothing if any is masked |
| StationObs.SrewSentinelsDropped | public/FIAT/python/FIAT_Plot_StationObs_Maps.py:415-421 | trace (-1) and NIL (-9999999) amounts are dropped; a dry hour is plotted |
| StationObs.FiledKeys | public/FIAT/python/FIAT_Plot_StationObs_Maps.py:382 | a key exists afterwards exactly when it did before or some row has it, even with no points |
| StationObs.FiledLists | public/FIAT/python/FIAT_Plot_StationObs_Maps.py:382-396 | each key's list is the old list followed by the points filed under it, in row order |
| StationObs.FiledElsewhere | public/FIAT/python/FIAT_Plot_StationObs_Maps.py:372-396 | keys no row uses keep their lists |
| StationObs.CollectedNone | public/FIAT/python/FIAT_Plot_StationObs_Maps.py:372-396 | a key no row uses collects no points |
| StationObs.SrewCollectedFromRows | public/FIAT/python/FIAT_Plot_StationObs_Maps.py:403-421 | every SREW point filed under a key comes from a row of that key with a present, non-negative amount |
| StationObs.PlotDictionary.constructor | public/FIAT/python/FIAT_Plot_StationObs_Maps.py:141-146 | a dictionary starts at "0000" with no observations |
| StationObs.PlotDictionary.SetStartTime | public/FIAT/python/FIAT_Plot_StationObs_Maps.py:476-495 | the start time becomes the resume time of the folder's maps of the date; data unchanged |
| StationObs.PlotDictionary.AssignLandsynData | public/FIAT/python/FIAT_Plot_StationObs_Maps.py:368-396 | the data becomes the old data with every row filed in order; start time unchanged |
| StationObs.PlotDictionary.AssignLandsynRow | public/FIAT/python/FIAT_Plot_StationObs_Maps.py:373-396 | one row's key is created if missing and its entries appended |
| StationObs.PlotDictionary.AssignSrewData | public/FIAT/python/FIAT_Plot_StationObs_Maps.py:399-421 | the data becomes the old data with every SREW row filed in order; start time unchanged |
| StationObs.PlotDictionary.AssignSrewRow | public/FIAT/python/FIAT_Plot_StationObs_Maps.py:404-421 | one SREW row's key is created if missing and its entries appended |
| ObsScript.Extract | public/FIAT/python/FIAT_Plot_StationObs_Maps.py:429-444 | extractData decides from the earliest start and the clock's hour |
| ObsScript.AssignOne | public/FIAT/python/FIAT_Plot_StationObs_Maps.py:526-535 | LANDSYN dictionaries file LANDSYN rows, SREW ones SREW rows; start time unchanged |
| ObsScript.Datadicts.constructor | public/FIAT/python/FIAT_Plot_StationObs_Maps.py:141-210 | the temperature (LANDSYN) and precipitation (SREW) dictionaries, distinct, at "0000", empty |
| ObsScript.Datadicts.ProcessDate | public/FIAT/python/FIAT_Plot_StationObs_Maps.py:510-535 | each start time is its folder's resume time, the decision is from the earliest, and the data is filed only on a query |

## Left out

- **DOM and event wiring.** The model leaves out element creation, styling,
  focus, the accordion (`ToggleAccordion`), tab animations (`ExpandTab`,
  `CollapseTab`), colour bars and the slider's mouse tracking (`slider`). Only
  the state these handlers leave behind is modelled.
- **Image load failures.** `ImageCheck`'s fallback to `DataUnavailable.png`
  when an image fails to load is left out: loading an image is I/O.
- **`calculateDate`.** It reads the wall clock, so it is a parameter and its
  result is not specified.
- **Malformed catalogues.** A malformed catalogue (NaN run hours, a date
  missing from `DateModelRun`) is left out. The page invariant assumes a
  well-formed catalogue, and the shipped one is proved well formed.
- **The commented-out URL feature** (`GenerateURL`, `ReadURL`) and the unused
  `changeModelText` are left out: they are not live code.
- **Floating point.** Kelvin to Celsius and m/s to knots are computed in exact
  real arithmetic. IEEE rounding is left out.
- **Dictionary order.** Python 2's order of `datadicts` is modelled as
  temperature then precipitation. The order cannot change the result, because
  `getEarliestStartTime` sorts.
- **Sorting.** The file-time sort followed by `[-1]` is modelled as the
  maximum (`Latest`). The start-time sort is modelled as insertion into a
  sorted list (`Insert`), proved sorted and a permutation.
- StationObs.PlotDictionary.SetStartTime: requires an eight-digit date. The
  script's `re.match` also admits longer strings that start with eight digits.
  Those are left out, because the glob and file-name slicing are only
  meaningful for eight-digit dates.
- **Masked fields and failed queries.** Masked station numbers or masked date
  fields in a row are not modelled, because `int()` and `str()` of a masked
  value fail in the script. A failed MetDB query is also left out: it leaves
  no rows for the date, and `assignLandsynData` then raises `KeyError`.
- **MetDB, `glob`, `datetime.now()`, `os` and the plotting.** Cartopy, iris,
  the colour maps, `rotate_coords`, `plotObsMaps`' drawing and
  `saveAndResize` are left out. The queries' rows, the folder listings and the
  clock's text are parameters. Of `plotObsMaps`, only its key filter and
  slicing are modelled (`StationObs.TimeKeyMatches`,
  `StationObs.TimeKeyFields`).
- **The date loop in `main`.** `main`'s loop over the date list and its final
  plotting loop are modelled one date at a time (`Datadicts.ProcessDate`).
  Only the configured temperature and precipitation dictionaries exist,
  because the wind and visibility dictionaries are commented out in the
  script. `StationObs.LandsynEntries` still models all three LANDSYN plot
  types.
- **Settings keys.** A plot dictionary's settings (`plotType`,
  `obsDataType`, `StartTime`) are fields of the class rather than keys of the
  same dictionary. Data keys are all digits and settings keys start with a
  letter, so they never collide.
- **Page invariants on methods.** The `Dashboard.Page` methods are specified
  as equal to the `PageModel` transition functions. They do not restate
  `Valid` and `Resolved` in their own postconditions. Those are proved about
  the transition functions by the `PageModel` lemmas.
- **`FIAT_Plot_Modified_Fields.py`** is not part of this model.
- ToLower (Text.ToLower): lowers the ASCII capitals only, where
  JavaScript's `toLowerCase` lowers every Unicode capital. Its only arguments
  are the ASCII model and tab names, so the result is the same.
- **The Precipitation caption.** Every transition that ends in UpdateImgURLs
  or a model click writes the corrected caption of the Findings row on
  fiat.js:976-977, which names the chosen model on every tab. On the
  Precipitation pane the code leaves the caption as it was drawn. The members
  on the next lines state or write the corrected caption there:
- PaneUpdatedShown (PageModel.PaneUpdatedShown): states the corrected
  caption on the Precipitation pane after the UKV horizon switch.
- ModelClickKeeps (PageModel.ModelClickKeeps): states the corrected caption
  on the Precipitation pane after a model click.
- SetActiveFcstBtn (Dashboard.Page.SetActiveFcstBtn): writes the corrected
  caption on the Precipitation pane when the hour crosses t+36h.
- CalculateFcstInformation (Dashboard.Page.CalculateFcstInformation): writes
  the corrected caption on the Precipitation pane through UpdateImgURLs.
- UpdateImgURLs (Dashboard.Page.UpdateImgURLs): writes the corrected caption
  on the Precipitation pane after the UKV horizon switch.
- SetForecastImage (Dashboard.Page.SetForecastImage): writes the corrected
  caption on the Precipitation pane.
- ChangeHour (Dashboard.Page.ChangeHour): writes the corrected caption on the
  Precipitation pane when the step crosses t+36h.
- ClickModel (Dashboard.Page.ClickModel): writes the corrected caption on
  the Precipitation pane.

## Findings

| source | as written | input that shows it | evidently intended | confidence | as-written member | corrected member |
|---|---|---|---|---|---|---|
| app/assets/javascripts/fiat.js:976-977 | setForecastImg writes the caption to the forecast image's `nextSibling`. On the Precipitation pane DrawPaneContent has inserted the colour bar right after the forecast image (fiat.js:358), so the write lands on the colour bar and the caption keeps the text it was drawn with | on the Precipitation tab at t+0h with Euro4 chosen, click UKV: the UKV forecast is shown under "Euro4 Forecast"; with UKV chosen at t+36h, step to t+37h: the Euro4 forecast is shown under "UKV Forecast" | the caption names the chosen model, as on the Temperature and Cloud tabs | not executed | PageModel.StalePrecipitationCaption | PageModel.ModelClickKeeps |
| app/assets/javascripts/fiat.js:1028-1032 | DrawCloudObsButtons always highlights Cloud Top, but leaves `cloudObsType` unchanged. UpdateImgURLs then shows `setCloudObsImg(cloudObsType)` | choose IR on the Cloud tab, switch to another tab, come back: Cloud Top is highlighted while the IR image is shown | the highlighted button is the product whose image is shown | not executed | PageModel.DrawnHighlightDisagrees | PageModel.TabSelectKeeps |

The corrected highlight is the one `PageModel.PaneDrawn` and
`Dashboard.Page.DrawPaneContent` set (`PageModel.CloudObsHighlight`).
`PageModel.TabSelectKeeps` proves that, after SelectTab, the highlight matches
the product shown. The corrected caption is the one `PageModel.PaneUpdated`,
`PageModel.ModelClicked` and `Dashboard.Page.SetForecastImage` write.
`PageModel.ModelClickKeeps` and `PageModel.PaneUpdatedShown` prove that it
names the chosen model.
