/** One date of the observation-map script's main loop
    (public/FIAT/python/FIAT_Plot_StationObs_Maps.py): every plot type's
    dictionary resumes from its folder, extractData decides whether to
    query MetDB, and on a query each dictionary files the rows of its source. */
module ObsScript {
  import opened Text
  import opened ObsSchedule
  import opened StationObs

  /** The decision part of extractData: the earliest start over the plot
      types (getEarliestStartTime), the current hour from the clock's text,
      then stop or query. */
  method Extract(starts: seq<string>, now: string, date: string) returns (decision: Extraction)
    requires |starts| > 0
    ensures decision == ExtractDecision(Earliest(starts), CurrentHour(now), date)
  {
    var startTime := EarliestStartTime(starts);
    var currentHour := Slice(now, 11, 13) + "00";
    if startTime == "2400" {
      decision := AllImagesDone("Already have all images for date " + date);
    } else if startTime == currentHour {
      decision := UpToDate("Images already up to date for date " + date);
    } else {
      decision := Query(["START TIME " + date + "/" + startTime + "Z", "END TIME " + date + "/2300Z", "PLATFORM 03"]);
    }
  }

  /** What a dictionary holds after main files the day's rows into it:
      LANDSYN dictionaries take the LANDSYN rows, SREW ones the SREW rows,
      any other keeps its data. */
  function Assigned(data: Data, plotType: string, obsDataType: string,
                    landsyn: seq<LandsynRow>, srew: seq<SrewRow>): Data
  {
    if obsDataType == "LANDSYN" then Filed(data, LandsynFilings(landsyn, plotType))
    else if obsDataType == "SREW" then Filed(data, SrewFilings(srew))
    else data
  }

  /** One pass of main's assignment loop: the dictionary's source decides
      which rows it files. */
  method AssignOne(plot: PlotDictionary, landsyn: seq<LandsynRow>, srew: seq<SrewRow>)
    modifies plot
    ensures plot.startTime == old(plot.startTime)
    ensures plot.data == Assigned(old(plot.data), plot.plotType, plot.obsDataType, landsyn, srew)
  {
    if plot.obsDataType == "LANDSYN" {
      plot.AssignLandsynData(landsyn);
    } else if plot.obsDataType == "SREW" {
      plot.AssignSrewData(srew);
    }
  }

  /** `datadicts` as the script configures it: the screen-temperature
      dictionary (LANDSYN) and the precipitation one (SREW); the wind and
      visibility entries are commented out in the script. */
  class Datadicts {
    const temp: PlotDictionary
    const precip: PlotDictionary

    constructor ()
      ensures fresh(temp) && fresh(precip) && temp != precip
      ensures temp.plotType == ScreenTemperature && temp.obsDataType == "LANDSYN"
      ensures precip.plotType == "precipitation" && precip.obsDataType == "SREW"
      ensures temp.startTime == "0000" && precip.startTime == "0000"
      ensures temp.data == map[] && precip.data == map[]
    {
      temp := new PlotDictionary(ScreenTemperature, "LANDSYN");
      precip := new PlotDictionary("precipitation", "SREW");
    }

    /** The body of main's loop for one date that passed its eight-digit
        check: every dictionary resumes from its folder, extractData
        decides from the earliest start, and, when it queries, each
        dictionary files the rows of its source. The two folders are the
        directories' listings, the clock's text and the rows MetDB returns
        are given. */
    method ProcessDate(tempFolder: seq<string>, precipFolder: seq<string>, date: string, now: string,
                       landsyn: seq<LandsynRow>, srew: seq<SrewRow>) returns (decision: Extraction)
      requires temp != precip
      requires IsDate(date)
      modifies temp, precip
      ensures temp.startTime == ResumeTime(FileTimes(tempFolder, date))
      ensures precip.startTime == ResumeTime(FileTimes(precipFolder, date))
      ensures decision == ExtractDecision(Earliest([temp.startTime, precip.startTime]), CurrentHour(now), date)
      ensures temp.data ==
        if decision.Query? then Assigned(old(temp.data), temp.plotType, temp.obsDataType, landsyn, srew)
        else old(temp.data)
      ensures precip.data ==
        if decision.Query? then Assigned(old(precip.data), precip.plotType, precip.obsDataType, landsyn, srew)
        else old(precip.data)
    {
      temp.SetStartTime(date, tempFolder);
      precip.SetStartTime(date, precipFolder);
      decision := Extract([temp.startTime, precip.startTime], now, date);
      if decision.Query? {
        AssignOne(temp, landsyn, srew);
        AssignOne(precip, landsyn, srew);
      }
    }
  }
}
