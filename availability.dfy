/** Which model's forecast the plots show (app/assets/javascripts/fiat.js:
    the UKV and Euro4 buttons and the end of UpdateImgURLs). The UKV forecast
    runs to t+36h and Euro4 to t+120h, so past t+36h the UKV button is disabled
    and Euro4 is chosen. */
module Availability {
  import opened Text

  datatype Model = UKV | Euro4

  /** `chosenModel`, as it appears in URLs and captions. */
  function ModelName(m: Model): string
  {
    match m
    case UKV => "UKV"
    case Euro4 => "Euro4"
  }

  /** `chosenModel.toLowerCase().slice(0,3)`, the model in plot file names. */
  function ModelTag(m: Model): (tag: string)
    ensures |tag| == 3
  {
    Slice(ToLower(ModelName(m)), 0, 3)
  }

  lemma ModelTags()
    ensures ModelTag(UKV) == "ukv" && ModelTag(Euro4) == "eur"
  {
    assert ToLower("UKV") == "ukv";
    assert ToLower("Euro4") == "euro4";
  }

  /** The last lead time the UKV model covers. */
  const UkvHorizon: nat := 36

  /** The chosen model and whether the UKV button is disabled. */
  datatype Choice = Choice(chosen: Model, ukvDisabled: bool)

  /** What the page starts with: Euro4, both buttons enabled. */
  const InitialChoice: Choice := Choice(Euro4, false)

  /** A disabled UKV button goes with Euro4 chosen. */
  predicate Consistent(c: Choice)
  {
    c.ukvDisabled ==> c.chosen == Euro4
  }

  /** The horizon rule at the end of UpdateImgURLs: past t+36h, disable UKV
      and choose Euro4; otherwise, when Euro4 is chosen, enable UKV again;
      when UKV is chosen, leave everything as it is. */
  function ApplyHorizon(c: Choice, h: nat): Choice
  {
    if h > UkvHorizon then Choice(Euro4, true)
    else if c.chosen == Euro4 then Choice(Euro4, false)
    else c
  }

  /** After the rule, UKV is disabled exactly past its horizon, and only
      with Euro4 chosen. */
  lemma HorizonRule(c: Choice, h: nat)
    requires Consistent(c)
    ensures Consistent(ApplyHorizon(c, h))
    ensures ApplyHorizon(c, h).ukvDisabled <==> h > UkvHorizon
    ensures h > UkvHorizon ==> ApplyHorizon(c, h).chosen == Euro4
  {
  }

  /** Within the horizon the rule keeps the chosen model. */
  lemma HorizonKeepsChoice(c: Choice, h: nat)
    requires h <= UkvHorizon
    ensures ApplyHorizon(c, h).chosen == c.chosen
  {
  }

  /** Applying the rule twice for the same hour changes nothing more. */
  lemma HorizonIdempotent(c: Choice, h: nat)
    ensures ApplyHorizon(ApplyHorizon(c, h), h) == ApplyHorizon(c, h)
  {
  }

  /** A click on a model button; a disabled button ignores clicks. */
  function ClickModel(c: Choice, m: Model): (r: Choice)
    ensures r.ukvDisabled == c.ukvDisabled
    ensures m == UKV && c.ukvDisabled ==> r == c
    ensures !(m == UKV && c.ukvDisabled) ==> r.chosen == m
  {
    if m == UKV && c.ukvDisabled then c else Choice(m, c.ukvDisabled)
  }

  /** Clicks keep a disabled UKV button paired with Euro4. */
  lemma ClickConsistent(c: Choice, m: Model)
    requires Consistent(c)
    ensures Consistent(ClickModel(c, m))
  {
  }

  /** A UKV choice made within the horizon survives the next recomputation
      for an hour within the horizon, and is overridden past it. */
  lemma UkvChoiceSurvives(c: Choice, h: nat, g: nat)
    requires Consistent(c) && ApplyHorizon(c, h) == c && h <= UkvHorizon
    ensures ApplyHorizon(ClickModel(c, UKV), g).chosen == if g <= UkvHorizon then UKV else Euro4
  {
  }
}
