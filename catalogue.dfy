/** The date catalogue `DateModelRun` (app/assets/javascripts/fiat.js:85): each
    available date, written YYYYMMDD, with a comma-separated list of its model
    runs; and the two dropdowns the dashboard fills from it. */
module Catalogue {
  import opened Wrappers
  import opened Text

  /** One `'YYYYMMDD': '00Z,06Z,…'` pair. */
  datatype Entry = Entry(key: string, runs: string)

  /** The catalogue as the page ships it, in the order `for … in` visits it. */
  const DateModelRun: seq<Entry> := [
    Entry("20160823", "00Z,06Z,12Z,18Z"),
    Entry("20160824", "00Z,06Z,12Z,18Z"),
    Entry("20160825", "00Z,06Z,12Z,18Z"),
    Entry("20160826", "00Z,06Z")
  ]

  // ---- The date dropdown (PopulateDateSelect) ----

  /** An `<option>`: the text shown and the value submitted. */
  datatype DateOption = DateOption(text: string, value: string)

  /** `key.slice(0,4) + "-" + key.slice(4,6) + "-" + key.slice(6,8)`. */
  function DateLabel(key: string): string
  {
    Slice(key, 0, 4) + "-" + Slice(key, 4, 6) + "-" + Slice(key, 6, 8)
  }

  /** The option shown for a date: YYYY-MM-DD, valued YYYYMMDD. */
  function DateOptionFor(key: string): DateOption
  {
    DateOption(DateLabel(key), key)
  }

  /** The label of an eight-character key is the key with a dash after the
      year and one after the month, and nothing else. */
  lemma DateLabelShape(key: string)
    requires |key| == 8
    ensures var l := DateLabel(key);
      |l| == 10 && l[4] == '-' && l[7] == '-' && l[..4] + l[5..7] + l[8..] == key
  {
    var l := DateLabel(key);
    assert l == key[..4] + "-" + key[4..6] + "-" + key[6..8];
    assert l[..4] == key[..4] && l[5..7] == key[4..6] && l[8..] == key[6..8];
    assert key == key[..4] + key[4..6] + key[6..8];
  }

  /** The options of the date dropdown, one per catalogue entry. */
  function DateOptionsFor(catalogue: seq<Entry>): (options: seq<DateOption>)
    ensures |options| == |catalogue|
    ensures forall i :: 0 <= i < |catalogue| ==> options[i] == DateOptionFor(catalogue[i].key)
  {
    seq(|catalogue|, i requires 0 <= i < |catalogue| => DateOptionFor(catalogue[i].key))
  }

  /** PopulateDateSelect: one option per catalogue date, in catalogue order. */
  method PopulateDateSelect(catalogue: seq<Entry>) returns (options: seq<DateOption>)
    ensures options == DateOptionsFor(catalogue)
  {
    options := [];
    var i := 0;
    while i < |catalogue|
      invariant i <= |catalogue|
      invariant |options| == i
      invariant forall j :: 0 <= j < i ==> options[j] == DateOptionFor(catalogue[j].key)
    {
      var key := catalogue[i].key;
      options := options + [DateOption(DateLabel(key), key)];
      i := i + 1;
    }
  }

  // ---- The model-run dropdown (RetrieveModelRuns) ----

  /** The characters `.` does not match in a JavaScript regular expression. */
  predicate IsLineTerminator(c: char)
  {
    c == '\n' || c == '\r' || c == '\U{2028}' || c == '\U{2029}'
  }

  /** `/\d{2}./` matches at position i. */
  predicate RunPatternAt(tok: string, i: nat)
    requires i + 3 <= |tok|
  {
    IsDigit(tok[i]) && IsDigit(tok[i + 1]) && !IsLineTerminator(tok[i + 2])
  }

  /** `/\d{2}./.exec(tok)` succeeds: the pattern is not anchored, so it is
      searched for at every position. */
  predicate HasRunPattern(tok: string)
    decreases |tok|
  {
    |tok| >= 3 && (RunPatternAt(tok, 0) || HasRunPattern(tok[1..]))
  }

  /** The search finds a match exactly when the pattern occurs somewhere. */
  lemma {:induction false} HasRunPatternIff(tok: string)
    ensures HasRunPattern(tok) <==> exists i: nat :: i + 3 <= |tok| && RunPatternAt(tok, i)
  {
    if |tok| >= 3 {
      HasRunPatternIff(tok[1..]);
      if HasRunPattern(tok) && !RunPatternAt(tok, 0) {
        var i: nat :| i + 3 <= |tok[1..]| && RunPatternAt(tok[1..], i);
        assert RunPatternAt(tok, i + 1);
      }
      if exists i: nat :: i + 3 <= |tok| && RunPatternAt(tok, i) {
        var i: nat :| i + 3 <= |tok| && RunPatternAt(tok, i);
        if i > 0 {
          assert RunPatternAt(tok[1..], i - 1);
        }
      }
    }
  }

  /** The options RetrieveModelRuns adds for a list of tokens: the first two
      characters of every token the pattern matches, in order. */
  function RunOptions(tokens: seq<string>): (opts: seq<string>)
    ensures |opts| <= |tokens|
  {
    if tokens == [] then []
    else (if HasRunPattern(tokens[0]) then [tokens[0][..2]] else []) + RunOptions(tokens[1..])
  }

  lemma {:induction false} RunOptionsAppend(a: seq<string>, b: seq<string>)
    ensures RunOptions(a + b) == RunOptions(a) + RunOptions(b)
  {
    if a != [] {
      assert (a + b)[0] == a[0] && (a + b)[1..] == a[1..] + b;
      RunOptionsAppend(a[1..], b);
    } else {
      assert a + b == b;
    }
  }

  /** A string is an option exactly when it is the first two characters of a
      matching token. */
  lemma {:induction false} RunOptionsMembership(tokens: seq<string>, o: string)
    ensures o in RunOptions(tokens) <==>
      exists j :: 0 <= j < |tokens| && HasRunPattern(tokens[j]) && o == tokens[j][..2]
  {
    if tokens != [] {
      RunOptionsMembership(tokens[1..], o);
      if exists j :: 0 <= j < |tokens| && HasRunPattern(tokens[j]) && o == tokens[j][..2] {
        var j :| 0 <= j < |tokens| && HasRunPattern(tokens[j]) && o == tokens[j][..2];
        if j > 0 {
          assert tokens[1..][j - 1] == tokens[j];
        }
      }
    }
  }

  /** RetrieveModelRuns: split the date's run list on commas and keep the
      first two characters of each token the pattern matches. */
  method RetrieveModelRuns(runList: string) returns (options: seq<string>)
    ensures options == RunOptions(Split(runList, ','))
  {
    var tokens := Split(runList, ',');
    options := [];
    var j := 0;
    while j < |tokens|
      invariant j <= |tokens|
      invariant options == RunOptions(tokens[..j])
    {
      RunOptionsAppend(tokens[..j], [tokens[j]]);
      assert tokens[..j + 1] == tokens[..j] + [tokens[j]];
      if HasRunPattern(tokens[j]) {
        options := options + [tokens[j][..2]];
      }
      j := j + 1;
    }
    assert tokens[..j] == tokens;
  }

  /** The model runs of one catalogue entry. */
  function ModelRunsOf(e: Entry): seq<string>
  {
    RunOptions(Split(e.runs, ','))
  }

  /** When every token starts with the pattern, every token gives an option. */
  lemma {:induction false} RunOptionsAllMatch(tokens: seq<string>)
    requires forall j :: 0 <= j < |tokens| ==> |tokens[j]| >= 3 && RunPatternAt(tokens[j], 0)
    ensures RunOptions(tokens) == seq(|tokens|, j requires 0 <= j < |tokens| => tokens[j][..2])
  {
    if tokens != [] {
      RunOptionsAllMatch(tokens[1..]);
    }
  }

  lemma SplitFourRuns()
    ensures Split("00Z,06Z,12Z,18Z", ',') == ["00Z", "06Z", "12Z", "18Z"]
  {
    var s := "00Z" + [','] + ("06Z" + [','] + ("12Z" + [','] + "18Z"));
    SplitNoSeparator("18Z", ',');
    SplitAtSeparator("12Z", "18Z", ',');
    SplitAtSeparator("06Z", "12Z" + [','] + "18Z", ',');
    SplitAtSeparator("00Z", "06Z" + [','] + ("12Z" + [','] + "18Z"), ',');
    assert Split(s, ',') == ["00Z", "06Z", "12Z", "18Z"];
    assert s == "00Z,06Z,12Z,18Z";
  }

  lemma FourRunOptions()
    ensures RunOptions(["00Z", "06Z", "12Z", "18Z"]) == ["00", "06", "12", "18"]
  {
    var tokens := ["00Z", "06Z", "12Z", "18Z"];
    assert RunPatternAt(tokens[0], 0) && RunPatternAt(tokens[1], 0);
    assert RunPatternAt(tokens[2], 0) && RunPatternAt(tokens[3], 0);
    RunOptionsAllMatch(tokens);
    var r := RunOptions(tokens);
    assert r[0] == "00Z"[..2] == "00" && r[1] == "06Z"[..2] == "06";
    assert r[2] == "12Z"[..2] == "12" && r[3] == "18Z"[..2] == "18";
  }

  /** The shipped run list `00Z,06Z,12Z,18Z` offers 00, 06, 12 and 18. */
  lemma FourRunsParsed()
    ensures RunOptions(Split("00Z,06Z,12Z,18Z", ',')) == ["00", "06", "12", "18"]
  {
    SplitFourRuns();
    FourRunOptions();
  }

  lemma SplitTwoRuns()
    ensures Split("00Z,06Z", ',') == ["00Z", "06Z"]
  {
    var s := "00Z" + [','] + "06Z";
    SplitNoSeparator("06Z", ',');
    SplitAtSeparator("00Z", "06Z", ',');
    assert Split(s, ',') == ["00Z", "06Z"];
    assert s == "00Z,06Z";
  }

  lemma TwoRunOptions()
    ensures RunOptions(["00Z", "06Z"]) == ["00", "06"]
  {
    var tokens := ["00Z", "06Z"];
    assert RunPatternAt(tokens[0], 0) && RunPatternAt(tokens[1], 0);
    RunOptionsAllMatch(tokens);
    var r := RunOptions(tokens);
    assert r[0] == "00Z"[..2] == "00" && r[1] == "06Z"[..2] == "06";
  }

  /** The shipped run list `00Z,06Z` offers 00 and 06. */
  lemma TwoRunsParsed()
    ensures RunOptions(Split("00Z,06Z", ',')) == ["00", "06"]
  {
    SplitTwoRuns();
    TwoRunOptions();
  }

  // ---- What the dashboard relies on ----

  predicate IsDateKey(k: string)
  {
    |k| == 8 && AllDigits(k)
  }

  predicate IsRunOption(o: string)
  {
    |o| == 2 && AllDigits(o)
  }

  predicate WellFormedEntry(e: Entry)
  {
    IsDateKey(e.key) && |ModelRunsOf(e)| > 0 && forall o :: o in ModelRunsOf(e) ==> IsRunOption(o)
  }

  /** A catalogue the dashboard can show: at least one date, eight-digit keys
      in ascending order (the order in which JavaScript visits integer-like
      property names), each with at least one two-digit run. */
  predicate WellFormed(catalogue: seq<Entry>)
  {
    && |catalogue| > 0
    && (forall i :: 0 <= i < |catalogue| ==> WellFormedEntry(catalogue[i]))
    && (forall i, j :: 0 <= i < j < |catalogue| ==> LexLe(catalogue[i].key, catalogue[j].key) && catalogue[i].key != catalogue[j].key)
  }

  /** In a well-formed catalogue, later dates are larger numbers. */
  lemma CatalogueAscending(catalogue: seq<Entry>, i: nat, j: nat)
    requires WellFormed(catalogue) && i < j < |catalogue|
    ensures DigitsValue(catalogue[i].key) < DigitsValue(catalogue[j].key)
  {
    var a, b := catalogue[i].key, catalogue[j].key;
    LexLeDigits(a, b);
    if DigitsValue(a) == DigitsValue(b) {
      LexLeDigits(b, a);
      LexLeAntisymmetric(a, b);
    }
  }

  /** Keys at or after position i are date keys no smaller than the one at i,
      and equal to it only at i itself. */
  lemma KeysOrdered(catalogue: seq<Entry>, i: nat, j: nat)
    requires WellFormed(catalogue) && i <= j < |catalogue|
    ensures IsDateKey(catalogue[i].key) && IsDateKey(catalogue[j].key)
    ensures DigitsValue(catalogue[i].key) <= DigitsValue(catalogue[j].key)
    ensures catalogue[j].key == catalogue[i].key <==> i == j
  {
    assert WellFormedEntry(catalogue[i]) && WellFormedEntry(catalogue[j]);
    if i < j {
      CatalogueAscending(catalogue, i, j);
    }
  }

  /** An entry is well formed when its key is a date key and its runs are the
      given two-digit options. */
  lemma EntryWithRuns(e: Entry, runs: seq<string>)
    requires IsDateKey(e.key) && ModelRunsOf(e) == runs && |runs| > 0
    requires forall j :: 0 <= j < |runs| ==> IsRunOption(runs[j])
    ensures WellFormedEntry(e)
  {
  }

  lemma FourOptionsWellFormed(e: Entry)
    requires IsDateKey(e.key) && ModelRunsOf(e) == ["00", "06", "12", "18"]
    ensures WellFormedEntry(e)
  {
    var r := ["00", "06", "12", "18"];
    assert IsRunOption(r[0]) && IsRunOption(r[1]) && IsRunOption(r[2]) && IsRunOption(r[3]);
    EntryWithRuns(e, r);
  }

  lemma FourRunEntryWellFormed(e: Entry)
    requires IsDateKey(e.key) && e.runs == "00Z,06Z,12Z,18Z"
    ensures WellFormedEntry(e)
  {
    FourRunsParsed();
    FourOptionsWellFormed(e);
  }

  lemma TwoRunEntryWellFormed(e: Entry)
    requires IsDateKey(e.key) && e.runs == "00Z,06Z"
    ensures WellFormedEntry(e)
  {
    TwoRunsParsed();
    TwoOptionsWellFormed(e);
  }

  lemma TwoOptionsWellFormed(e: Entry)
    requires IsDateKey(e.key) && ModelRunsOf(e) == ["00", "06"]
    ensures WellFormedEntry(e)
  {
    var r := ["00", "06"];
    assert IsRunOption(r[0]) && IsRunOption(r[1]);
    EntryWithRuns(e, r);
  }

  /** Two August-2016 keys that differ only in their last digit are ordered by it. */
  lemma AugustKeysOrdered(a: string, b: string)
    requires |a| == |b| == 8 && a[..7] == b[..7] && a[7] < b[7]
    ensures LexLe(a, b) && a != b
  {
    assert a == a[..7] + [a[7]] && b == b[..7] + [b[7]];
    LexLeCommonPrefix(a[..7], [a[7]], [b[7]]);
  }

  lemma DateModelRunEntries()
    ensures forall i :: 0 <= i < |DateModelRun| ==> WellFormedEntry(DateModelRun[i])
  {
    forall i | 0 <= i < |DateModelRun|
      ensures WellFormedEntry(DateModelRun[i])
    {
      var e := DateModelRun[i];
      assert IsDateKey(e.key);
      if i < 3 {
        FourRunEntryWellFormed(e);
      } else {
        TwoRunEntryWellFormed(e);
      }
    }
  }

  lemma DateModelRunOrdered()
    ensures forall i, j :: 0 <= i < j < |DateModelRun| ==>
      LexLe(DateModelRun[i].key, DateModelRun[j].key) && DateModelRun[i].key != DateModelRun[j].key
  {
    var c := DateModelRun;
    forall i, j | 0 <= i < j < |c|
      ensures LexLe(c[i].key, c[j].key) && c[i].key != c[j].key
    {
      AugustKeysOrdered(c[i].key, c[j].key);
    }
  }

  /** The shipped catalogue is well formed. */
  lemma DateModelRunWellFormed()
    ensures WellFormed(DateModelRun)
  {
    DateModelRunEntries();
    DateModelRunOrdered();
  }

  lemma {:induction false} LexLeCommonPrefix(p: string, a: string, b: string)
    requires LexLe(a, b)
    ensures LexLe(p + a, p + b)
  {
    if p != [] {
      assert (p + a)[1..] == p[1..] + a && (p + b)[1..] == p[1..] + b;
      LexLeCommonPrefix(p[1..], a, b);
    } else {
      assert p + a == a && p + b == b;
    }
  }

  /** PopulateModelRunDropdown's search: the first catalogue entry whose date
      is the selected one. */
  method FindDate(catalogue: seq<Entry>, date: string) returns (found: Option<nat>)
    ensures found.Some? ==> found.value < |catalogue| && catalogue[found.value].key == date
    ensures found.Some? ==> forall i :: 0 <= i < found.value ==> catalogue[i].key != date
    ensures found.None? ==> forall i :: 0 <= i < |catalogue| ==> catalogue[i].key != date
  {
    var i := 0;
    while i < |catalogue|
      invariant i <= |catalogue|
      invariant forall k :: 0 <= k < i ==> catalogue[k].key != date
    {
      if catalogue[i].key == date {
        return Some(i);
      }
      i := i + 1;
    }
    return None;
  }
}
