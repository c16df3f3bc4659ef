/** How the assistant turns the sidebar inputs into the instruction sent to the
    model: the date phrase for the chosen time frame, the detail level and the
    prompt template (app.py:78-105). The clock and the calendar are left
    abstract: the caller supplies the current instant and a `Calendar`. */
module Forecast {
  import opened Text

  datatype Option<T> = None | Some(value: T)

  /** The three entries of the time-frame selectbox (app.py:58-61). */
  datatype TimeFrame = CurrentWeather | TodaysForecast | WeeklyForecast

  /** The selectbox option text of each time frame. */
  function Label(tf: TimeFrame): string
  {
    match tf
    case CurrentWeather => "Current weather"
    case TodaysForecast => "Today's forecast"
    case WeeklyForecast => "Weekly forecast"
  }

  /** The selectbox options, in the order shown. */
  const TimeFrameOptions: seq<string> := ["Current weather", "Today's forecast", "Weekly forecast"]

  /** The `if`/`elif` on the selected option: a string that is none of the
      three options matches no branch, and then no date phrase is set. */
  function ParseTimeFrame(selection: string): (r: Option<TimeFrame>)
    ensures r.Some? <==> selection in TimeFrameOptions
    ensures r.Some? ==> Label(r.value) == selection
  {
    if selection == "Current weather" then Some(CurrentWeather)
    else if selection == "Today's forecast" then Some(TodaysForecast)
    else if selection == "Weekly forecast" then Some(WeeklyForecast)
    else None
  }

  /** Every time frame is recognised from its own option text. */
  lemma ParseLabel(tf: TimeFrame)
    ensures ParseTimeFrame(Label(tf)) == Some(tf)
  {
  }

  /** Every option of the selectbox assigns one time frame, each a different one. */
  lemma EveryOptionSelectsATimeFrame()
    ensures forall i :: 0 <= i < |TimeFrameOptions| ==> ParseTimeFrame(TimeFrameOptions[i]).Some?
    ensures forall i, j :: 0 <= i < j < |TimeFrameOptions| ==>
      ParseTimeFrame(TimeFrameOptions[i]) != ParseTimeFrame(TimeFrameOptions[j])
  {
  }

  /** The parts of Python's `datetime` that the date phrase uses, as
      parameters: `plusDays(t, n)` is `t + timedelta(days=n)`, and `weekday`,
      `day`, `month` and `year` give the `%A`, `%d`, `%B` and `%Y` fields of
      `strftime`. */
  datatype Calendar<!Instant> = Calendar(
    plusDays: (Instant, int) -> Instant,
    weekday: Instant -> string,
    day: Instant -> string,
    month: Instant -> string,
    year: Instant -> string)

  /** `strftime("%A, %d %B %Y")` (app.py:79). */
  function LongDate<Instant>(cal: Calendar<Instant>, t: Instant): string
  {
    cal.weekday(t) + ", " + cal.day(t) + " " + cal.month(t) + " " + cal.year(t)
  }

  /** `strftime("%A, %d %B")` (app.py:86). */
  function ShortDate<Instant>(cal: Calendar<Instant>, t: Instant): string
  {
    cal.weekday(t) + ", " + cal.day(t) + " " + cal.month(t)
  }

  /** The long date is the short date followed by the year. */
  lemma LongDateExtendsShortDate<Instant>(cal: Calendar<Instant>, t: Instant)
    ensures LongDate(cal, t) == ShortDate(cal, t) + " " + cal.year(t)
  {
  }

  /** The seven dates of the weekly forecast, for day offsets 0 to 6 (app.py:86). */
  function WeekDates<Instant>(cal: Calendar<Instant>, now: Instant): seq<string>
  {
    seq(7, i => ShortDate(cal, cal.plusDays(now, i)))
  }

  /** The weekly list starts today: when adding zero days gives the same
      instant, as `timedelta(days=0)` does, its first entry is today's long
      date without the year. */
  lemma WeekStartsToday<Instant>(cal: Calendar<Instant>, now: Instant)
    requires cal.plusDays(now, 0) == now
    ensures LongDate(cal, now) == WeekDates(cal, now)[0] + " " + cal.year(now)
  {
    LongDateExtendsShortDate(cal, now);
  }

  /** The words that open the date phrase of each time frame. */
  function LeadIn(tf: TimeFrame): string
  {
    match tf
    case CurrentWeather => "as of now"
    case TodaysForecast => "for today"
    case WeeklyForecast => "for the upcoming week"
  }

  /** `date_info` for a time frame (app.py:81-87). */
  function DatePhrase<Instant>(tf: TimeFrame, cal: Calendar<Instant>, now: Instant): string
  {
    var today := LongDate(cal, now);
    if tf == CurrentWeather then "as of now (" + today + ")"
    else if tf == TodaysForecast then "for today (" + today + ")"
    else "for the upcoming week (" + Join(", ", WeekDates(cal, now)) + ")"
  }

  /** The dates written inside the parentheses of the date phrase. */
  function DateText<Instant>(tf: TimeFrame, cal: Calendar<Instant>, now: Instant): string
  {
    if tf == WeeklyForecast then Join(", ", WeekDates(cal, now)) else LongDate(cal, now)
  }

  /** Every date phrase is its lead-in followed by its dates in parentheses;
      the current weather and today's forecast name the same date. */
  lemma DatePhraseShape<Instant>(tf: TimeFrame, cal: Calendar<Instant>, now: Instant)
    ensures DatePhrase(tf, cal, now) == LeadIn(tf) + " (" + DateText(tf, cal, now) + ")"
    ensures DateText(CurrentWeather, cal, now) == DateText(TodaysForecast, cal, now)
  {
  }

  /** The date phrase tells which time frame was chosen: the three lead-ins
      already differ before the opening parenthesis. */
  lemma {:induction false} DatePhraseDeterminesTimeFrame<Instant>(
    tf1: TimeFrame, tf2: TimeFrame, cal: Calendar<Instant>, now: Instant)
    requires DatePhrase(tf1, cal, now) == DatePhrase(tf2, cal, now)
    ensures tf1 == tf2
  {
    var p1, p2 := DatePhrase(tf1, cal, now), DatePhrase(tf2, cal, now);
    DatePhraseShape(tf1, cal, now);
    DatePhraseShape(tf2, cal, now);
    // Each lead-in is told apart from the others by its first or sixth character.
    assert p1[0] == LeadIn(tf1)[0] && p2[0] == LeadIn(tf2)[0];
    assert p1[5] == LeadIn(tf1)[5] && p2[5] == LeadIn(tf2)[5];
  }

  /** The weekly phrase lists all seven dates, in day-offset order: the date
      for offset `i` starts right after the opening text and the entries for
      the offsets before it, each followed by `", "`. The dates themselves
      contain `", "`, so the entries, not the commas, are what number seven;
      the closing parenthesis follows the seventh entry directly. */
  lemma WeeklyPhraseListsDate<Instant>(cal: Calendar<Instant>, now: Instant, i: nat)
    requires i < 7
    ensures OccursAt(DatePhrase(WeeklyForecast, cal, now), ShortDate(cal, cal.plusDays(now, i)),
                     |"for the upcoming week ("| + |JoinPrefix(", ", WeekDates(cal, now), i)|)
    ensures i < 6 ==> JoinPrefix(", ", WeekDates(cal, now), i + 1)
                      == JoinPrefix(", ", WeekDates(cal, now), i) + ShortDate(cal, cal.plusDays(now, i)) + ", "
    ensures DatePhrase(WeeklyForecast, cal, now)
            == "for the upcoming week (" + JoinPrefix(", ", WeekDates(cal, now), 6)
               + ShortDate(cal, cal.plusDays(now, 6)) + ")"
  {
    var dates := WeekDates(cal, now);
    var head := "for the upcoming week (";
    var joined := Join(", ", dates);
    var phrase := DatePhrase(WeeklyForecast, cal, now);
    assert phrase == head + joined + ")";
    JoinEntryAt(", ", dates, i);
    var at := |JoinPrefix(", ", dates, i)|;
    var entry := dates[i];
    assert phrase[|head| + at..|head| + at + |entry|] == joined[at..at + |entry|];
    if i < 6 {
      JoinPrefixNext(", ", dates, i);
    }
    JoinAround(", ", dates, 6);
  }

  /** `detail_level` (app.py:89). */
  function DetailLevel(showDetails: bool): (level: string)
    ensures level == "detailed" <==> showDetails
    ensures level == "brief" <==> !showDetails
  {
    if showDetails then "detailed" else "brief"
  }

  /** The template text before the detail level. */
  const PromptHead: string := "\nAct as a professional weather forecaster.\nProvide "

  /** The fixed lines of the template after the one that names the location
      (app.py:95-104), the blank line between them included. */
  const InstructionLines: seq<string> := [
    "If detailed information is requested, include:",
    "- Temperature (actual and feels like)",
    "- Humidity and precipitation chances",
    "- Wind speed and direction",
    "- Air quality",
    "- Sunrise and sunset times",
    "- Any weather alerts or warnings",
    "",
    "Use clear formatting (like bullet points). If unsure about data, state it's an estimate.",
    "Also provide 1\U{2013}2 friendly weather tips (e.g., carry an umbrella or stay hydrated)."]

  /** The template text after the date phrase: the full stop that ends the
      location line, a blank line, then the instruction lines, each ended by
      a newline. */
  const PromptInstructions: string := ".\n\n" + Join("\n", InstructionLines) + "\n"

  /** The template up to the date phrase, with the detail level and the
      location filled in. */
  function PromptOpening(detailLevel: string, location: string): string
  {
    PromptHead + detailLevel + " weather information for " + "**" + location + "**" + ", "
  }

  /** The prompt template with its three holes filled (app.py:91-105). */
  function BuildPrompt(detailLevel: string, location: string, dateInfo: string): string
  {
    PromptOpening(detailLevel, location) + dateInfo + PromptInstructions
  }

  /** The prompt the assistant sends for a set of sidebar inputs at instant `now`
      (app.py:78-105). */
  function Prompt<Instant>(showDetails: bool, location: string, tf: TimeFrame,
                           cal: Calendar<Instant>, now: Instant): string
  {
    BuildPrompt(DetailLevel(showDetails), location, DatePhrase(tf, cal, now))
  }

  /** The prompt names the location verbatim, in bold. */
  lemma PromptNamesLocation(detailLevel: string, location: string, dateInfo: string)
    ensures Contains(BuildPrompt(detailLevel, location, dateInfo), "**" + location + "**")
    ensures Contains(BuildPrompt(detailLevel, location, dateInfo), location)
  {
    var before := PromptHead + detailLevel + " weather information for ";
    var after := ", " + dateInfo + PromptInstructions;
    Regroup9(PromptHead, detailLevel, " weather information for ", "**", location, "**", ", ", dateInfo, PromptInstructions);
    ContainsInfix(before, "**" + location + "**", after);
    ContainsInfix("**", location, "**");
    ContainsTransitive(BuildPrompt(detailLevel, location, dateInfo), "**" + location + "**", location);
  }

  /** The prompt contains the detail level verbatim. */
  lemma PromptStatesDetailLevel(detailLevel: string, location: string, dateInfo: string)
    ensures Contains(BuildPrompt(detailLevel, location, dateInfo), detailLevel)
  {
    Regroup9(PromptHead, detailLevel, " weather information for ", "**", location, "**", ", ", dateInfo, PromptInstructions);
    ContainsInfix(PromptHead, detailLevel, PromptAfterDetail(location, dateInfo));
  }

  /** The prompt contains the date phrase verbatim. */
  lemma PromptStatesDatePhrase(detailLevel: string, location: string, dateInfo: string)
    ensures Contains(BuildPrompt(detailLevel, location, dateInfo), dateInfo)
  {
    ContainsInfix(PromptOpening(detailLevel, location), dateInfo, PromptInstructions);
  }

  /** The template text after the detail level. */
  function PromptAfterDetail(location: string, dateInfo: string): string
  {
    " weather information for " + "**" + location + "**" + ", " + dateInfo + PromptInstructions
  }

  /** Two prompts whose date phrases differ only in equally long lead-ins
      differ only there, right after the opening of the template. */
  lemma PromptsDifferOnlyInLeadIn(detailLevel: string, location: string, leadIn1: string, leadIn2: string, rest: string)
    requires |leadIn1| == |leadIn2|
    ensures var p1, p2 := BuildPrompt(detailLevel, location, leadIn1 + rest), BuildPrompt(detailLevel, location, leadIn2 + rest);
            var k := |PromptOpening(detailLevel, location)|;
            && |p1| == |p2|
            && k + |leadIn1| <= |p1|
            && p1[k..k + |leadIn1|] == leadIn1
            && p2[k..k + |leadIn2|] == leadIn2
            && forall i :: 0 <= i < |p1| && p1[i] != p2[i] ==> k <= i < k + |leadIn1|
  {
    var pre := PromptOpening(detailLevel, location);
    var post := rest + PromptInstructions;
    Regroup4(pre, leadIn1, rest, PromptInstructions);
    Regroup4(pre, leadIn2, rest, PromptInstructions);
    ConcatParts(pre, leadIn1, post);
    ConcatParts(pre, leadIn2, post);
    DifferOnlyInMiddle(pre, leadIn1, leadIn2, post);
  }

  /** The current and today's date phrases split into lead-in and dates. */
  lemma LeadInSplits<Instant>(cal: Calendar<Instant>, now: Instant)
    ensures DatePhrase(CurrentWeather, cal, now) == "as of now" + (" (" + LongDate(cal, now) + ")")
    ensures DatePhrase(TodaysForecast, cal, now) == "for today" + (" (" + LongDate(cal, now) + ")")
  {
  }

  /** For the same inputs and instant, the prompts for the current weather
      and for today's forecast have the same length and differ only in the
      nine characters of the lead-in, "as of now" against "for today", which
      starts where the opening of the template ends. */
  lemma CurrentAndTodayDifferOnlyInLeadIn<Instant>(
    showDetails: bool, location: string, cal: Calendar<Instant>, now: Instant)
    ensures |Prompt(showDetails, location, CurrentWeather, cal, now)|
            == |Prompt(showDetails, location, TodaysForecast, cal, now)|
            >= |PromptOpening(DetailLevel(showDetails), location)| + 9
    ensures var k := |PromptOpening(DetailLevel(showDetails), location)|;
            && Prompt(showDetails, location, CurrentWeather, cal, now)[k..k + 9] == "as of now"
            && Prompt(showDetails, location, TodaysForecast, cal, now)[k..k + 9] == "for today"
    ensures var current := Prompt(showDetails, location, CurrentWeather, cal, now);
            var today := Prompt(showDetails, location, TodaysForecast, cal, now);
            var k := |PromptOpening(DetailLevel(showDetails), location)|;
            forall i :: 0 <= i < |current| && current[i] != today[i] ==> k <= i < k + 9
  {
    var dates := " (" + LongDate(cal, now) + ")";
    LeadInSplits(cal, now);
    PromptsDifferOnlyInLeadIn(DetailLevel(showDetails), location, "as of now", "for today", dates);
  }

  /** A brief prompt is the detailed one with the word "detailed" replaced by
      "brief" and nothing else changed: both keep the same template text
      before and after the detail level. */
  lemma BriefAndDetailedShareTemplate(location: string, dateInfo: string)
    ensures var detailed := BuildPrompt(DetailLevel(true), location, dateInfo);
            var brief := BuildPrompt(DetailLevel(false), location, dateInfo);
            var h := |PromptHead|;
            && detailed[..h] == PromptHead
            && brief[..h] == PromptHead
            && detailed[h..h + 8] == "detailed"
            && brief[h..h + 5] == "brief"
            && detailed[h + 8..] == brief[h + 5..]
  {
    var rest := PromptAfterDetail(location, dateInfo);
    Regroup9(PromptHead, "detailed", " weather information for ", "**", location, "**", ", ", dateInfo, PromptInstructions);
    Regroup9(PromptHead, "brief", " weather information for ", "**", location, "**", ", ", dateInfo, PromptInstructions);
    ConcatParts(PromptHead, "detailed", rest);
    ConcatParts(PromptHead, "brief", rest);
  }

  /** The weekly prompt names the location and each of the seven dates. */
  lemma WeeklyPromptListsEveryDate<Instant>(
    showDetails: bool, location: string, cal: Calendar<Instant>, now: Instant, i: nat)
    requires i < 7
    ensures Contains(Prompt(showDetails, location, WeeklyForecast, cal, now), location)
    ensures Contains(Prompt(showDetails, location, WeeklyForecast, cal, now),
                     ShortDate(cal, cal.plusDays(now, i)))
  {
    var level, phrase := DetailLevel(showDetails), DatePhrase(WeeklyForecast, cal, now);
    PromptNamesLocation(level, location, phrase);
    WeeklyPhraseListsDate(cal, now, i);
    PromptStatesDatePhrase(level, location, phrase);
    ContainsTransitive(BuildPrompt(level, location, phrase), phrase, ShortDate(cal, cal.plusDays(now, i)));
  }
}
