# AI Weather Assistant: prompt building and reply classification

This project models the logic of the AI Weather Assistant, a single-page Streamlit app (`app.py`). The user types a location, picks one of three time frames and ticks "Show detailed information". The app then writes a fixed-template prompt for a hosted language model. It shows the model's reply with one weather emoji, which it picks by looking for keywords in the reply. When the call fails, it shows the exception text and possibly a hint.

The four pieces of logic, which sit inline in the script, are written as Dafny functions:

- `Forecast.DatePhrase` and `Forecast.DetailLevel` build the date phrase for the chosen time frame and the detail word (app.py:78-89). `Forecast.ParseTimeFrame` models the `if`/`elif` on the selectbox text.
- `Forecast.BuildPrompt` fills the prompt template (app.py:91-105). `Forecast.Prompt` composes these steps.
- `WeatherIcon.ClassifyEmoji` is the first-match-wins keyword chain on the lower-cased reply (app.py:117-128). `WeatherIcon.Glyph` gives the displayed characters.
- `ErrorReport.ErrorHint` and `ErrorReport.ErrorLines` model the error lines (app.py:133-138).

Module `Text` defines Python's `needle in text` for strings as `Contains`, meaning an occurrence at some index. It also defines `sep.join(items)` as `Join`. It holds the lemmas about both that the other modules use.

Some inputs are parameters of the model rather than computed by it:

- The reply text and `str.lower` are parameters. `ClassifyEmoji` takes `lower: string -> string`.
- The exception text `str(e)` is the `message` parameter.
- The current instant is a generic `Instant`.
- `timedelta` day arithmetic and the `%A`/`%d`/`%B`/`%Y` fields of `strftime` come in a `Calendar` value. `LongDate` and `ShortDate` put those fields together with the literal punctuation of the two format strings.

Each operation has a partner that it is proved against:

- The emoji chain is proved equal to an ordered keyword table evaluated first-match-wins (`Rules`, `FirstMatch`). The table's own first-match properties are proved by induction.
- The weekly date phrase is proved to list exactly seven dates, each at the position its offset dictates, with the closing parenthesis right after the last.
- The prompts for "Current weather" and "Today's forecast" at the same instant are proved to differ in exactly the nine lead-in characters.
- The error hint has an if-and-only-if characterisation.

## Model

| member | source | states |
|---|---|---|
| Forecast.ParseTimeFrame | app.py:81-85 | a selection assigns a time frame exactly when it is one of the three selectbox options, and then the one whose option text it is |
| Forecast.ParseLabel | app.py:58-61 | each time frame is recognised again from its own option text |
| Forecast.EveryOptionSelectsATimeFrame | app.py:58-61 | every selectbox option assigns a date phrase, and different options give different time frames |
| Forecast.LongDateExtendsShortDate | app.py:79-86 | the `%A, %d %B %Y` date is the `%A, %d %B` date followed by a space and the year |
| Forecast.WeekStartsToday | app.py:79-86 | when adding zero days leaves the instant unchanged, as `timedelta(days=0)` does, the first weekly entry is today's long date without the year |
| Forecast.DatePhraseShape | app.py:81-87 | every date phrase is its lead-in ("as of now", "for today", "for the upcoming week") then its dates in parentheses; current and today name the same long date |
| Forecast.DatePhraseDeterminesTimeFrame | app.py:81-87 | equal date phrases come only from the same time frame |
| Forecast.WeeklyPhraseListsDate | app.py:86-87 | the weekly phrase has the date for offset i at the offset reached by the earlier entries, each followed by ", ", and the closing parenthesis directly after the entry for offset 6: exactly seven entries in offset order, counted as entries though each entry itself contains ", " |
| Forecast.DetailLevel | app.py:89 | the level is "detailed" if and only if details are requested, and "brief" if and only if they are not |
| Forecast.PromptNamesLocation | app.py:93 | the prompt contains the location verbatim in bold (between `**` marks) |
| Forecast.PromptStatesDetailLevel | app.py:93 | the prompt contains the detail level verbatim |
| Forecast.PromptStatesDatePhrase | app.py:93 | the prompt contains the date phrase verbatim |
| Forecast.PromptsDifferOnlyInLeadIn | app.py:91-105 | two prompts whose date phrases differ only in equally long lead-ins have equal length and differ only in those characters, which start where the template's opening ends |
| Forecast.CurrentAndTodayDifferOnlyInLeadIn | app.py:81-105 | for the same inputs and instant, the current-weather and today's-forecast prompts have equal length and differ only inside the nine-character lead-in, "as of now" against "for today" |
| Forecast.BriefAndDetailedShareTemplate | app.py:89-105 | the brief and the detailed prompt share all template text before and after the detail word, which is "detailed" in one and "brief" in the other |
| Forecast.WeeklyPromptListsEveryDate | app.py:85-105 | the weekly prompt contains the location and each of the seven dates |
| WeatherIcon.WeatherGlyph | app.py:117-128 | the displayed emoji is always one of the six glyphs (sun behind cloud, rain cloud, cloud, sun, snowflake, thunder cloud); there is no fog glyph |
| WeatherIcon.GlyphInjective | app.py:117-128 | different emojis are displayed as different strings |
| WeatherIcon.FirstMatchPicksFirstHit | app.py:119-128 | in an ordered keyword table, the first keyword that occurs determines the result, whatever later keywords also occur |
| WeatherIcon.FirstMatchDefault | app.py:117 | with no keyword occurring, the table yields the default |
| WeatherIcon.FirstMatchChoosesAHit | app.py:117-128 | the table's result is the default or the emoji of a keyword that occurs in the text |
| WeatherIcon.ClassifyEmojiFollowsRules | app.py:117-128 | the source's `if`/`elif` chain equals first-match-wins over the ordered table rain, cloud, sunny, clear, snow, storm, thunder with the sun-behind-cloud default |
| WeatherIcon.RainAlwaysWins | app.py:119-120 | a lower-cased reply containing "rain" shows the rain emoji whatever other keywords it contains |
| WeatherIcon.ClassifyEmojiCases | app.py:117-128 | each emoji is shown exactly when one of its keywords occurs and none of an earlier category does; the default exactly when none of the seven keywords occurs |
| WeatherIcon.SameLowerCaseSameEmoji | app.py:118 | replies with the same lower-cased text get the same emoji, so matching ignores case as far as `lower` folds it |
| WeatherIcon.NegatedRainStillRain | app.py:118-120 | "no rain expected" still shows rain: negation is not understood |
| WeatherIcon.MixedReplyShowsRain | app.py:119-124 | a reply mentioning cloud and sun before rain shows rain |
| WeatherIcon.KeywordInsideWord | app.py:118-124 | keywords match inside longer words: "unclear" shows the sun |
| ErrorReport.ErrorHintCases | app.py:135-138 | the API-key hint exactly for 403 or 401; the rate-limit hint exactly for 429 without 403/401; no hint otherwise |
| ErrorReport.ErrorLines | app.py:134-138 | one or two lines; the first is always "An error occurred: " and the message; a second line exactly when 403, 401 or 429 occurs, and it is the API-key text when 403/401 occurs, else the rate-limit text |
| ErrorReport.AuthOutranksRateLimit | app.py:135-138 | a message with both an authorisation code and 429 gets the API-key hint |
| ErrorReport.RateLimitExample | app.py:137-138 | "429 quota" gets the rate-limit hint as its second line |

## Left out

- Page setup, CSS, sidebar widgets, the title, the info messages, the subheader and the rendering of the reply and the emoji (app.py:5-66, 109-116, 130-131, 140-142). These are user interface.
- The gate on an empty API key or location and on the submit button (app.py:68-72). It decides whether the core runs at all. `BuildPrompt` takes any location, including the empty string.
- Configuring the Gemini client and calling `generate_content` (app.py:74-75, 107). These are network calls. The reply text is an input.
- `datetime.now()`, `timedelta` and `strftime`. They are calendar and locale library code and are parameters (`Calendar`, `Instant`). The model does not fix day-of-month padding or month names.
- `str.lower` and `str(e)`. They are Python's Unicode tables and exception formatting, and are parameters.
- The case where the selected time frame is none of the three options. The selectbox never produces it. In the source, `date_info` would then stay unbound and the resulting `NameError` would land in the generic error handler. `ParseTimeFrame` returns `None` there, and the model builds no prompt from it.
- Other variants of this app in the same repository add 24-hour and 3-day time frames, a Celsius/Fahrenheit option, a fog/mist emoji and a moon-phase label. This `app.py` has none of them, so the model has none of them either.
