/** The weather visual shown beside the model's reply (app.py:117-128): the
    reply is lower-cased and searched for a fixed list of keywords; the
    first keyword found picks the emoji, and a reply with none of them keeps
    the default. Python's `str.lower` is a parameter. */
module WeatherIcon {
  import opened Text

  /** The six emojis the classifier can show. */
  datatype Emoji = SunBehindCloud | Rain | Cloud | Sun | Snowflake | ThunderCloud

  /** The characters of each emoji as written in the source: one symbol
      followed by the emoji presentation selector U+FE0F. */
  function Glyph(e: Emoji): string
  {
    match e
    case SunBehindCloud => "\U{1F324}\U{FE0F}"
    case Rain => "\U{1F327}\U{FE0F}"
    case Cloud => "\U{2601}\U{FE0F}"
    case Sun => "\U{2600}\U{FE0F}"
    case Snowflake => "\U{2744}\U{FE0F}"
    case ThunderCloud => "\U{26C8}\U{FE0F}"
  }

  /** `weather_emoji` for a reply (app.py:117-128). */
  function ClassifyEmoji(lower: string -> string, reply: string): Emoji
  {
    var text := lower(reply);
    if Contains(text, "rain") then Rain
    else if Contains(text, "cloud") then Cloud
    else if Contains(text, "sunny") || Contains(text, "clear") then Sun
    else if Contains(text, "snow") then Snowflake
    else if Contains(text, "storm") || Contains(text, "thunder") then ThunderCloud
    else SunBehindCloud
  }

  /** The string the page displays as the weather visual: always exactly one
      of the six emojis, and there is no fog emoji among them. */
  function WeatherGlyph(lower: string -> string, reply: string): (g: string)
    ensures g in {"\U{1F324}\U{FE0F}", "\U{1F327}\U{FE0F}", "\U{2601}\U{FE0F}",
                  "\U{2600}\U{FE0F}", "\U{2744}\U{FE0F}", "\U{26C8}\U{FE0F}"}
  {
    Glyph(ClassifyEmoji(lower, reply))
  }

  /** Different emojis are displayed differently. */
  lemma GlyphInjective(e1: Emoji, e2: Emoji)
    requires Glyph(e1) == Glyph(e2)
    ensures e1 == e2
  {
    assert Glyph(e1)[0] == Glyph(e2)[0];
  }

  /** The keyword list in priority order, each keyword with the emoji it selects. */
  const Rules: seq<(string, Emoji)> := [
    ("rain", Rain), ("cloud", Cloud), ("sunny", Sun), ("clear", Sun),
    ("snow", Snowflake), ("storm", ThunderCloud), ("thunder", ThunderCloud)]

  /** First-match-wins over an ordered keyword list: the emoji of the first
      keyword that occurs in `text`, or `default` when none occurs. */
  function FirstMatch(rules: seq<(string, Emoji)>, text: string, default: Emoji): Emoji
  {
    if |rules| == 0 then default
    else if Contains(text, rules[0].0) then rules[0].1
    else FirstMatch(rules[1..], text, default)
  }

  /** When keyword `i` occurs and no earlier one does, its emoji is chosen,
      whatever later keywords also occur. */
  lemma {:induction false} FirstMatchPicksFirstHit(
    rules: seq<(string, Emoji)>, text: string, default: Emoji, i: nat)
    requires i < |rules|
    requires Contains(text, rules[i].0)
    requires forall j :: 0 <= j < i ==> !Contains(text, rules[j].0)
    ensures FirstMatch(rules, text, default) == rules[i].1
  {
    if i > 0 {
      assert !Contains(text, rules[0].0);
      FirstMatchPicksFirstHit(rules[1..], text, default, i - 1);
    }
  }

  /** When no keyword occurs, the default is chosen. */
  lemma {:induction false} FirstMatchDefault(rules: seq<(string, Emoji)>, text: string, default: Emoji)
    requires forall j :: 0 <= j < |rules| ==> !Contains(text, rules[j].0)
    ensures FirstMatch(rules, text, default) == default
  {
    if |rules| > 0 {
      assert !Contains(text, rules[0].0);
      FirstMatchDefault(rules[1..], text, default);
    }
  }

  /** The chosen emoji is the default or the emoji of a keyword that occurs. */
  lemma {:induction false} FirstMatchChoosesAHit(rules: seq<(string, Emoji)>, text: string, default: Emoji)
    ensures FirstMatch(rules, text, default) == default
            || exists i :: 0 <= i < |rules| && Contains(text, rules[i].0) && FirstMatch(rules, text, default) == rules[i].1
  {
    if |rules| > 0 && !Contains(text, rules[0].0) {
      FirstMatchChoosesAHit(rules[1..], text, default);
      var r := FirstMatch(rules, text, default);
      if r != default {
        var i :| 0 <= i < |rules[1..]| && Contains(text, rules[1..][i].0) && r == rules[1..][i].1;
        assert rules[1..][i] == rules[i + 1];
      }
    } else if |rules| > 0 {
      assert Contains(text, rules[0].0);
    }
  }

  /** The `if`/`elif` chain of the source is the ordered keyword list
      evaluated first-match-wins, with the sun behind a cloud as default. */
  lemma ClassifyEmojiFollowsRules(lower: string -> string, reply: string)
    ensures ClassifyEmoji(lower, reply) == FirstMatch(Rules, lower(reply), SunBehindCloud)
  {
    var t := lower(reply);
    if Contains(t, "rain") {
      FirstMatchPicksFirstHit(Rules, t, SunBehindCloud, 0);
    } else if Contains(t, "cloud") {
      FirstMatchPicksFirstHit(Rules, t, SunBehindCloud, 1);
    } else if Contains(t, "sunny") {
      FirstMatchPicksFirstHit(Rules, t, SunBehindCloud, 2);
    } else if Contains(t, "clear") {
      FirstMatchPicksFirstHit(Rules, t, SunBehindCloud, 3);
    } else if Contains(t, "snow") {
      FirstMatchPicksFirstHit(Rules, t, SunBehindCloud, 4);
    } else if Contains(t, "storm") {
      FirstMatchPicksFirstHit(Rules, t, SunBehindCloud, 5);
    } else if Contains(t, "thunder") {
      FirstMatchPicksFirstHit(Rules, t, SunBehindCloud, 6);
    } else {
      FirstMatchDefault(Rules, t, SunBehindCloud);
    }
  }

  /** Rain outranks every other keyword: a reply that mentions rain shows the
      rain cloud whatever else it mentions. */
  lemma RainAlwaysWins(lower: string -> string, reply: string)
    requires Contains(lower(reply), "rain")
    ensures ClassifyEmoji(lower, reply) == Rain
  {
  }

  /** Each emoji is shown exactly when one of its keywords occurs and no
      keyword of an earlier category does; the default exactly when none of
      the seven keywords occurs. */
  lemma ClassifyEmojiCases(lower: string -> string, reply: string)
    ensures var t, e := lower(reply), ClassifyEmoji(lower, reply);
            var rain, cloud := Contains(t, "rain"), Contains(t, "cloud");
            var sun := Contains(t, "sunny") || Contains(t, "clear");
            var snow := Contains(t, "snow");
            var storm := Contains(t, "storm") || Contains(t, "thunder");
            && (e == Rain <==> rain)
            && (e == Cloud <==> !rain && cloud)
            && (e == Sun <==> !rain && !cloud && sun)
            && (e == Snowflake <==> !rain && !cloud && !sun && snow)
            && (e == ThunderCloud <==> !rain && !cloud && !sun && !snow && storm)
            && (e == SunBehindCloud <==> !rain && !cloud && !sun && !snow && !storm)
  {
  }

  /** Only the lower-cased reply matters, so the match ignores case as far as
      `lower` folds it. */
  lemma SameLowerCaseSameEmoji(lower: string -> string, reply1: string, reply2: string)
    requires lower(reply1) == lower(reply2)
    ensures ClassifyEmoji(lower, reply1) == ClassifyEmoji(lower, reply2)
  {
  }

  /** Negation is not understood: "no rain expected" still shows rain. */
  lemma NegatedRainStillRain(lower: string -> string, reply: string)
    requires lower(reply) == "no rain expected"
    ensures ClassifyEmoji(lower, reply) == Rain
  {
    assert OccursAt(lower(reply), "rain", 3);
  }

  /** A reply mentioning cloud and sun before rain still shows rain. */
  lemma MixedReplyShowsRain(lower: string -> string, reply: string)
    requires lower(reply) == "cloudy, sunny, rain"
    ensures Contains(lower(reply), "cloud") && Contains(lower(reply), "sunny")
    ensures ClassifyEmoji(lower, reply) == Rain
  {
    var t := lower(reply);
    assert t[0..5] == "cloud";
    assert OccursAt(t, "cloud", 0);
    assert OccursAt(t, "sunny", 8);
    assert OccursAt(t, "rain", 15);
  }

  /** Keywords are found inside longer words: "unclear" counts as "clear". */
  lemma KeywordInsideWord(lower: string -> string, reply: string)
    requires lower(reply) == "unclear"
    ensures ClassifyEmoji(lower, reply) == Sun
  {
    var t := lower(reply);
    assert t[2..7] == "clear";
    assert OccursAt(t, "clear", 2);
    forall i | 0 <= i <= |t| - 4
      ensures !OccursAt(t, "rain", i)
    {
      assert t[i] != 'r';
    }
    forall i | 0 <= i <= |t| - 5
      ensures !OccursAt(t, "cloud", i)
    {
      assert t[i + 2] != 'o';
    }
  }
}
