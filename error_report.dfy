/** What the page shows when building the prompt or calling the model raises
    (app.py:133-138): a generic line with the exception text, then at most one
    hint chosen from the text. The exception's `str(e)` is the parameter
    `message`. */
module ErrorReport {
  import opened Text

  /** The extra hint shown after the generic error line, if any. */
  datatype Hint = ApiKeyHint | RateLimitHint | NoHint

  /** The hint for an exception text: an authorisation code is checked
      before the rate-limit code (app.py:135-138). */
  function ErrorHint(message: string): Hint
  {
    if Contains(message, "403") || Contains(message, "401") then ApiKeyHint
    else if Contains(message, "429") then RateLimitHint
    else NoHint
  }

  /** The key hint is given exactly for 403 or 401; the rate-limit hint exactly
      for 429 without either of those; no hint otherwise. */
  lemma ErrorHintCases(message: string)
    ensures var auth := Contains(message, "403") || Contains(message, "401");
            var rate := Contains(message, "429");
            && (ErrorHint(message) == ApiKeyHint <==> auth)
            && (ErrorHint(message) == RateLimitHint <==> !auth && rate)
            && (ErrorHint(message) == NoHint <==> !auth && !rate)
  {
  }

  /** The error lines shown, in order (app.py:134-138). */
  function ErrorLines(message: string): (lines: seq<string>)
    ensures 1 <= |lines| <= 2
    ensures lines[0] == "An error occurred: " + message
    ensures |lines| == 2 <==> Contains(message, "403") || Contains(message, "401") || Contains(message, "429")
    ensures |lines| == 2 && (Contains(message, "403") || Contains(message, "401")) ==>
      lines[1] == "API key error. Please check your Gemini API key."
    ensures |lines| == 2 && !(Contains(message, "403") || Contains(message, "401")) ==>
      lines[1] == "Rate limit exceeded. Please try again later."
  {
    var generic := "An error occurred: " + message;
    match ErrorHint(message)
    case ApiKeyHint => [generic, "API key error. Please check your Gemini API key."]
    case RateLimitHint => [generic, "Rate limit exceeded. Please try again later."]
    case NoHint => [generic]
  }

  /** An authorisation code wins over a rate-limit code in the same text. */
  lemma AuthOutranksRateLimit(message: string)
    requires Contains(message, "429")
    requires Contains(message, "401") || Contains(message, "403")
    ensures ErrorHint(message) == ApiKeyHint
  {
  }

  /** A rate-limit message gets the generic line and the rate-limit hint. */
  lemma RateLimitExample()
    ensures ErrorHint("429 quota") == RateLimitHint
    ensures ErrorLines("429 quota")[1] == "Rate limit exceeded. Please try again later."
  {
    var m := "429 quota";
    assert OccursAt(m, "429", 0);
    forall i | 0 <= i <= |m| - 3
      ensures !OccursAt(m, "403", i) && !OccursAt(m, "401", i)
    {
      assert m[i] != '4' || m[i + 1] != '0';
    }
    assert !Contains(m, "403") && !Contains(m, "401");
  }
}
