/** String operations the weather assistant relies on, with the meaning Python
    gives them: `needle in text` for strings (substring containment) and
    `sep.join(items)`. */
module Text {

  /** `needle` occurs in `text` starting at index `i`. */
  predicate OccursAt(text: string, needle: string, i: int) {
    0 <= i && i + |needle| <= |text| && text[i..i + |needle|] == needle
  }

  /** Python's `needle in text` on strings: `needle` occurs in `text` as a
      contiguous block. The empty string occurs in every string. */
  predicate Contains(text: string, needle: string) {
    exists i :: 0 <= i <= |text| - |needle| && OccursAt(text, needle, i)
  }

  /** A string contains whatever is written into it. */
  lemma ContainsInfix(before: string, needle: string, after: string)
    ensures Contains(before + needle + after, needle)
  {
    var t := before + needle + after;
    assert t[|before|..|before| + |needle|] == needle;
    assert OccursAt(t, needle, |before|);
  }

  /** Containment is transitive: what occurs in a part occurs in the whole. */
  lemma ContainsTransitive(text: string, part: string, needle: string)
    requires Contains(text, part)
    requires Contains(part, needle)
    ensures Contains(text, needle)
  {
    var i :| 0 <= i <= |text| - |part| && OccursAt(text, part, i);
    var j :| 0 <= j <= |part| - |needle| && OccursAt(part, needle, j);
    assert text[i..i + |part|] == part;
    forall k | 0 <= k < |needle|
      ensures text[i + j + k] == needle[k]
    {
      assert text[i + j + k] == text[i..i + |part|][j + k] == part[j + k];
      assert part[j + k] == part[j..j + |needle|][k];
    }
    assert text[i + j..i + j + |needle|] == needle;
    assert OccursAt(text, needle, i + j);
  }

  /** Regroupings of a concatenation of nine parts. */
  lemma Regroup9(a: string, b: string, c: string, d: string, e: string, f: string, g: string,
                 h: string, i: string)
    ensures a + b + c + d + e + f + g + h + i == (a + b + c) + (d + e + f) + (g + h + i)
    ensures a + b + c + d + e + f + g + h + i == a + b + (c + d + e + f + g + h + i)
  {
  }

  /** Concatenation is associative. */
  lemma Regroup3(a: string, b: string, c: string)
    ensures a + (b + c) == a + b + c
  {
  }

  /** Moving the boundary of a middle part to its front. */
  lemma Regroup4(a: string, b: string, c: string, d: string)
    ensures a + (b + c) + d == a + b + (c + d)
  {
  }

  /** A string built as `pre + mid + post` gives back its three parts. */
  lemma ConcatParts(pre: string, mid: string, post: string)
    ensures var s := pre + mid + post;
            && s[..|pre|] == pre
            && s[|pre|..|pre| + |mid|] == mid
            && s[|pre| + |mid|..] == post
  {
  }

  /** Two strings that share their text around equally long middles differ
      only inside the middle. */
  lemma DifferOnlyInMiddle(pre: string, a: string, b: string, post: string)
    requires |a| == |b|
    ensures |pre + a + post| == |pre + b + post|
    ensures forall i :: 0 <= i < |pre + a + post| && (pre + a + post)[i] != (pre + b + post)[i] ==>
      |pre| <= i < |pre| + |a|
  {
    var s, t := pre + a + post, pre + b + post;
    forall i | 0 <= i < |s| && !(|pre| <= i < |pre| + |a|)
      ensures s[i] == t[i]
    {
      if i < |pre| {
        assert s[i] == pre[i] == t[i];
      } else {
        assert s[i] == post[i - |pre| - |a|] == t[i];
      }
    }
  }

  /** Python's `sep.join(items)`: the items in order, `sep` between neighbours. */
  function Join(sep: string, items: seq<string>): string
  {
    if |items| == 0 then ""
    else if |items| == 1 then items[0]
    else items[0] + sep + Join(sep, items[1..])
  }

  /** Joining can be cut at any inner boundary. */
  lemma {:induction false} JoinSplit(sep: string, items: seq<string>, k: nat)
    requires 0 < k < |items|
    ensures Join(sep, items) == Join(sep, items[..k]) + sep + Join(sep, items[k..])
  {
    if k == 1 {
      assert items[..1] == [items[0]];
      assert items[1..] == items[k..];
    } else {
      var tail := items[1..];
      JoinSplit(sep, tail, k - 1);
      assert tail[..k - 1] == items[1..k];
      assert tail[k - 1..] == items[k..];
      var front := items[..k];
      assert front[0] == items[0] && front[1..] == items[1..k];
      assert Join(sep, front) == items[0] + sep + Join(sep, items[1..k]);
    }
  }

  /** The text of `sep.join(items)` that comes before entry `i`. */
  function JoinPrefix(sep: string, items: seq<string>, i: nat): string
    requires i < |items|
  {
    if i == 0 then "" else Join(sep, items[..i]) + sep
  }

  /** The text of `sep.join(items)` that comes after entry `i`. */
  function JoinSuffix(sep: string, items: seq<string>, i: nat): string
    requires i < |items|
  {
    if i + 1 == |items| then "" else sep + Join(sep, items[i + 1..])
  }

  /** The entries from `i` on join to entry `i` followed by what comes after it. */
  lemma JoinFrom(sep: string, items: seq<string>, i: nat)
    requires i < |items|
    ensures Join(sep, items[i..]) == items[i] + JoinSuffix(sep, items, i)
  {
    var rest := items[i..];
    assert rest[0] == items[i];
    if i + 1 < |items| {
      assert rest[1..] == items[i + 1..];
    }
  }

  /** Every entry appears in the joined string, between the text of the
      entries before it and the text of the entries after it. */
  lemma {:induction false} JoinAround(sep: string, items: seq<string>, i: nat)
    requires i < |items|
    ensures Join(sep, items) == JoinPrefix(sep, items, i) + items[i] + JoinSuffix(sep, items, i)
  {
    var prefix, suffix := JoinPrefix(sep, items, i), JoinSuffix(sep, items, i);
    JoinFrom(sep, items, i);
    if i == 0 {
      assert items[0..] == items;
      assert prefix == "";
    } else {
      JoinSplit(sep, items, i);
      assert Join(sep, items) == prefix + Join(sep, items[i..]);
    }
    Regroup3(prefix, items[i], suffix);
  }
  /** Entries appear in list order: the text before entry `i + 1` is the text
      before entry `i`, then entry `i`, then one separator. */
  lemma JoinPrefixNext(sep: string, items: seq<string>, i: nat)
    requires i + 1 < |items|
    ensures JoinPrefix(sep, items, i + 1) == JoinPrefix(sep, items, i) + items[i] + sep
  {
    if i == 0 {
      assert items[..1] == [items[0]];
    } else {
      var front := items[..i + 1];
      JoinSplit(sep, front, i);
      assert front[..i] == items[..i];
      assert front[i..] == [items[i]];
    }
  }

  /** Entry `i` occurs in `sep.join(items)` exactly where the entries before it
      and their separators end. */
  lemma JoinEntryAt(sep: string, items: seq<string>, i: nat)
    requires i < |items|
    ensures OccursAt(Join(sep, items), items[i], |JoinPrefix(sep, items, i)|)
  {
    JoinAround(sep, items, i);
    var p := JoinPrefix(sep, items, i);
    var t := Join(sep, items);
    assert t[|p|..|p| + |items[i]|] == items[i];
  }
}
