/**
 * String primitives the bot relies on: the first-occurrence search and
 * replacement performed by a JavaScript `String.prototype.replace` whose
 * pattern is a string, and the decimal rendering and parsing of integers
 * (`String(n)` and `parseInt` restricted to plain digit strings).
 */
module Text {
  import opened Wrappers

  /** `pat` occurs in `s` starting at index `i`. */
  predicate OccursAt(s: string, pat: string, i: nat)
  {
    i + |pat| <= |s| && s[i..i + |pat|] == pat
  }

  /** `i` is the index of the leftmost occurrence of `pat` in `s`. */
  ghost predicate FirstOccurrence(s: string, pat: string, i: nat)
  {
    OccursAt(s, pat, i) && forall j: nat :: j < i ==> !OccursAt(s, pat, j)
  }

  /** `pat` occurs nowhere in `s`. */
  ghost predicate Absent(s: string, pat: string)
  {
    forall j: nat :: !OccursAt(s, pat, j)
  }

  /** Left-to-right search for `pat`, starting at `k`, knowing nothing matches before `k`. */
  function IndexFrom(s: string, pat: string, k: nat): (r: Option<nat>)
    requires forall j: nat :: j < k ==> !OccursAt(s, pat, j)
    ensures r.Some? ==> FirstOccurrence(s, pat, r.value)
    ensures r.None? ==> Absent(s, pat)
    decreases |s| + 1 - k
  {
    if k + |pat| > |s| then None
    else if s[k..k + |pat|] == pat then Some(k)
    else IndexFrom(s, pat, k + 1)
  }

  /** `String.prototype.indexOf`: the leftmost occurrence, or none. */
  function IndexOf(s: string, pat: string): (r: Option<nat>)
    ensures r.Some? <==> !Absent(s, pat)
    ensures r.Some? ==> FirstOccurrence(s, pat, r.value)
  {
    IndexFrom(s, pat, 0)
  }

  /**
   * `s.replace(pat, rep)` with a string pattern: only the leftmost
   * occurrence is replaced, and `s` is returned as is when there is none.
   */
  function ReplaceFirst(s: string, pat: string, rep: string): (r: string)
    ensures Absent(s, pat) ==> r == s
    ensures !Absent(s, pat) ==> |r| == |s| - |pat| + |rep|
    ensures forall i: nat :: FirstOccurrence(s, pat, i) ==> r == s[..i] + rep + s[i + |pat|..]
  {
    match IndexOf(s, pat)
    case None => s
    case Some(i) => s[..i] + rep + s[i + |pat|..]
  }

  /** A pattern whose first character does not appear in `pre` is first found right after `pre`. */
  lemma FirstOccurrenceAfter(pre: string, pat: string, post: string)
    requires |pat| > 0 && pat[0] !in pre
    ensures FirstOccurrence(pre + pat + post, pat, |pre|)
  {
  }

  /** Replacing a placeholder that is preceded by no candidate start splices `rep` in its place. */
  lemma ReplaceFirstAfter(pre: string, pat: string, post: string, rep: string)
    requires |pat| > 0 && pat[0] !in pre
    ensures ReplaceFirst(pre + pat + post, pat, rep) == pre + rep + post
  {
    var s := pre + pat + post;
    FirstOccurrenceAfter(pre, pat, post);
    assert s[..|pre|] == pre;
    assert s[|pre| + |pat|..] == post;
  }

  /**
   * Only the first of two occurrences is replaced: the result still holds
   * the second one, right after `pre + rep + mid`.
   */
  lemma ReplaceFirstOnlyOnce(pre: string, pat: string, mid: string, post: string, rep: string)
    requires |pat| > 0 && pat[0] !in pre
    ensures ReplaceFirst(pre + pat + (mid + pat + post), pat, rep) == pre + rep + (mid + pat + post)
    ensures OccursAt(pre + rep + (mid + pat + post), pat, |pre| + |rep| + |mid|)
  {
    ReplaceFirstAfter(pre, pat, mid + pat + post, rep);
    OccursInTail(pre + rep, mid, pat, post);
  }

  /** `pat` placed after `head + mid` occurs at index `|head| + |mid|`. */
  lemma OccursInTail(head: string, mid: string, pat: string, post: string)
    ensures OccursAt(head + (mid + pat + post), pat, |head| + |mid|)
  {
  }

  /** A non-empty pattern is found nowhere in the empty string. */
  lemma ReplaceFirstInEmpty(pat: string, rep: string)
    requires |pat| > 0
    ensures ReplaceFirst("", pat, rep) == ""
  {
  }

  // ---- Decimal numbers ----

  predicate IsDigit(c: char)
  {
    '0' <= c <= '9'
  }

  predicate AllDigits(s: string)
  {
    forall i :: 0 <= i < |s| ==> IsDigit(s[i])
  }

  function DigitChar(d: nat): (c: char)
    requires d < 10
  {
    (48 + d) as char
  }

  function DigitValue(c: char): nat
    requires IsDigit(c)
  {
    c as int - 48
  }

  /** `String(n)` for a non-negative integer: its decimal digits, most significant first. */
  function Show(n: nat): (s: string)
    ensures |s| > 0 && AllDigits(s)
    ensures n >= 10 ==> s[0] != '0'
    ensures s[0] == '0' ==> s == "0"
  {
    if n < 10 then [DigitChar(n)] else Show(n / 10) + [DigitChar(n % 10)]
  }

  /** `String(i)` for any integer: a minus sign before the digits of a negative value. */
  function ShowInt(i: int): (s: string)
    ensures i >= 0 ==> AllDigits(s) && ParseDecimal(s) == Some(i)
    ensures i < 0 ==> |s| > 1 && s[0] == '-' && AllDigits(s[1..]) && ParseDecimal(s[1..]) == Some(-i)
    ensures i >= 0 ==> s[0] != '0' || s == "0"
    ensures i < 0 ==> s[1] != '0'
  {
    if i < 0 then
      ParseShow(-i);
      assert ("-" + Show(-i))[1..] == Show(-i);
      "-" + Show(-i)
    else
      ParseShow(i);
      Show(i)
  }

  /** The value of a string of decimal digits, most significant first. */
  function Value(s: string): nat
    requires AllDigits(s)
  {
    if |s| == 0 then 0 else Value(s[..|s| - 1]) * 10 + DigitValue(s[|s| - 1])
  }

  /** `parseInt` on a payload: a non-empty string of decimal digits, or no number at all. */
  function ParseDecimal(s: string): (r: Option<nat>)
    ensures r.Some? <==> |s| > 0 && AllDigits(s)
  {
    if |s| > 0 && AllDigits(s) then Some(Value(s)) else None
  }

  /** Reading back the digits `Show` writes gives the number. */
  lemma {:induction false} ValueShow(n: nat)
    ensures Value(Show(n)) == n
  {
    if n >= 10 {
      ValueShow(n / 10);
      var s := Show(n);
      assert s[..|s| - 1] == Show(n / 10);
    }
  }

  /** Parsing what `Show` renders gives the number back. */
  lemma ParseShow(n: nat)
    ensures ParseDecimal(Show(n)) == Some(n)
  {
    ValueShow(n);
  }

  /** Rendered integers never contain an opening brace, so they cannot start a placeholder. */
  lemma NoBraceInShowInt(i: int)
    ensures '{' !in ShowInt(i)
  {
  }
}
