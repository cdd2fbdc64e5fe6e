/** String searching and trimming, as the parser and the terminal code use them.
    Positions are character positions; every pattern searched for starts with an ASCII
    character, so they stand for the byte positions of the program one for one. */
module Text {
  import opened Wrappers

  /** `pat` occurs in `text` at position `i`. */
  predicate At(text: string, i: nat, pat: string): (occurs: bool)
    ensures occurs ==> i + |pat| <= |text|
  {
    i + |pat| <= |text| && text[i..i + |pat|] == pat
  }

  ghost predicate Contains(text: string, pat: string) {
    exists i: nat :: At(text, i, pat)
  }

  /** The first occurrence of `pat` at or after `from`. */
  function FindFrom(text: string, pat: string, from: nat): (r: Option<nat>)
    requires from <= |text|
    ensures r.Some? ==> from <= r.value && At(text, r.value, pat)
    ensures r.Some? ==> forall j: nat :: from <= j < r.value ==> !At(text, j, pat)
    ensures r.None? ==> forall j: nat :: from <= j ==> !At(text, j, pat)
    decreases |text| - from
  {
    if At(text, from, pat) then Some(from)
    else if from == |text| then None
    else FindFrom(text, pat, from + 1)
  }

  /** A pattern that opens with '<' and has no other '<': two occurrences never overlap. */
  predicate Angled(pat: string) {
    |pat| > 0 && pat[0] == '<' && forall k :: 0 < k < |pat| ==> pat[k] != '<'
  }

  /** Unicode `White_Space`. */
  predicate IsWhitespace(c: char) {
    '\U{0009}' <= c <= '\U{000d}' || c == ' ' || c == '\U{0085}' || c == '\U{00a0}' || c == '\U{1680}'
    || '\U{2000}' <= c <= '\U{200a}' || c == '\U{2028}' || c == '\U{2029}' || c == '\U{202f}'
    || c == '\U{205f}' || c == '\U{3000}'
  }

  function Trim(s: string): string {
    if s == "" then ""
    else if IsWhitespace(s[0]) then Trim(s[1..])
    else if IsWhitespace(s[|s| - 1]) then Trim(s[..|s| - 1])
    else s
  }

  lemma AtChar(text: string, i: nat, pat: string, k: nat)
    requires k < |pat|
    ensures At(text, i, pat) ==> text[i + k] == pat[k]
  {
    if At(text, i, pat) { assert text[i + k] == text[i..i + |pat|][k]; }
  }

  lemma AtShift(a: string, b: string, k: nat, pat: string)
    ensures At(a + b, |a| + k, pat) <==> At(b, k, pat)
  {
    if |a| + k + |pat| <= |a + b| {
      assert (a + b)[|a| + k..|a| + k + |pat|] == b[k..k + |pat|];
    }
  }

  /** No occurrence of an angled pattern starts in `a` and runs on into a `b` that opens with '<'. */
  lemma NoStraddle(a: string, b: string, pat: string, j: nat)
    requires Angled(pat) && (b == "" || b[0] == '<')
    requires j < |a| && At(a + b, j, pat)
    ensures At(a, j, pat)
  {
    if j + |pat| > |a| {
      AtChar(a + b, j, pat, |a| - j);
    } else {
      assert (a + b)[j..j + |pat|] == a[j..j + |pat|];
    }
  }

  /** Two occurrences of an angled pattern do not overlap: inside one, no other begins. */
  lemma NoAngleInside(text: string, i: nat, pat: string, j: nat, pat2: string)
    requires Angled(pat) && Angled(pat2) && At(text, i, pat) && i < j < i + |pat|
    ensures !At(text, j, pat2)
  {
    AtChar(text, i, pat, j - i);
    AtChar(text, j, pat2, 0);
  }
}
