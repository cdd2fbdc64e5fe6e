/** Matching a closing tag with nesting (`find_tag_body`). */
module TagBody {
  import opened Wrappers
  import opened Text

  /** Tag names the scanner is called with. */
  predicate ValidTag(tag: string) {
    |tag| > 0 && tag[0] != '/' && forall k :: 0 <= k < |tag| ==> tag[k] != '<'
  }

  function Open(tag: string): string { "<" + tag }

  function Close(tag: string): string { "</" + tag + ">" }

  /** What the scanner needs of its two patterns: no two occurrences overlap or coincide. */
  predicate Apart(open: string, close: string) {
    Angled(open) && Angled(close) && |open| > 1 && |close| > 1 && open[1] != close[1]
  }

  lemma TagsApart(tag: string)
    requires ValidTag(tag)
    ensures Apart(Open(tag), Close(tag))
  {
    forall k | 0 < k < |Open(tag)| ensures Open(tag)[k] != '<' {
      assert Open(tag)[k] == tag[k - 1];
    }
    forall k | 0 < k < |Close(tag)| ensures Close(tag)[k] != '<' {
      if 2 <= k < 2 + |tag| { assert Close(tag)[k] == tag[k - 2]; }
    }
  }

  lemma OpenIsNotClose(text: string, i: nat, open: string, close: string)
    requires Apart(open, close) && At(text, i, open)
    ensures !At(text, i, close)
  {
    AtChar(text, i, open, 1);
    AtChar(text, i, close, 1);
  }

  /** Reading the text one character at a time from `i` at nesting `depth`, where the tag is closed. */
  function MatchClose(text: string, open: string, close: string, i: nat, depth: nat): (r: Option<nat>)
    requires i <= |text| && depth >= 1
    ensures r.Some? ==> i <= r.value && At(text, r.value, close)
    decreases |text| - i
  {
    if i == |text| then None
    else if At(text, i, close) then
      if depth == 1 then Some(i) else MatchClose(text, open, close, i + 1, depth - 1)
    else MatchClose(text, open, close, i + 1, if At(text, i, open) then depth + 1 else depth)
  }

  /** The body up to the matching close and the text after it; the whole text when there is none. */
  function Body(text: string, tag: string): (r: (string, string))
    ensures |r.0| <= |text| && |r.1| <= |text|
  {
    match MatchClose(text, Open(tag), Close(tag), 0, 1)
    case None => (text, "")
    case Some(i) => (text[..i], text[i + |Close(tag)|..])
  }

  /** Number of occurrences of `pat` that start before `i`. */
  function Count(text: string, pat: string, i: nat): nat {
    if i == 0 then 0 else Count(text, pat, i - 1) + if At(text, i - 1, pat) then 1 else 0
  }

  /** The close at `i` brings the running count of openings minus closings back to zero. */
  ghost predicate Balances(text: string, open: string, close: string, i: nat) {
    At(text, i, close) && Count(text, open, i) == Count(text, close, i)
  }

  /** From position `i`, at the depth the counts give, the scan stops at the first balancing close. */
  lemma {:induction false} ScanFindsBalance(text: string, open: string, close: string, i: nat, depth: nat)
    requires Apart(open, close) && i <= |text|
    requires 1 <= depth == 1 + Count(text, open, i) - Count(text, close, i)
    ensures var r := MatchClose(text, open, close, i, depth);
            && (r.Some? ==> Balances(text, open, close, r.value)
                            && forall j: nat :: i <= j < r.value ==> !Balances(text, open, close, j))
            && (r.None? ==> forall j: nat :: i <= j ==> !Balances(text, open, close, j))
    decreases |text| - i
  {
    hide At;
    if i == |text| {
    } else if At(text, i, close) {
      if depth > 1 {
        if At(text, i, open) { OpenIsNotClose(text, i, open, close); }
        ScanFindsBalance(text, open, close, i + 1, depth - 1);
      }
    } else {
      ScanFindsBalance(text, open, close, i + 1, if At(text, i, open) then depth + 1 else depth);
    }
  }

  /** `find_tag_body` splits at the first close that balances the opening tag, and only there. */
  lemma BodySplitsAtFirstBalance(text: string, tag: string)
    requires ValidTag(tag)
    ensures var (body, rest) := Body(text, tag);
            || (&& text == body + Close(tag) + rest
                && Balances(text, Open(tag), Close(tag), |body|)
                && forall j: nat :: j < |body| ==> !Balances(text, Open(tag), Close(tag), j))
            || (&& (body, rest) == (text, "")
                && forall j: nat :: !Balances(text, Open(tag), Close(tag), j))
  {
    var open, close := Open(tag), Close(tag);
    TagsApart(tag);
    ScanFindsBalance(text, open, close, 0, 1);
    match MatchClose(text, open, close, 0, 1)
    case None =>
    case Some(i) =>
      assert text == text[..i] + text[i..i + |close|] + text[i + |close|..];
  }

  /** Positions where no tag starts do not move the scan. */
  lemma {:induction false} SkipPlain(text: string, open: string, close: string, i: nat, j: nat, depth: nat)
    requires i <= j <= |text| && depth >= 1
    requires forall k: nat :: i <= k < j ==> !At(text, k, open) && !At(text, k, close)
    ensures MatchClose(text, open, close, i, depth) == MatchClose(text, open, close, j, depth)
    decreases j - i
  {
    if i < j { SkipPlain(text, open, close, i + 1, j, depth); }
  }

  /** Right behind the start of a tag, the rest of that tag holds nothing the scan reacts to. */
  lemma SkipTag(text: string, open: string, close: string, p: nat, pat: string, depth: nat)
    requires Apart(open, close) && depth >= 1 && pat in {open, close} && At(text, p, pat)
    ensures MatchClose(text, open, close, p + 1, depth) == MatchClose(text, open, close, p + |pat|, depth)
  {
    forall k: nat | p + 1 <= k < p + |pat|
      ensures !At(text, k, open) && !At(text, k, close)
    {
      NoAngleInside(text, p, pat, k, open);
      NoAngleInside(text, p, pat, k, close);
    }
    SkipPlain(text, open, close, p + 1, p + |pat|, depth);
  }

  /** A close met at depth one ends the scan; any other tag changes the depth, and the scan goes on behind it. */
  lemma ScanTag(text: string, open: string, close: string, i: nat, p: nat, depth: nat)
    requires Apart(open, close) && depth >= 1 && i <= p
    requires forall k: nat :: i <= k < p ==> !At(text, k, open) && !At(text, k, close)
    ensures At(text, p, close)
            ==> MatchClose(text, open, close, i, depth)
                == if depth == 1 then Some(p) else MatchClose(text, open, close, p + |close|, depth - 1)
    ensures At(text, p, open)
            ==> MatchClose(text, open, close, i, depth) == MatchClose(text, open, close, p + |open|, depth + 1)
  {
    hide At;
    if At(text, p, close) {
      SkipPlain(text, open, close, i, p, depth);
      if depth > 1 { SkipTag(text, open, close, p, close, depth - 1); }
    }
    if At(text, p, open) {
      OpenIsNotClose(text, p, open, close);
      SkipPlain(text, open, close, i, p, depth);
      SkipTag(text, open, close, p, open, depth + 1);
    }
  }

  /** The scanner itself: it jumps from tag to tag, and its depth never falls below one. */
  method FindTagBody(text: string, tag: string) returns (body: string, rest: string)
    requires ValidTag(tag)
    ensures (body, rest) == Body(text, tag)
  {
    hide At; hide MatchClose; hide Apart;
    var open, close := Open(tag), Close(tag);
    TagsApart(tag);
    var depth, searchPos := 1, 0;
    while true
      invariant searchPos <= |text| && depth >= 1
      invariant MatchClose(text, open, close, 0, 1) == MatchClose(text, open, close, searchPos, depth)
      decreases |text| - searchPos
    {
      var op := FindFrom(text, open, searchPos);
      var cp := FindFrom(text, close, searchPos);
      if cp.Some? && depth == 1 && (op.None? || cp.value < op.value) {
        ScanTag(text, open, close, searchPos, cp.value, depth);
        return text[..cp.value], text[cp.value + |close|..];
      } else if op.Some? && cp.Some? && op.value < cp.value {
        ScanTag(text, open, close, searchPos, op.value, depth);
        depth := depth + 1;
        searchPos := op.value + |open|;
      } else if cp.Some? {
        if op.Some? { OpenIsNotClose(text, op.value, open, close); }
        ScanTag(text, open, close, searchPos, cp.value, depth);
        depth := depth - 1;
        searchPos := cp.value + |close|;
      } else if op.Some? {
        searchPos := op.value + |open|;
      } else {
        return text, "";
      }
    }
  }
}
