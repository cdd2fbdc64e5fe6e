/** Printed calls behind container openings: what `<tool_calls>` layers and stray closings do to them. */
module Layers {
  import opened Wrappers
  import opened Text
  import opened ToolParse
  import opened RoundTrip
  import TagBody

  const ENDS := "</tool_calls>"
  const CONTAINER := "<tool_calls>"

  function Repeat(s: string, n: nat): string {
    if n == 0 then "" else s + Repeat(s, n - 1)
  }

  /** The blocks behind `opens` container openings and in front of `closes` closings. */
  function Layered(opens: nat, blocks: seq<Block>, tail: string, closes: nat): string {
    Repeat(CONTAINER, opens) + Print(blocks, tail + Repeat(ENDS, closes))
  }

  ghost predicate NoCloseInBodies(blocks: seq<Block>) {
    forall b :: b in blocks ==> !Contains(b.body, ENDS)
  }

  ghost predicate NoStrayClose(blocks: seq<Block>, tail: string) {
    !Contains(tail, ENDS) && forall b :: b in blocks ==> !Contains(b.gap, ENDS) && !Contains(b.body, ENDS)
  }

  // ── Seams ─────────────────────────────────────────────────────

  /** A pattern with '<' only at its front and '>' at most at its end. */
  predicate TagLike(pat: string) {
    Angled(pat) && forall k :: 0 <= k < |pat| - 1 ==> pat[k] != '>'
  }

  lemma Tags()
    ensures TagLike(CALL) && TagLike(CALLS) && TagLike(ENDS)
    ensures TagBody.Open("tool_calls") == CALLS && TagBody.Close("tool_calls") == ENDS
    ensures TagBody.Apart(CALLS, ENDS)
  {
  }

  /** No tag runs across from `a` into `b`. */
  predicate Seam(a: string, b: string) {
    a == "" || b == "" || a[|a| - 1] == '>' || b[0] == '<'
  }

  lemma AtSeam(a: string, b: string, pat: string, j: nat)
    requires TagLike(pat) && Seam(a, b) && j < |a|
    ensures At(a + b, j, pat) <==> At(a, j, pat)
  {
    hide At;
    if j + |pat| <= |a| {
      AtInFront(a, b, j, pat);
    } else if At(a + b, j, pat) {
      AtChar(a + b, j, pat, |a| - 1 - j);
      AtChar(a + b, j, pat, |a| - j);
    }
  }

  lemma AtInFront(a: string, b: string, j: nat, pat: string)
    requires j + |pat| <= |a|
    ensures At(a + b, j, pat) <==> At(a, j, pat)
  {
    assert (a + b)[j..j + |pat|] == a[j..j + |pat|];
  }

  lemma LacksSeam(a: string, b: string, pat: string)
    requires TagLike(pat) && Seam(a, b) && !Contains(a, pat) && !Contains(b, pat)
    ensures !Contains(a + b, pat)
  {
    hide At;
    forall j: nat ensures !At(a + b, j, pat) {
      if j < |a| { AtSeam(a, b, pat, j); } else { AtShift(a, b, j - |a|, pat); }
    }
  }

  lemma AtInSlice(s: string, i: nat, j: nat, k: nat, pat: string)
    requires i <= j <= |s| && At(s[i..j], k, pat)
    ensures At(s, i + k, pat)
  {
    var t := s[i..j];
    var u, v := t[k..k + |pat|], s[i + k..i + k + |pat|];
    assert forall x | 0 <= x < |pat| :: u[x] == t[k + x] == v[x];
  }

  lemma LacksSlice(s: string, i: nat, j: nat, pat: string)
    requires i <= j <= |s| && !Contains(s, pat)
    ensures !Contains(s[i..j], pat)
  {
    forall k: nat ensures !At(s[i..j], k, pat) {
      if At(s[i..j], k, pat) { AtInSlice(s, i, j, k, pat); }
    }
  }

  // ── Counting occurrences ──────────────────────────────────────

  function Closings(s: string): nat { TagBody.Count(s, ENDS, |s|) }

  lemma {:induction false} CountInFront(a: string, b: string, pat: string, i: nat)
    requires TagLike(pat) && Seam(a, b) && i <= |a|
    ensures TagBody.Count(a + b, pat, i) == TagBody.Count(a, pat, i)
  {
    hide At;
    if i > 0 {
      CountInFront(a, b, pat, i - 1);
      AtSeam(a, b, pat, i - 1);
    }
  }

  lemma {:induction false} CountSeam(a: string, b: string, pat: string, k: nat)
    requires TagLike(pat) && Seam(a, b) && k <= |b|
    ensures TagBody.Count(a + b, pat, |a| + k) == TagBody.Count(a, pat, |a|) + TagBody.Count(b, pat, k)
  {
    hide At;
    if k == 0 {
      CountInFront(a, b, pat, |a|);
    } else {
      CountSeam(a, b, pat, k - 1);
      AtShift(a, b, k - 1, pat);
    }
  }

  lemma {:induction false} CountLacking(s: string, pat: string, i: nat)
    requires !Contains(s, pat)
    ensures TagBody.Count(s, pat, i) == 0
  {
    hide At;
    if i > 0 { CountLacking(s, pat, i - 1); }
  }

  lemma {:induction false} CountGrows(s: string, pat: string, i: nat, j: nat)
    requires i <= j
    ensures TagBody.Count(s, pat, i) <= TagBody.Count(s, pat, j)
    ensures i < j && At(s, i, pat) ==> TagBody.Count(s, pat, i) < TagBody.Count(s, pat, j)
  {
    hide At;
    if i < j { CountGrows(s, pat, i, j - 1); }
  }

  /** The occurrence with `n` others before it. */
  lemma {:induction false} NthOccurrence(s: string, pat: string, n: nat, i: nat) returns (p: nat)
    requires n < TagBody.Count(s, pat, i)
    ensures p < i && At(s, p, pat) && TagBody.Count(s, pat, p) == n
  {
    hide At;
    if n < TagBody.Count(s, pat, i - 1) { p := NthOccurrence(s, pat, n, i - 1); } else { p := i - 1; }
  }

  lemma {:induction false} Openings(n: nat)
    ensures var s := Repeat(CONTAINER, n); s == "" || s[|s| - 1] == '>'
    ensures !Contains(Repeat(CONTAINER, n), ENDS)
    ensures TagBody.Count(Repeat(CONTAINER, n), CALLS, |Repeat(CONTAINER, n)|) == n
  {
    hide At;
    if n == 0 {
      forall j: nat ensures !At("", j, ENDS) {}
      assert Repeat(CONTAINER, 0) == "";
    } else {
      Openings(n - 1);
      Tags();
      OneOpening();
      LacksSeam(CONTAINER, Repeat(CONTAINER, n - 1), ENDS);
      CountSeam(CONTAINER, Repeat(CONTAINER, n - 1), CALLS, |Repeat(CONTAINER, n - 1)|);
    }
  }

  lemma OneOpening()
    ensures !Contains(CONTAINER, ENDS) && TagBody.Count(CONTAINER, CALLS, |CONTAINER|) == 1
  {
    hide At;
    forall j: nat ensures !At(CONTAINER, j, ENDS) { AtChar(CONTAINER, j, ENDS, 0); AtChar(CONTAINER, j, ENDS, 1); }
    forall j: nat ensures At(CONTAINER, j, CALLS) <==> j == 0 { AtChar(CONTAINER, j, CALLS, 0); AtStart(); }
    CountOnlyFirst(CONTAINER, CALLS, |CONTAINER|);
  }

  lemma AtStart()
    ensures At(CONTAINER, 0, CALLS)
  {
    assert CONTAINER == CALLS + ">";
    AtFront(CALLS, ">");
  }

  lemma {:induction false} CountOnlyFirst(s: string, pat: string, i: nat)
    requires forall j: nat :: At(s, j, pat) <==> j == 0
    ensures TagBody.Count(s, pat, i) == if i == 0 then 0 else 1
  {
    hide At;
    if i > 0 { CountOnlyFirst(s, pat, i - 1); }
  }

  // ── One layer ─────────────────────────────────────────────────

  function InnerCalls(env: Backend, inner: string, names: seq<string>): seq<ToolCall> {
    if inner == "" then [] else Parse(env, inner, names).1
  }

  /** The closing at `x` brings a nesting depth of `d` in front of `r` back to zero. */
  ghost predicate Closes(r: string, d: nat, x: nat) {
    At(r, x, ENDS) && TagBody.Count(r, ENDS, x) + 1 == d + TagBody.Count(r, CALLS, x)
  }

  ghost predicate NoneCloses(r: string, d: nat, p: nat) {
    forall x: nat | x < p :: !Closes(r, d, x)
  }

  /** The outermost of `n` openings: its body ends at the first closing in `r` that brings the depth to zero, or is all
      that follows. */
  lemma OneLayer(env: Backend, n: nat, r: string, names: seq<string>) returns (p: Option<nat>)
    requires n > 0
    ensures p.None? ==>
      && NoneCloses(r, n, |r|)
      && Scan(env, Repeat(CONTAINER, n) + r, names) == ("", InnerCalls(env, Repeat(CONTAINER, n - 1) + r, names))
    ensures p.Some? ==>
      && Closes(r, n, p.value) && NoneCloses(r, n, p.value)
      && p.value + |ENDS| <= |r|
      && Scan(env, Repeat(CONTAINER, n) + r, names) ==
           (Scan(env, r[p.value + |ENDS|..], names).0,
            InnerCalls(env, Repeat(CONTAINER, n - 1) + r[..p.value], names)
            + Scan(env, r[p.value + |ENDS|..], names).1)
  {
    hide At; hide Contains; hide Scan; hide Parse; hide NextTag; hide Repeat; hide TagBody.Body; hide Closes;
    p := BodyOfLayer(n, r);
    var after, tag := Repeat(CONTAINER, n - 1) + r, TagMatch(true, None, 0, |CONTAINER|);
    assert Repeat(CONTAINER, n) + r == CONTAINER + after by { RepeatOne(n); }
    NextTagAtContainer(after);
    assert (CONTAINER + after)[|CONTAINER|..] == after && (CONTAINER + after)[..0] == "";
    ScanContainer(env, CONTAINER + after, names, tag);
    hide NoneCloses;
    var rest := if p.Some? then r[p.value + |ENDS|..] else "";
    assert "" + Scan(env, rest, names).0 == Scan(env, rest, names).0;
    if p.None? {
      NothingInEmptyText();
      ScanEnds(env, "", names);
      assert InnerCalls(env, after, names) + [] == InnerCalls(env, after, names);
    }
  }

  lemma BodyOfLayer(n: nat, r: string) returns (p: Option<nat>)
    requires n > 0
    ensures var opens := Repeat(CONTAINER, n - 1);
      if p.None? then NoneCloses(r, n, |r|) && TagBody.Body(opens + r, "tool_calls") == (opens + r, "")
      else
        && Closes(r, n, p.value) && NoneCloses(r, n, p.value) && p.value + |ENDS| <= |r|
        && TagBody.Body(opens + r, "tool_calls") == (opens + r[..p.value], r[p.value + |ENDS|..])
  {
    hide At; hide TagBody.MatchClose; hide Repeat;
    p := CloseOfLayer(n - 1, r);
    Tags();
    if p.Some? {
      assert At(r, p.value, ENDS);
      hide Closes; hide NoneCloses;
      var opens := Repeat(CONTAINER, n - 1);
      assert (opens + r)[..|opens| + p.value] == opens + r[..p.value];
      assert (opens + r)[|opens| + p.value + |ENDS|..] == r[p.value + |ENDS|..];
    }
  }

  lemma RepeatOne(n: nat)
    requires n > 0
    ensures Repeat(CONTAINER, n) == CONTAINER + Repeat(CONTAINER, n - 1)
  {
  }

  /** Where the scan from behind an opening stops, with `m` more openings in front of `r`. */
  lemma CloseOfLayer(m: nat, r: string) returns (p: Option<nat>)
    ensures var opens := Repeat(CONTAINER, m);
            TagBody.MatchClose(opens + r, CALLS, ENDS, 0, 1)
            == if p.Some? then Some(|opens| + p.value) else None
    ensures p.Some? ==> Closes(r, m + 1, p.value) && NoneCloses(r, m + 1, p.value)
    ensures p.None? ==> NoneCloses(r, m + 1, |r|)
  {
    hide At; hide Contains; hide TagBody.MatchClose; hide Closes;
    var opens := Repeat(CONTAINER, m);
    var text := opens + r;
    Tags();
    Openings(m);
    TagBody.ScanFindsBalance(text, CALLS, ENDS, 0, 1);
    hide Repeat; hide TagBody.Balances;
    match TagBody.MatchClose(text, CALLS, ENDS, 0, 1)
    case Some(i) =>
      if i < |opens| {
        AtSeam(opens, r, ENDS, i);
        LacksAt(opens, ENDS, i);
      }
      p := Some(i - |opens|);
      BalanceBehind(r, m, i - |opens|);
      NoneBalance(r, m, i - |opens|);
    case None =>
      p := None;
      NoneBalance(r, m, |r|);
  }

  lemma NoneBalance(r: string, m: nat, p: nat)
    requires var opens := Repeat(CONTAINER, m);
             forall j: nat | j < |opens| + p :: !TagBody.Balances(opens + r, CALLS, ENDS, j)
    ensures NoneCloses(r, m + 1, p)
  {
    hide Repeat; hide TagBody.Balances; hide Closes;
    var d := m + 1;
    forall x: nat | x < p ensures !Closes(r, d, x) {
      BalanceBehind(r, m, x);
    }
  }

  lemma BalanceBehind(r: string, m: nat, x: nat)
    ensures var opens := Repeat(CONTAINER, m);
            TagBody.Balances(opens + r, CALLS, ENDS, |opens| + x) <==> Closes(r, m + 1, x)
  {
    hide At; hide Contains; hide Repeat; hide TagBody.Count;
    var opens := Repeat(CONTAINER, m);
    AtShift(opens, r, x, ENDS);
    if x <= |r| { CountsBehind(opens, r, m, x); }
  }

  lemma LacksAt(s: string, pat: string, i: nat)
    requires !Contains(s, pat)
    ensures !At(s, i, pat)
  {
  }

  /** The counts at position `q` of what stands behind `m` openings. */
  lemma CountsBehind(opens: string, r: string, m: nat, q: nat)
    requires opens == Repeat(CONTAINER, m) && q <= |r|
    ensures TagBody.Count(opens + r, ENDS, |opens| + q) == TagBody.Count(r, ENDS, q)
    ensures TagBody.Count(opens + r, CALLS, |opens| + q) == m + TagBody.Count(r, CALLS, q)
  {
    hide At; hide Contains; hide TagBody.Count;
    Tags();
    Openings(m);
    CountSeam(opens, r, ENDS, q);
    CountSeam(opens, r, CALLS, q);
    CountLacking(opens, ENDS, |opens|);
  }

  lemma NextTagAtContainer(after: string)
    ensures NextTag(CONTAINER + after, 0) == Some(TagMatch(true, None, 0, |CONTAINER|))
  {
    hide At; hide ExtractAttr;
    var text := CONTAINER + after;
    AtFront(CONTAINER, after);
    AtFront(CALLS, ">" + after);
    assert text == CALLS + (">" + after);
    forall j: nat | j < |CONTAINER| ensures At(text, j, ">") <==> j == |CONTAINER| - 1 { AtOne(text, j, '>'); }
    assert At(text, |CONTAINER| - 1, ">");
    assert FindFrom(text, ">", 0) == Some(|CONTAINER| - 1);
    assert text[0..|CONTAINER|] == CONTAINER;
    var pattern := "name" + "=\"";
    forall j: nat ensures !At(CONTAINER, j, pattern) { AtChar(CONTAINER, j, pattern, 0); }
    NoAttr(CONTAINER);
  }

  /** One container in a text: the text before it and what is read behind it stay, its own text is dropped, and the
      calls of its body come in its place. */
  lemma ContainerLeavesNoText(env: Backend, gap: string, inner: string, rest: string, names: seq<string>)
    requires !Contains(gap, CALL) && !Contains(inner, CALLS) && !Contains(inner, ENDS)
    ensures var text := gap + (CONTAINER + (inner + (ENDS + rest)));
            && Scan(env, text, names).0 == gap + Scan(env, rest, names).0
            && Scan(env, text, names).1
               == (if inner == "" then [] else Parse(env, inner, names).1) + Scan(env, rest, names).1
  {
    hide At; hide NextTag; hide Scan; hide Parse; hide TagBody.Body;
    Tags();
    var after := inner + (ENDS + rest);
    var text := gap + (CONTAINER + after);
    NextTagBehindGap(gap, CONTAINER + after);
    NextTagAtContainer(after);
    BodyOfContainer(inner, rest);
    assert text[..|gap|] == gap && text[|gap| + |CONTAINER|..] == after;
    ScanContainer(env, text, names, TagMatch(true, None, |gap|, |gap| + |CONTAINER|));
  }

  lemma BodyOfContainer(inner: string, rest: string)
    requires !Contains(inner, CALLS) && !Contains(inner, ENDS)
    ensures TagBody.Body(inner + (ENDS + rest), "tool_calls") == (inner, rest)
  {
    hide At;
    Tags();
    var text := inner + (ENDS + rest);
    NoneInFront(inner, ENDS + rest, CALLS);
    NoneInFront(inner, ENDS + rest, ENDS);
    TagBody.SkipPlain(text, CALLS, ENDS, 0, |inner|, 1);
    AtFront(ENDS, rest);
    AtShift(inner, ENDS + rest, 0, ENDS);
    assert text[..|inner|] == inner && text[|inner| + |ENDS|..] == rest;
  }

  lemma NoAttr(tag: string)
    requires !Contains(tag, "name" + "=\"")
    ensures ExtractAttr(tag, "name") == None
  {
    hide At;
  }

  // ── Slices of printed blocks ──────────────────────────────────

  function BlockText(b: Block): string { b.gap + OpenTag(b.name) + b.body + END }

  lemma PrintCons(blocks: seq<Block>, tail: string)
    requires blocks != []
    ensures Print(blocks, tail) == BlockText(blocks[0]) + Print(blocks[1..], tail)
    ensures |BlockText(blocks[0])| == BodyStart(blocks[0]) + |blocks[0].body| + |END|
    ensures BlockText(blocks[0])[|BlockText(blocks[0])| - 1] == '>'
  {
    hide OpenTag;
  }

  /** A closing in a block stands wholly in its gap or in its body. */
  lemma CloseInBlock(b: Block, p: nat)
    requires Good([b]) && At(BlockText(b), p, ENDS)
    ensures var q := |b.gap| + |OpenTag(b.name)|;
            || (p + |ENDS| <= |b.gap| && At(b.gap, p, ENDS))
            || (q <= p && p + |ENDS| <= q + |b.body| && At(b.body, p - q, ENDS))
  {
    hide At; hide OpenTag; hide Contains;
    assert b in [b];
    var tag := OpenTag(b.name);
    var front := b.gap + tag;
    OpenTagFront(b.name);
    OpenTagChars(b.name, |tag| - 1);
    Tags();
    OpenTagLacksEnds(b.name);
    assert BlockText(b) == front + (b.body + END);
    if p < |front| {
      AtSeam(front, b.body + END, ENDS, p);
      if p < |b.gap| {
        AtSeam(b.gap, tag, ENDS, p);
      } else {
        AtShift(b.gap, tag, p - |b.gap|, ENDS);
        LacksAt(tag, ENDS, p - |b.gap|);
      }
    } else {
      AtShift(front, b.body + END, p - |front|, ENDS);
      AtSeam(b.body, END, ENDS, p - |front|);
    }
  }

  lemma OpenTagLacksEnds(name: Option<string>)
    requires GoodName(name)
    ensures !Contains(OpenTag(name), ENDS)
  {
    hide At;
    var tag := OpenTag(name);
    OpenTagFront(name);
    OpenTagChars(name, |tag| - 2);
    forall j: nat ensures !At(tag, j, ENDS) {
      if At(tag, j, ENDS) {
        OpenTagChars(name, j + 12);
        AtChar(tag, j, ENDS, 12); AtChar(tag, j, ENDS, 11);
      }
    }
  }

  /** Calls of the blocks that begin before position `a` is out of their gap and end by position `p`. */
  function Between(env: Backend, blocks: seq<Block>, a: nat, p: nat): seq<ToolCall> {
    if blocks == [] || p < |BlockText(blocks[0])| then []
    else
      var b, len := blocks[0], |BlockText(blocks[0])|;
      (if a <= |b.gap| then BlockCalls(env, b.name, b.body) else [])
      + Between(env, blocks[1..], if a < len then 0 else a - len, p - len)
  }

  /** A slice begins at the front or behind a closing, and stops at a closing or at the end. */
  predicate Cut(r: string, a: nat, p: nat) {
    && a <= p <= |r|
    && (a == 0 || (a >= |ENDS| && At(r, a - |ENDS|, ENDS)))
    && (p == |r| || At(r, p, ENDS))
  }

  /** Calls are found in a slice exactly where their blocks lie wholly in it. */
  lemma {:induction false} ScanSlice(env: Backend, blocks: seq<Block>, tail: string, a: nat, p: nat, names: seq<string>)
    requires Good(blocks) && !Contains(tail, CALL) && Cut(Print(blocks, tail), a, p)
    ensures Scan(env, Print(blocks, tail)[a..p], names).1 == Between(env, blocks, a, p)
    decreases |blocks|
  {
    hide At; hide Contains; hide Scan; hide BlockCalls; hide OpenTag; hide Print; hide BlockText; hide Good;
    var r := Print(blocks, tail);
    if blocks == [] {
      PrintNone(tail);
      LacksSlice(tail, a, p, CALL);
      ScanPlain(env, r[a..p], names);
    } else {
      var b, text, rest := blocks[0], BlockText(blocks[0]), Print(blocks[1..], tail);
      PrintCons(blocks, tail);
      GoodParts(blocks);
      if a > 0 { CloseBefore(b, rest, a - |ENDS|); }
      if p < |text| {
        CloseBefore(b, rest, p);
        SliceInBlock(env, b, rest, a, p, names);
      } else {
        if p < |r| { AtShift(text, rest, p - |text|, ENDS); }
        var a' := if a < |text| then 0 else a - |text|;
        ScanSlice(env, blocks[1..], tail, a', p - |text|, names);
        if a < |text| {
          SliceOfBlock(env, b, rest, a, p, names);
        } else {
          SliceRight(text, rest, a, p);
          assert Between(env, blocks, a, p) == [] + Between(env, blocks[1..], a', p - |text|);
        }
      }
    }
  }

  lemma PrintNone(tail: string)
    ensures Print([], tail) == tail
  {
  }

  /** Where a position behind a gap and an opening tag begins. */
  function BodyStart(b: Block): nat { |b.gap| + |OpenTag(b.name)| }

  /** A closing at `p` in front of some text stands in the gap or the body of the block, or behind the block. */
  lemma CloseBefore(b: Block, rest: string, p: nat)
    requires Good([b]) && At(BlockText(b) + rest, p, ENDS)
    ensures |BlockText(b)| == BodyStart(b) + |b.body| + |END|
    ensures
      || (p + |ENDS| <= |b.gap| && At(b.gap, p, ENDS))
      || (BodyStart(b) <= p && p + |ENDS| <= BodyStart(b) + |b.body| && At(b.body, p - BodyStart(b), ENDS))
      || (|BlockText(b)| <= p && At(rest, p - |BlockText(b)|, ENDS))
  {
    hide At; hide OpenTag;
    Tags();
    PrintCons([b], "");
    if p < |BlockText(b)| {
      AtSeam(BlockText(b), rest, ENDS, p);
      CloseInBlock(b, p);
    } else {
      AtShift(BlockText(b), rest, p - |BlockText(b)|, ENDS);
    }
  }

  lemma SliceLeft(x: string, y: string, a: nat, p: nat)
    requires a <= p <= |x|
    ensures (x + y)[a..p] == x[a..p]
  {
  }

  lemma SliceRight(x: string, y: string, a: nat, p: nat)
    requires |x| <= a <= p <= |x + y|
    ensures (x + y)[a..p] == y[a - |x|..p - |x|]
  {
  }

  lemma SliceAcross(x: string, y: string, a: nat, p: nat)
    requires a <= |x| <= p <= |x + y|
    ensures (x + y)[a..p] == x[a..] + y[..p - |x|]
  {
  }

  /** A slice that stops within a block: plain text, or a call that is never closed. */
  lemma SliceInBlock(env: Backend, b: Block, rest: string, a: nat, p: nat, names: seq<string>)
    requires Good([b]) && a <= p <= BodyStart(b) + |b.body|
    requires a <= |b.gap| || BodyStart(b) <= a
    requires p <= |b.gap| || BodyStart(b) <= p
    ensures p <= |BlockText(b)| && Scan(env, (BlockText(b) + rest)[a..p], names).1 == []
  {
    hide At; hide Contains; hide Scan; hide OpenTag;
    assert b in [b];
    var tag := OpenTag(b.name);
    var behind := b.body + END + rest;
    assert BlockText(b) + rest == b.gap + (tag + behind);
    if p <= |b.gap| {
      SliceLeft(b.gap, tag + behind, a, p);
      LacksSlice(b.gap, a, p, CALL);
      ScanPlain(env, b.gap[a..p], names);
    } else {
      var q := p - BodyStart(b);
      SliceLeft(b.body, END + rest, 0, q);
      assert behind == b.body + (END + rest);
      LacksSlice(b.body, 0, q, CALL); LacksSlice(b.body, 0, q, END);
      if a <= |b.gap| {
        SliceAcross(b.gap, tag + behind, a, p);
        SliceAcross(tag, behind, 0, p - |b.gap|);
        LacksSlice(b.gap, a, |b.gap|, CALL);
        assert b.gap[a..] == b.gap[a..|b.gap|] && behind[..q] == b.body[..q] && b.body[0..q] == b.body[..q];
        assert tag[0..] == tag;
        ScanUnclosed(env, b.gap[a..], b.name, b.body[..q], names);
      } else {
        SliceRight(b.gap, tag + behind, a, p);
        SliceRight(tag, behind, a - |b.gap|, p - |b.gap|);
        SliceLeft(b.body, END + rest, a - BodyStart(b), q);
        LacksSlice(b.body, a - BodyStart(b), q, CALL);
        ScanPlain(env, b.body[a - BodyStart(b)..q], names);
      }
    }
  }

  lemma ScanUnclosed(env: Backend, gap: string, name: Option<string>, part: string, names: seq<string>)
    requires GoodName(name) && !Contains(gap, CALL) && !Contains(part, END)
    ensures Scan(env, gap + (OpenTag(name) + part), names).1 == []
  {
    hide At; hide Contains; hide NextTag; hide OpenTag; hide Scan; hide TagBody.MatchClose;
    var tag := OpenTag(name);
    var text := gap + (tag + part);
    OpenTagFront(name);
    NextTagBehindGap(gap, tag + part);
    NextTagAtBlock(name, part);
    ScanCall(env, text, names, TagMatch(false, name, |gap|, |gap| + |tag|));
    assert text[|gap| + |tag|..] == part;
    AngledTags();
    match TagBody.MatchClose(part, CALL, END, 0, 1)
    case Some(i) => LacksAt(part, END, i);
    case None =>
  }

  /** A slice that reaches beyond the block it begins in. */
  lemma SliceOfBlock(env: Backend, b: Block, rest: string, a: nat, p: nat, names: seq<string>)
    requires Good([b]) && a <= |BlockText(b)| <= p <= |BlockText(b) + rest|
    requires a <= |b.gap| || BodyStart(b) <= a <= BodyStart(b) + |b.body|
    ensures Scan(env, (BlockText(b) + rest)[a..p], names).1
         == (if a <= |b.gap| then BlockCalls(env, b.name, b.body) else [])
            + Scan(env, rest[..p - |BlockText(b)|], names).1
  {
    hide At; hide Contains; hide Scan; hide OpenTag; hide BlockCalls;
    assert b in [b];
    var tag, more := OpenTag(b.name), rest[..p - |BlockText(b)|];
    SliceAcross(BlockText(b), rest, a, p);
    if a <= |b.gap| {
      LacksSlice(b.gap, a, |b.gap|, CALL);
      assert b.gap[a..] == b.gap[a..|b.gap|];
      var c := Block(b.gap[a..], b.name, b.body);
      assert Good([c]);
      ScanBlock(env, c, more, names);
      assert BlockText(b)[a..] + more == c.gap + (tag + (b.body + (END + more)));
    } else {
      var q := a - BodyStart(b);
      LacksSlice(b.body, q, |b.body|, CALL);
      assert b.body[q..] == b.body[q..|b.body|];
      Tags();
      EndLacksCall();
      LacksSeam(b.body[q..], END, CALL);
      assert BlockText(b)[a..] == b.body[q..] + END;
      ScanBehindText(env, b.body[q..] + END, more, names);
    }
  }

  lemma EndLacksCall()
    ensures !Contains(END, CALL)
  {
    hide At;
    forall j: nat ensures !At(END, j, CALL) { AtChar(END, j, CALL, 0); AtChar(END, j, CALL, 1); }
  }

  /** Text without calls that ends with '>' adds no call to what follows. */
  lemma ScanBehindText(env: Backend, x: string, y: string, names: seq<string>)
    requires !Contains(x, CALL) && (x == "" || x[|x| - 1] == '>')
    ensures Scan(env, x + y, names).1 == Scan(env, y, names).1
  {
    hide At; hide Contains; hide NextTag; hide ValidTagAt; hide Scan; hide Parse; hide BlockCalls;
    Tags();
    forall k: nat | k < |x| ensures !ValidTagAt(x + y, k) {
      Extensions(x + y, k);
      AtSeam(x, y, CALL, k);
      LacksAt(x, CALL, k);
    }
    SkipToPrefix(x + y, 0, |x|);
    NextTagInSuffix(x + y, |x|, 0);
    assert (x + y)[|x|..] == y;
    match NextTag(y, 0)
    case None =>
      ScanEnds(env, y, names);
      ScanEnds(env, x + y, names);
    case Some(t) =>
      var t' := TagMatch(t.container, t.name, t.start + |x|, t.openEnd + |x|);
      assert (x + y)[t'.openEnd..] == y[t.openEnd..];
      if t.container {
        ScanContainer(env, y, names, t);
        ScanContainer(env, x + y, names, t');
      } else {
        ScanCall(env, y, names, t);
        ScanCall(env, x + y, names, t');
      }
  }

  // ── Any number of layers ──────────────────────────────────────

  /** The fallbacks find nothing in a text in which the parser itself finds nothing. */
  predicate Quiet(env: Backend, t: string, names: seq<string>) {
    Scan(env, t, names).1 == [] ==> env.markdownCalls(t) == [] && (names != [] ==> env.rawCalls(t, names).1 == [])
  }

  /** So it is for all pieces that fewer than `n` openings and the closings in `r` can carve out. */
  ghost predicate PiecesQuiet(env: Backend, n: nat, r: string, names: seq<string>) {
    forall m: nat, p: nat :: m < n && Cut(r, 0, p) ==> Quiet(env, Repeat(CONTAINER, m) + r[..p], names)
  }

  lemma ParseQuiet(env: Backend, t: string, names: seq<string>)
    requires Quiet(env, t, names)
    ensures Parse(env, t, names).1 == Scan(env, t, names).1 == InnerCalls(env, t, names)
  {
    hide Scan;
    if t == "" {
      NothingInEmptyText();
      ScanEnds(env, "", names);
    }
  }

  lemma CutInFront(r: string, q: nat, p: nat)
    requires Cut(r, 0, p) && q <= p && At(r[..p], q, ENDS)
    ensures Cut(r, 0, q) && Cut(r, q + |ENDS|, p)
    ensures r[..p][..q] == r[..q] && r[..p][q + |ENDS|..] == r[q + |ENDS|..p]
  {
    assert r == r[..p] + r[p..];
    AtInFront(r[..p], r[p..], q, ENDS);
  }

  /** No body holds a closing: every block between two cuts is found, whatever layers are in front. */
  lemma {:induction false} LayeredSlice(env: Backend, m: nat, blocks: seq<Block>, tail: string, p: nat,
                                        names: seq<string>)
    requires Good(blocks) && !Contains(tail, CALL) && NoCloseInBodies(blocks)
    requires PiecesQuiet(env, m, Print(blocks, tail), names) && Cut(Print(blocks, tail), 0, p)
    ensures Scan(env, Repeat(CONTAINER, m) + Print(blocks, tail)[..p], names).1 == Between(env, blocks, 0, p)
    decreases m
  {
    hide At; hide Contains; hide Scan; hide Print; hide Good; hide Between; hide NoCloseInBodies; hide Quiet;
    var r := Print(blocks, tail);
    if m == 0 {
      ScanSlice(env, blocks, tail, 0, p, names);
      assert Repeat(CONTAINER, 0) + r[..p] == r[0..p];
    } else {
      var q := OneLayer(env, m, r[..p], names);
      if q.Some? { CutInFront(r, q.value, p); }
      var stop := if q.Some? then q.value else p;
      LayeredSlice(env, m - 1, blocks, tail, stop, names);
      ParseQuiet(env, Repeat(CONTAINER, m - 1) + r[..stop], names);
      if q.Some? {
        ScanSlice(env, blocks, tail, q.value + |ENDS|, p, names);
        BetweenSplits(env, blocks, tail, q.value, p);
      }
    }
  }

  lemma {:induction false} BetweenSplits(env: Backend, blocks: seq<Block>, tail: string, q: nat, p: nat)
    requires Good(blocks) && NoCloseInBodies(blocks)
    requires q + |ENDS| <= p && At(Print(blocks, tail), q, ENDS)
    ensures Between(env, blocks, 0, q) + Between(env, blocks, q + |ENDS|, p) == Between(env, blocks, 0, p)
    decreases |blocks|
  {
    hide At; hide Contains; hide BlockCalls; hide OpenTag; hide Print; hide BlockText; hide Good;
    if blocks != [] {
      var b, len := blocks[0], |BlockText(blocks[0])|;
      PrintCons(blocks, tail);
      GoodParts(blocks);
      CloseBefore(b, Print(blocks[1..], tail), q);
      assert b in blocks;
      if q >= len {
        BetweenSplits(env, blocks[1..], tail, q - len, p - len);
      } else if BodyStart(b) <= q {
        LacksAt(b.body, ENDS, q - BodyStart(b));
      }
    }
  }

  lemma {:induction false} BetweenAll(env: Backend, blocks: seq<Block>, tail: string, p: nat)
    requires |Print(blocks, tail)| - |tail| <= p
    ensures Between(env, blocks, 0, p) == Calls(env, blocks)
    decreases |blocks|
  {
    hide BlockCalls; hide OpenTag; hide Print; hide BlockText;
    if blocks != [] {
      PrintCons(blocks, tail);
      PrintAtLeast(blocks[1..], tail);
      BetweenAll(env, blocks[1..], tail, p - |BlockText(blocks[0])|);
    }
  }

  lemma {:induction false} PrintAtLeast(blocks: seq<Block>, tail: string)
    ensures |Print(blocks, tail)| >= |tail|
  {
    hide OpenTag;
    if blocks != [] { PrintAtLeast(blocks[1..], tail); }
  }

  lemma {:induction false} ClosingsLackCall(n: nat)
    ensures !Contains(Repeat(ENDS, n), CALL) && (n > 0 ==> Repeat(ENDS, n) != "" && Repeat(ENDS, n)[0] == '<')
    ensures Closings(Repeat(ENDS, n)) == n
  {
    hide At;
    if n == 0 {
      forall j: nat ensures !At("", j, CALL) {}
      assert Repeat(ENDS, 0) == "";
    } else {
      ClosingsLackCall(n - 1);
      Tags();
      OneClosing();
      LacksSeam(ENDS, Repeat(ENDS, n - 1), CALL);
      CountSeam(ENDS, Repeat(ENDS, n - 1), ENDS, |Repeat(ENDS, n - 1)|);
    }
  }

  lemma OneClosing()
    ensures !Contains(ENDS, CALL) && Closings(ENDS) == 1
  {
    hide At;
    forall j: nat ensures !At(ENDS, j, CALL) { AtChar(ENDS, j, CALL, 0); AtChar(ENDS, j, CALL, 1); }
    forall j: nat ensures At(ENDS, j, ENDS) <==> j == 0 { AtChar(ENDS, j, ENDS, 0); AtWhole(ENDS); }
    CountOnlyFirst(ENDS, ENDS, |ENDS|);
  }

  lemma TailLacksCall(tail: string, closes: nat)
    requires !Contains(tail, CALL)
    ensures !Contains(tail + Repeat(ENDS, closes), CALL)
  {
    hide At;
    Tags();
    ClosingsLackCall(closes);
    LacksSeam(tail, Repeat(ENDS, closes), CALL);
  }

  /** Container tags are transparent: behind any number of openings and in front of any number of closings, with any
      closings in the gaps and the tail, the blocks yield the same calls; where no closing is astray and as many are
      opened as closed, no text is left over. */
  lemma LayersAreTransparent(env: Backend, opens: nat, blocks: seq<Block>, tail: string, closes: nat,
                             names: seq<string>)
    requires Good(blocks) && !Contains(tail, CALL) && NoCloseInBodies(blocks) && Calls(env, blocks) != []
    requires PiecesQuiet(env, opens, Print(blocks, tail + Repeat(ENDS, closes)), names)
    ensures Parse(env, Layered(opens, blocks, tail, closes), names).1 == Calls(env, blocks)
    ensures NoStrayClose(blocks, tail) && opens == closes > 0 ==>
              Parse(env, Layered(opens, blocks, tail, closes), names).0 == ""
  {
    hide At; hide Contains; hide Scan; hide Print; hide Good; hide Repeat; hide NoStrayClose; hide Cut; hide Quiet;
    var tail', r := tail + Repeat(ENDS, closes), Print(blocks, tail + Repeat(ENDS, closes));
    TailLacksCall(tail, closes);
    assert Cut(r, 0, |r|) by { WholeIsCut(r); }
    LayeredSlice(env, opens, blocks, tail', |r|, names);
    BetweenAll(env, blocks, tail', |r|);
    assert r[..|r|] == r;
    if NoStrayClose(blocks, tail) && opens == closes > 0 { NoTextLeft(env, opens, blocks, tail, names); }
  }

  lemma WholeIsCut(r: string)
    ensures Cut(r, 0, |r|)
  {
  }

  /** Without closings astray nothing is asked of the fallbacks: every piece holds all the calls. */
  lemma {:induction false} StrayFreeIsQuiet(env: Backend, opens: nat, blocks: seq<Block>, tail: string, closes: nat,
                                            names: seq<string>)
    requires Good(blocks) && !Contains(tail, CALL) && NoStrayClose(blocks, tail) && Calls(env, blocks) != []
    ensures PiecesQuiet(env, opens, Print(blocks, tail + Repeat(ENDS, closes)), names)
    decreases opens
  {
    hide At; hide Contains; hide Scan; hide Print; hide Good; hide Repeat; hide Quiet;
    var r := Print(blocks, tail + Repeat(ENDS, closes));
    if opens > 0 {
      StrayFreeIsQuiet(env, opens - 1, blocks, tail, closes, names);
      TailLacksCall(tail, closes);
      forall m: nat, p: nat | m < opens && Cut(r, 0, p) ensures Quiet(env, Repeat(CONTAINER, m) + r[..p], names) {
        if m == opens - 1 {
          LayeredSlice(env, m, blocks, tail + Repeat(ENDS, closes), p, names);
          if p < |r| { CloseBehindAll(blocks, tail, closes, p); }
          BetweenAll(env, blocks, tail + Repeat(ENDS, closes), p);
          FoundIsQuiet(env, Repeat(CONTAINER, m) + r[..p], names);
        }
      }
    }
  }

  lemma FoundIsQuiet(env: Backend, t: string, names: seq<string>)
    requires Scan(env, t, names).1 != []
    ensures Quiet(env, t, names)
  {
  }

  /** Without closings astray, every closing stands behind the tail. */
  lemma CloseBehindAll(blocks: seq<Block>, tail: string, closes: nat, p: nat)
    requires Good(blocks) && NoStrayClose(blocks, tail)
    requires At(Print(blocks, tail + Repeat(ENDS, closes)), p, ENDS)
    ensures p >= |Print(blocks, tail)|
    ensures Print(blocks, tail + Repeat(ENDS, closes)) == Print(blocks, tail) + Repeat(ENDS, closes)
  {
    hide At; hide Contains; hide Print; hide Good; hide Repeat; hide NoStrayClose;
    var x := Print(blocks, tail);
    PrintWithTail(blocks, tail, Repeat(ENDS, closes));
    ClosingsLackCall(closes);
    Tags();
    if p < |x| {
      PrintLacksEnds(blocks, tail);
      assert Seam(x, Repeat(ENDS, closes)) by { NoRepeat(closes); }
      AtSeam(x, Repeat(ENDS, closes), ENDS, p);
      LacksAt(x, ENDS, p);
    }
  }

  lemma NoRepeat(n: nat)
    ensures n == 0 ==> Repeat(ENDS, n) == ""
  {
  }

  lemma {:induction false} PrintWithTail(blocks: seq<Block>, tail: string, more: string)
    ensures Print(blocks, tail) + more == Print(blocks, tail + more)
  {
    hide OpenTag;
    if blocks != [] {
      PrintWithTail(blocks[1..], tail, more);
      var b, rest := blocks[0], Print(blocks[1..], tail);
      assert Print(blocks, tail) + more == b.gap + (OpenTag(b.name) + (b.body + (END + (rest + more))));
    }
  }

  lemma {:induction false} PrintLacksEnds(blocks: seq<Block>, tail: string)
    requires Good(blocks) && NoStrayClose(blocks, tail)
    ensures !Contains(Print(blocks, tail), ENDS)
  {
    hide At; hide OpenTag; hide Contains; hide BlockText;
    if blocks != [] {
      var b := blocks[0];
      PrintLacksEnds(blocks[1..], tail);
      PrintCons(blocks, tail);
      Tags();
      BlockLacksEnds(b);
      LacksSeam(BlockText(b), Print(blocks[1..], tail), ENDS);
    }
  }

  lemma BlockLacksEnds(b: Block)
    requires Good([b]) && !Contains(b.gap, ENDS) && !Contains(b.body, ENDS)
    ensures !Contains(BlockText(b), ENDS)
  {
    hide At;
    forall p: nat ensures !At(BlockText(b), p, ENDS) {
      if At(BlockText(b), p, ENDS) { CloseInBlock(b, p); }
    }
  }

  /** The outermost closing is the last one. */
  lemma NoTextLeft(env: Backend, n: nat, blocks: seq<Block>, tail: string, names: seq<string>)
    requires Good(blocks) && NoStrayClose(blocks, tail) && n > 0
    ensures Scan(env, Layered(n, blocks, tail, n), names).0 == ""
  {
    hide At; hide Contains; hide Scan; hide Print; hide Good; hide Repeat; hide NoStrayClose;
    var x, ends, r := Print(blocks, tail), Repeat(ENDS, n), Print(blocks, tail + Repeat(ENDS, n));
    var p := OneLayer(env, n, r, names);
    if p.Some? {
      CloseBehindAll(blocks, tail, n, p.value);
      assert TagBody.Count(r, ENDS, p.value) + 1 >= n;
      Tags();
      ClosingsLackCall(n);
      PrintLacksEnds(blocks, tail);
      CountLacking(x, ENDS, |x|);
      CountSeam(x, ends, ENDS, |ends|);
      EndsClosed(x, n);
      LastClosing(r, n, p.value);
      NothingInEmptyText();
      ScanEnds(env, "", names);
    }
  }

  lemma EndsClosed(x: string, n: nat)
    requires n > 0
    ensures var r := x + Repeat(ENDS, n); |r| >= |ENDS| && At(r, |r| - |ENDS|, ENDS)
  {
    hide At;
    LastRepeat(n);
    var front := x + Repeat(ENDS, n - 1);
    assert x + Repeat(ENDS, n) == front + ENDS;
    AtWhole(ENDS);
    AtShift(front, ENDS, 0, ENDS);
  }

  lemma {:induction false} LastRepeat(n: nat)
    requires n > 0
    ensures Repeat(ENDS, n) == Repeat(ENDS, n - 1) + ENDS
  {
    if n > 1 { LastRepeat(n - 1); }
  }

  /** A text of `n` closings that ends with one: the closing with `n - 1` before it is at the end. */
  lemma LastClosing(r: string, n: nat, p: nat)
    requires Closings(r) == n > 0 && At(r, p, ENDS) && TagBody.Count(r, ENDS, p) >= n - 1
    requires |r| >= |ENDS| && At(r, |r| - |ENDS|, ENDS)
    ensures r[p + |ENDS|..] == ""
  {
    hide At;
    var q := |r| - |ENDS|;
    CountGrows(r, ENDS, q, |r|);
    if p < q { CountGrows(r, ENDS, p, q); }
  }

  // ── Closings in bodies ────────────────────────────────────────

  /** Container openings that the name in the block's own tag looks like to the scanner. */
  function Opens(b: Block): nat { TagBody.Count(OpenTag(b.name), CALLS, |OpenTag(b.name)|) }

  /** Of `m` layers still open and `e` openings within them, what `c` closings leave. */
  function AfterClosings(m: nat, e: nat, c: nat): (nat, nat) {
    if c <= e then (m, e - c) else (if c - e < m then m - (c - e) else 0, 0)
  }

  /** A block is lost if a layer is closed in its body. */
  predicate Lost(b: Block, m: nat, e: nat) {
    var (m1, e1) := AfterClosings(m, e, Closings(b.gap));
    m1 > 0 && Closings(b.body) > e1 + Opens(b)
  }

  function Later(b: Block, m: nat, e: nat): (nat, nat) {
    var (m1, e1) := AfterClosings(m, e, Closings(b.gap));
    AfterClosings(m1, e1 + Opens(b), Closings(b.body))
  }

  /** The calls that are left over. */
  function Kept(env: Backend, blocks: seq<Block>, m: nat, e: nat): seq<ToolCall> {
    if blocks == [] then []
    else
      var b := blocks[0];
      (if Lost(b, m, e) then [] else BlockCalls(env, b.name, b.body))
      + Kept(env, blocks[1..], Later(b, m, e).0, Later(b, m, e).1)
  }

  /** The same for the blocks that end by position `p`. */
  function KeptBy(env: Backend, blocks: seq<Block>, m: nat, e: nat, p: nat): seq<ToolCall> {
    if blocks == [] || p < |BlockText(blocks[0])| then []
    else
      var b := blocks[0];
      (if Lost(b, m, e) then [] else BlockCalls(env, b.name, b.body))
      + KeptBy(env, blocks[1..], Later(b, m, e).0, Later(b, m, e).1, p - |BlockText(b)|)
  }

  // ── Counting in a block ───────────────────────────────────────

  lemma CountInGap(b: Block, pat: string, q: nat)
    requires Good([b]) && q <= |b.gap| && TagLike(pat)
    ensures TagBody.Count(BlockText(b), pat, q) == TagBody.Count(b.gap, pat, q)
  {
    hide OpenTag; hide TagBody.Count;
    OpenTagFront(b.name);
    assert BlockText(b) == b.gap + (OpenTag(b.name) + (b.body + END));
    CountInFront(b.gap, OpenTag(b.name) + (b.body + END), pat, q);
  }

  lemma CountInBody(b: Block, pat: string, q: nat)
    requires Good([b]) && q <= |b.body| && TagLike(pat) && !Contains(END, pat)
    ensures TagBody.Count(BlockText(b), pat, BodyStart(b) + q)
         == TagBody.Count(b.gap, pat, |b.gap|) + TagBody.Count(OpenTag(b.name), pat, |OpenTag(b.name)|)
            + TagBody.Count(b.body, pat, q)
    ensures var text := BlockText(b);
            q == |b.body| ==> TagBody.Count(text, pat, |text|) == TagBody.Count(text, pat, BodyStart(b) + q)
  {
    hide OpenTag; hide TagBody.Count; hide Contains;
    assert b in [b];
    var tag, body := OpenTag(b.name), b.body + END;
    OpenTagFront(b.name);
    OpenTagChars(b.name, |tag| - 1);
    CountLacking(END, pat, |END|);
    assert BlockText(b) == b.gap + (tag + body);
    CountSeam(b.gap, tag + body, pat, |tag| + q);
    CountSeam(tag, body, pat, q);
    CountInFront(b.body, END, pat, q);
    if q == |b.body| {
      CountSeam(b.gap, tag + body, pat, |tag + body|);
      CountSeam(tag, body, pat, |body|);
      CountSeam(b.body, END, pat, |END|);
    }
  }

  lemma EndLacksEnds()
    ensures !Contains(END, ENDS)
  {
  }

  lemma LongerLacks(s: string)
    requires !Contains(s, CALL)
    ensures !Contains(s, CALLS)
  {
    hide At;
    assert CALLS == CALL + "s";
    forall j: nat ensures !At(s, j, CALLS) { AtConcat(s, j, CALL, "s"); }
  }

  /** The counts at a closing, by where it stands. */
  lemma CountsAtClose(b: Block, rest: string, x: nat)
    requires Good([b]) && At(BlockText(b) + rest, x, ENDS)
    ensures var r := BlockText(b) + rest;
      var closings, openings := TagBody.Count(r, ENDS, x), TagBody.Count(r, CALLS, x);
      && (x + |ENDS| <= |b.gap| ==> closings == TagBody.Count(b.gap, ENDS, x) < Closings(b.gap) && openings == 0)
      && (BodyStart(b) <= x < |BlockText(b)| ==>
            && x - BodyStart(b) < |b.body| && openings == Opens(b)
            && closings == Closings(b.gap) + TagBody.Count(b.body, ENDS, x - BodyStart(b))
                        < Closings(b.gap) + Closings(b.body))
      && (|BlockText(b)| <= x ==> CountsBehindBlock(b, rest, x - |BlockText(b)|))
  {
    hide At; hide OpenTag; hide Contains; hide TagBody.Count; hide CountsBehindBlock;
    PrintCons([b], "");
    CloseBefore(b, rest, x);
    Tags();
    BlockTotals(b);
    assert b in [b];
    if x >= |BlockText(b)| {
      BehindBlock(b, rest, x - |BlockText(b)|);
    } else {
      CountInFront(BlockText(b), rest, ENDS, x);
      CountInFront(BlockText(b), rest, CALLS, x);
      if x < |b.gap| {
        CountInGap(b, ENDS, x);
        CountInGap(b, CALLS, x);
        CountGrows(b.gap, ENDS, x, |b.gap|);
        CountLacking(b.gap, CALLS, x);
      } else {
        CountInBody(b, ENDS, x - BodyStart(b));
        CountInBody(b, CALLS, x - BodyStart(b));
        CountGrows(b.body, ENDS, x - BodyStart(b), |b.body|);
        CountLacking(b.body, CALLS, x - BodyStart(b));
      }
    }
  }

  /** At a position behind the block, the counts are those of the block and those of what follows. */
  predicate CountsBehindBlock(b: Block, rest: string, y: nat) {
    var r, len := BlockText(b) + rest, |BlockText(b)|;
    && TagBody.Count(r, ENDS, len + y) == Closings(b.gap) + Closings(b.body) + TagBody.Count(rest, ENDS, y)
    && TagBody.Count(r, CALLS, len + y) == Opens(b) + TagBody.Count(rest, CALLS, y)
  }

  lemma BehindBlock(b: Block, rest: string, y: nat)
    requires Good([b]) && y <= |rest|
    ensures CountsBehindBlock(b, rest, y)
  {
    hide At; hide OpenTag; hide Contains; hide TagBody.Count;
    PrintCons([b], "");
    Tags();
    BlockTotals(b);
    CountInBody(b, ENDS, |b.body|);
    CountInBody(b, CALLS, |b.body|);
    CountSeam(BlockText(b), rest, ENDS, y);
    CountSeam(BlockText(b), rest, CALLS, y);
  }

  lemma BlockTotals(b: Block)
    requires Good([b])
    ensures !Contains(END, ENDS) && !Contains(END, CALLS) && !Contains(b.gap, CALLS) && !Contains(b.body, CALLS)
    ensures TagBody.Count(OpenTag(b.name), ENDS, |OpenTag(b.name)|) == 0
    ensures TagBody.Count(b.gap, CALLS, |b.gap|) == 0 && TagBody.Count(b.body, CALLS, |b.body|) == 0
  {
    hide At; hide OpenTag; hide Contains; hide TagBody.Count;
    assert b in [b];
    EndLacksEnds(); EndLacksCall(); LongerLacks(END);
    LongerLacks(b.gap); LongerLacks(b.body);
    OpenTagLacksEnds(b.name);
    CountLacking(OpenTag(b.name), ENDS, |OpenTag(b.name)|);
    CountLacking(b.gap, CALLS, |b.gap|);
    CountLacking(b.body, CALLS, |b.body|);
  }

  /** The depth behind a block that does not bring it to zero. */
  function DepthBehind(b: Block, d: nat): int { d - Closings(b.gap) + Opens(b) - Closings(b.body) }

  /** If no closing in the block brings the depth to zero, it stays above. */
  lemma DepthStays(b: Block, rest: string, d: nat)
    requires Good([b]) && d > 0
    requires NoneCloses(BlockText(b) + rest, d, |BlockText(b)|)
    ensures Closings(b.gap) < d && DepthBehind(b, d) > 0
  {
    hide At; hide OpenTag; hide Contains; hide TagBody.Count;
    PrintCons([b], "");
    if Closings(b.gap) >= d {
      var x := GapCloses(b, rest, d);
    } else if DepthBehind(b, d) <= 0 {
      var x := BodyCloses(b, rest, d);
    }
  }

  lemma GapCloses(b: Block, rest: string, d: nat) returns (x: nat)
    requires Good([b]) && 0 < d <= Closings(b.gap)
    ensures Closes(BlockText(b) + rest, d, x) && x + |ENDS| <= |b.gap| < |BlockText(b)|
  {
    hide At; hide OpenTag; hide Contains; hide TagBody.Count;
    PrintCons([b], "");
    x := NthOccurrence(b.gap, ENDS, d - 1, |b.gap|);
    ClosingOfGap(b, rest, x);
    CountsAtClose(b, rest, x);
  }

  lemma BodyCloses(b: Block, rest: string, d: nat) returns (x: nat)
    requires Good([b]) && Closings(b.gap) < d && DepthBehind(b, d) <= 0
    ensures Closes(BlockText(b) + rest, d, x) && BodyStart(b) <= x < |BlockText(b)|
  {
    hide At; hide OpenTag; hide Contains; hide TagBody.Count;
    PrintCons([b], "");
    var y := NthOccurrence(b.body, ENDS, d - Closings(b.gap) + Opens(b) - 1, |b.body|);
    ClosingOfBody(b, rest, y);
    x := BodyStart(b) + y;
    CountsAtClose(b, rest, x);
  }

  lemma ClosingOfGap(b: Block, rest: string, x: nat)
    requires At(b.gap, x, ENDS)
    ensures At(BlockText(b) + rest, x, ENDS) && x + |ENDS| <= |b.gap|
  {
    hide OpenTag;
    assert BlockText(b) + rest == b.gap + (OpenTag(b.name) + b.body + END + rest);
    AtInFront(b.gap, OpenTag(b.name) + b.body + END + rest, x, ENDS);
  }

  lemma ClosingOfBody(b: Block, rest: string, x: nat)
    requires At(b.body, x, ENDS)
    ensures At(BlockText(b) + rest, BodyStart(b) + x, ENDS) && x + |ENDS| <= |b.body|
  {
    hide OpenTag; hide At;
    var front := b.gap + OpenTag(b.name);
    assert BlockText(b) + rest == front + (b.body + (END + rest));
    AtInFront(b.body, END + rest, x, ENDS);
    AtShift(front, b.body + (END + rest), x, ENDS);
  }

  /** Behind the block, the closings that bring the depth to zero are those of what follows. */
  lemma ClosesBehind(b: Block, rest: string, d: nat, y: nat)
    requires Good([b]) && DepthBehind(b, d) > 0
    ensures Closes(BlockText(b) + rest, d, |BlockText(b)| + y) <==> Closes(rest, DepthBehind(b, d), y)
  {
    hide At; hide OpenTag; hide TagBody.Count;
    AtShift(BlockText(b), rest, y, ENDS);
    if y <= |rest| { BehindBlock(b, rest, y); }
  }

  lemma NoneCloseBehind(b: Block, rest: string, d: nat, p: nat)
    requires Good([b]) && DepthBehind(b, d) > 0 && |BlockText(b)| <= p && NoneCloses(BlockText(b) + rest, d, p)
    ensures NoneCloses(rest, DepthBehind(b, d), p - |BlockText(b)|)
  {
    hide Closes; hide BlockText; hide DepthBehind;
    forall y: nat | y < p - |BlockText(b)| ensures !Closes(rest, DepthBehind(b, d), y) {
      ClosesBehind(b, rest, d, y);
    }
  }

  lemma NoneCloseEarlier(r: string, d: nat, p: nat, q: nat)
    requires NoneCloses(r, d, p) && q <= p
    ensures NoneCloses(r, d, q)
  {
  }

  // ── What the outermost layer does ─────────────────────────────

  /** While the depth stays above zero, one layer less loses the same blocks. */
  lemma LayerLess(b: Block, m: nat, e: nat)
    requires m > 0 && Closings(b.gap) < m + e && DepthBehind(b, m + e) > 0
    ensures Lost(b, m, e) <==> Lost(b, m - 1, e)
    ensures Later(b, m, e).0 > 0 && Later(b, m - 1, e) == (Later(b, m, e).0 - 1, Later(b, m, e).1)
    ensures Later(b, m, e).0 + Later(b, m, e).1 == DepthBehind(b, m + e)
  {
    hide TagBody.Count; hide OpenTag;
  }

  lemma {:induction false} KeptByNone(env: Backend, blocks: seq<Block>, e: nat, p: nat)
    ensures KeptBy(env, blocks, 0, e, p) == Between(env, blocks, 0, p)
    decreases |blocks|
  {
    hide BlockText; hide BlockCalls; hide TagBody.Count; hide OpenTag;
    if blocks != [] && p >= |BlockText(blocks[0])| {
      KeptByNone(env, blocks[1..], Later(blocks[0], 0, e).1, p - |BlockText(blocks[0])|);
    }
  }

  /** Where the outermost layer is not closed, it changes nothing. */
  lemma {:induction false} KeptByFew(env: Backend, blocks: seq<Block>, tail: string, m: nat, e: nat, p: nat)
    requires Good(blocks) && m > 0 && NoneCloses(Print(blocks, tail), m + e, p)
    ensures KeptBy(env, blocks, m, e, p) == KeptBy(env, blocks, m - 1, e, p)
    decreases |blocks|
  {
    hide BlockCalls; hide OpenTag; hide Print; hide BlockText; hide Good; hide TagBody.Count; hide NoneCloses;
    hide Lost; hide Later; hide DepthBehind;
    if blocks != [] && p >= |BlockText(blocks[0])| {
      var b, rest := blocks[0], Print(blocks[1..], tail);
      PrintCons(blocks, tail);
      GoodParts(blocks);
      NoneCloseEarlier(BlockText(b) + rest, m + e, p, |BlockText(b)|);
      DepthStays(b, rest, m + e);
      LayerLess(b, m, e);
      NoneCloseBehind(b, rest, m + e, p);
      KeptByFew(env, blocks[1..], tail, Later(b, m, e).0, Later(b, m, e).1, p - |BlockText(b)|);
    }
  }

  /** Where it is closed: up to there the other layers are left, and none behind. */
  lemma {:induction false} KeptBySplits(env: Backend, blocks: seq<Block>, tail: string, m: nat, e: nat, q: nat, p: nat)
    requires Good(blocks) && m > 0 && q + |ENDS| <= p && Closes(Print(blocks, tail), m + e, q)
    requires NoneCloses(Print(blocks, tail), m + e, q)
    ensures KeptBy(env, blocks, m - 1, e, q) + Between(env, blocks, q + |ENDS|, p) == KeptBy(env, blocks, m, e, p)
    decreases |blocks|
  {
    hide At; hide Contains; hide BlockCalls; hide OpenTag; hide Print; hide BlockText; hide Good; hide TagBody.Count;
    hide Lost; hide Later; hide DepthBehind;
    if blocks != [] {
      var b, rest, len := blocks[0], Print(blocks[1..], tail), |BlockText(blocks[0])|;
      PrintCons(blocks, tail);
      GoodParts(blocks);
      if q >= len {
        hide Closes;
        NoneCloseEarlier(BlockText(b) + rest, m + e, q, len);
        DepthStays(b, rest, m + e);
        LayerLess(b, m, e);
        ClosesBehind(b, rest, m + e, q - len);
        NoneCloseBehind(b, rest, m + e, q);
        KeptBySplits(env, blocks[1..], tail, Later(b, m, e).0, Later(b, m, e).1, q - len, p - len);
      } else {
        ClosedInBlock(b, rest, m, e, q);
        if p >= len { KeptByNone(env, blocks[1..], Later(b, m, e).1, p - len); }
      }
    }
  }

  /** The outermost layer is closed in the gap, or in the body, which then is lost; either way none is left. */
  lemma ClosedInBlock(b: Block, rest: string, m: nat, e: nat, q: nat)
    requires Good([b]) && m > 0 && q < |BlockText(b)| && Closes(BlockText(b) + rest, m + e, q)
    requires NoneCloses(BlockText(b) + rest, m + e, q)
    ensures Later(b, m, e).0 == 0 && (Lost(b, m, e) <==> q + |ENDS| > |b.gap|)
    ensures q + |ENDS| > |b.gap| ==> BodyStart(b) <= q && q + |ENDS| <= BodyStart(b) + |b.body|
    ensures |BlockText(b)| == BodyStart(b) + |b.body| + |END|
  {
    hide At; hide OpenTag; hide Contains; hide TagBody.Count;
    CloseBefore(b, rest, q);
    CountsAtClose(b, rest, q);
    if BodyStart(b) <= q && Closings(b.gap) >= m + e { var x := GapCloses(b, rest, m + e); }
  }

  lemma {:induction false} ExactSlice(env: Backend, m: nat, blocks: seq<Block>, tail: string, p: nat,
                                      names: seq<string>)
    requires Good(blocks) && !Contains(tail, CALL)
    requires PiecesQuiet(env, m, Print(blocks, tail), names) && Cut(Print(blocks, tail), 0, p)
    ensures Scan(env, Repeat(CONTAINER, m) + Print(blocks, tail)[..p], names).1 == KeptBy(env, blocks, m, 0, p)
    decreases m
  {
    hide At; hide Contains; hide Scan; hide Print; hide Good; hide Between; hide KeptBy; hide Quiet; hide TagBody.Count;
    var r := Print(blocks, tail);
    if m == 0 {
      ScanSlice(env, blocks, tail, 0, p, names);
      KeptByNone(env, blocks, 0, p);
      assert Repeat(CONTAINER, 0) + r[..p] == r[0..p];
    } else {
      var q := OneLayer(env, m, r[..p], names);
      var stop := if q.Some? then q.value else p;
      FrontCloses(r, p, m);
      if q.Some? { CutInFront(r, q.value, p); }
      ExactSlice(env, m - 1, blocks, tail, stop, names);
      ParseQuiet(env, Repeat(CONTAINER, m - 1) + r[..stop], names);
      if q.Some? {
        ScanSlice(env, blocks, tail, q.value + |ENDS|, p, names);
        KeptBySplits(env, blocks, tail, m, 0, q.value, p);
      } else {
        KeptByFew(env, blocks, tail, m, 0, p);
      }
    }
  }

  /** Up to a cut, the front of a text is closed where the text is. */
  lemma FrontCloses(r: string, p: nat, d: nat)
    requires Cut(r, 0, p)
    ensures NoneCloses(r[..p], d, p) ==> NoneCloses(r, d, p)
    ensures forall q: nat | q < p && Closes(r[..p], d, q) && NoneCloses(r[..p], d, q) ::
              Closes(r, d, q) && NoneCloses(r, d, q)
  {
    hide TagBody.Count;
    Tags();
    assert r == r[..p] + r[p..];
    if p < |r| {
      AtChar(r, p, ENDS, 0);
      assert r[p..][0] == r[p];
    }
    hide At;
    forall x: nat | x < p ensures Closes(r[..p], d, x) <==> Closes(r, d, x) {
      CountInFront(r[..p], r[p..], ENDS, x);
      CountInFront(r[..p], r[p..], CALLS, x);
      AtSeam(r[..p], r[p..], ENDS, x);
    }
  }

  lemma {:induction false} KeptByAll(env: Backend, blocks: seq<Block>, tail: string, m: nat, e: nat)
    ensures KeptBy(env, blocks, m, e, |Print(blocks, tail)|) == Kept(env, blocks, m, e)
    decreases |blocks|
  {
    hide BlockCalls; hide OpenTag; hide Print; hide BlockText; hide Lost; hide Later;
    if blocks != [] {
      PrintCons(blocks, tail);
      KeptByAll(env, blocks[1..], tail, Later(blocks[0], m, e).0, Later(blocks[0], m, e).1);
    }
  }

  /** What any number of layers leaves over, to the call. */
  lemma LayersKeepExactly(env: Backend, opens: nat, blocks: seq<Block>, tail: string, closes: nat, names: seq<string>)
    requires Good(blocks) && !Contains(tail, CALL)
    requires PiecesQuiet(env, opens + 1, Print(blocks, tail + Repeat(ENDS, closes)), names)
    ensures Parse(env, Layered(opens, blocks, tail, closes), names).1 == Kept(env, blocks, opens, 0)
  {
    hide At; hide Contains; hide Scan; hide Print; hide Good; hide Repeat; hide Cut; hide Quiet; hide Kept; hide KeptBy;
    hide Parse;
    var tail', r := tail + Repeat(ENDS, closes), Print(blocks, tail + Repeat(ENDS, closes));
    TailLacksCall(tail, closes);
    WholeIsCut(r);
    ExactSlice(env, opens, blocks, tail', |r|, names);
    KeptByAll(env, blocks, tail', opens, 0);
    assert r[..|r|] == r;
    ParseQuiet(env, Repeat(CONTAINER, opens) + r[..|r|], names);
  }

  /** Reading on with `m` layers and `e` openings in them still open, no layer is closed in the body of a block that
      yields a call. */
  predicate NoCallHit(env: Backend, blocks: seq<Block>, m: nat, e: nat) {
    blocks != [] ==>
      var b := blocks[0];
      && (Lost(b, m, e) ==> BlockCalls(env, b.name, b.body) == [])
      && NoCallHit(env, blocks[1..], Later(b, m, e).0, Later(b, m, e).1)
  }

  lemma {:induction false} KeptVersusCalls(env: Backend, blocks: seq<Block>, m: nat, e: nat)
    ensures |Kept(env, blocks, m, e)| <= |Calls(env, blocks)|
    ensures Kept(env, blocks, m, e) == Calls(env, blocks) <==> NoCallHit(env, blocks, m, e)
    decreases |blocks|
  {
    hide BlockCalls; hide Lost; hide Later;
    if blocks != [] {
      var b, k := blocks[0], BlockCalls(env, blocks[0].name, blocks[0].body);
      var m', e' := Later(b, m, e).0, Later(b, m, e).1;
      KeptVersusCalls(env, blocks[1..], m', e');
      var kept, calls := Kept(env, blocks[1..], m', e'), Calls(env, blocks[1..]);
      if Lost(b, m, e) {
        assert Kept(env, blocks, m, e) == [] + kept == kept;
        if k == [] { assert Calls(env, blocks) == [] + calls == calls; }
      } else {
        assert (k + kept)[|k|..] == kept && (k + calls)[|k|..] == calls;
      }
    }
  }

  /** The layers keep all calls if and only if none of them is closed in the body of a block that yields a call. */
  lemma CallsKeptIffNoneHit(env: Backend, opens: nat, blocks: seq<Block>, tail: string, closes: nat, names: seq<string>)
    requires Good(blocks) && !Contains(tail, CALL)
    requires PiecesQuiet(env, opens + 1, Print(blocks, tail + Repeat(ENDS, closes)), names)
    ensures Parse(env, Layered(opens, blocks, tail, closes), names).1 == Calls(env, blocks)
       <==> NoCallHit(env, blocks, opens, 0)
  {
    LayersKeepExactly(env, opens, blocks, tail, closes, names);
    KeptVersusCalls(env, blocks, opens, 0);
  }

  /** Fallbacks that never find anything. */
  const SILENT := Backend(_ => None, _ => None, _ => [], (text, _) => (text, []))

  const QUOTING := Block("", Some("a"), "x</tool_calls>y")

  /** A call whose body quotes the closing tag of a container is parsed on its own, and lost in a container. */
  lemma QuotedClosingLosesCall()
    ensures Parse(SILENT, Print([QUOTING], ""), []).1 == [ToolCall("a", Object(map["input" := Str("x</tool_calls>y")]))]
    ensures Parse(SILENT, Layered(1, [QUOTING], "", 1), []).1 == []
  {
    hide At; hide Contains; hide Print; hide Parse; hide OpenTag; hide TagBody.Count; hide PiecesQuiet; hide Scan;
    var env := SILENT;
    QuotingIsGood();
    QuotingCall();
    assert Calls(env, []) == [] && Gaps([]) == "";
    ParseInvertsPrint(env, [QUOTING], "", []);
    SilentIsQuiet(2, Print([QUOTING], "" + Repeat(ENDS, 1)));
    LayersKeepExactly(env, 1, [QUOTING], "", 1, []);
    assert Lost(QUOTING, 1, 0);
    assert [QUOTING][1..] == [];
    assert Kept(env, [QUOTING], 1, 0) == [] + Kept(env, [], Later(QUOTING, 1, 0).0, Later(QUOTING, 1, 0).1);
  }

  lemma SilentIsQuiet(n: nat, r: string)
    ensures PiecesQuiet(SILENT, n, r, [])
  {
    hide Scan;
  }

  lemma QuotingCall()
    ensures Calls(SILENT, [QUOTING]) == [ToolCall("a", Object(map["input" := Str("x</tool_calls>y")]))]
  {
    assert Trim("x</tool_calls>y") == "x</tool_calls>y";
    assert [QUOTING][1..] == [];
  }

  lemma EmptyLacks(pat: string)
    requires pat != ""
    ensures !Contains("", pat)
  {
  }

  lemma QuotingOpens()
    ensures Opens(QUOTING) == 0
  {
    hide At;
    var tag := "<tool_call name=\"a\">";
    assert OpenTag(QUOTING.name) == tag;
    forall j: nat ensures !At(tag, j, CALLS) { AtChar(tag, j, CALLS, 0); AtChar(tag, j, CALLS, 10); }
    CountLacking(tag, CALLS, |tag|);
  }

  lemma QuotingIsGood()
    ensures Good([QUOTING]) && !Contains("", CALL)
    ensures Closings("") == 0 && Closings(QUOTING.body) > 0 && Opens(QUOTING) == 0
  {
    hide At;
    EmptyLacks(CALL);
    forall j: nat, pat: string | pat in [CALL, END] ensures !At(QUOTING.body, j, pat) {
      AtChar(QUOTING.body, j, pat, 0);
      AtChar(QUOTING.body, j, pat, 1);
      AtChar(QUOTING.body, j, pat, |pat| - 1);
    }
    QuotingOpens();
    assert QUOTING.body == "x" + (ENDS + "y");
    AtFront(ENDS, "y");
    AtShift("x", ENDS + "y", 0, ENDS);
    CountGrows(QUOTING.body, ENDS, 1, |QUOTING.body|);
  }
}
