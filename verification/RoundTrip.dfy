/** Printing tool calls and parsing them back. */
module RoundTrip {
  import opened Wrappers
  import opened Text
  import opened ToolParse
  import TagBody

  /** Text to keep, followed by one call: named in its opening tag, or nameless with a JSON body. */
  datatype Block = Block(gap: string, name: Option<string>, body: string)

  const END := "</tool_call>"
  const OPENING := "<tool_call name=\""

  function OpenTag(name: Option<string>): string {
    if name.Some? then OPENING + name.value + "\">" else "<tool_call>"
  }

  /** The blocks one after another, then `tail`. */
  function Print(blocks: seq<Block>, tail: string): string {
    if blocks == [] then tail
    else blocks[0].gap + (OpenTag(blocks[0].name) + (blocks[0].body + (END + Print(blocks[1..], tail))))
  }

  function Gaps(blocks: seq<Block>): string {
    if blocks == [] then "" else blocks[0].gap + Gaps(blocks[1..])
  }

  function Calls(env: Backend, blocks: seq<Block>): seq<ToolCall> {
    if blocks == [] then []
    else BlockCalls(env, blocks[0].name, blocks[0].body) + Calls(env, blocks[1..])
  }

  predicate GoodName(name: Option<string>) {
    name.Some? ==>
      && name.value != ""
      && forall k :: 0 <= k < |name.value| ==> name.value[k] != '"' && name.value[k] != '>'
  }

  ghost predicate Good(blocks: seq<Block>) {
    forall b :: b in blocks ==>
      && GoodName(b.name) && !Contains(b.gap, CALL) && !Contains(b.body, CALL) && !Contains(b.body, END)
  }

  // ── One block ─────────────────────────────────────────────────

  /** The only '>' of an opening tag is its last character, its only '<' outside the name the first. */
  lemma OpenTagChars(name: Option<string>, k: nat)
    requires k < |OpenTag(name)| && GoodName(name)
    ensures OpenTag(name)[k] == '>' <==> k == |OpenTag(name)| - 1
    ensures OpenTag(name)[0] == '<' && (k == |OpenTag(name)| - 2 ==> OpenTag(name)[k] != 's')
    ensures k < 11 ==> OpenTag(name)[k] != 'n'
  {
    if name.Some? && |OPENING| <= k < |OPENING| + |name.value| {
      assert OpenTag(name)[k] == name.value[k - |OPENING|];
    }
  }

  lemma OpenTagFront(name: Option<string>)
    ensures |OpenTag(name)| > 10 && OpenTag(name)[0] == '<'
  {
  }

  lemma AttrOfOpenTag(name: Option<string>)
    requires GoodName(name)
    ensures ExtractAttr(OpenTag(name), "name") == name
  {
    hide At;
    var tag, pattern := OpenTag(name), "name" + "=\"";
    forall j: nat | j < 11 ensures !At(tag, j, pattern) {
      AtChar(tag, j, pattern, 0);
      OpenTagChars(name, j);
    }
    if name.Some? {
      var rest := name.value + "\">";
      assert tag == "<tool_call " + (pattern + rest);
      AtConcat(tag, 0, "<tool_call ", pattern + rest);
      AtConcat(tag, 11, pattern, rest);
      AtWhole(tag);
      assert FindFrom(tag, pattern, 0) == Some(11);
      assert tag[11 + |pattern|..] == rest;
      forall j: nat | j <= |name.value| ensures At(rest, j, "\"") <==> j == |name.value| {
        AtOne(rest, j, '"');
      }
      assert At(rest, |name.value|, "\"");
      assert FindFrom(rest, "\"", 0) == Some(|name.value|) && rest[..|name.value|] == name.value;
    }
  }

  lemma AtWhole(s: string)
    ensures At(s, 0, s)
  {
    assert s[0..|s|] == s;
  }

  lemma AtFront(p: string, q: string)
    ensures At(p + q, 0, p)
  {
    assert (p + q)[0..|p|] == p;
  }

  /** The printed opening tag is found where it stands, with its name. */
  lemma NextTagAtBlock(name: Option<string>, after: string)
    requires GoodName(name)
    ensures NextTag(OpenTag(name) + after, 0) == Some(TagMatch(false, name, 0, |OpenTag(name)|))
  {
    hide At; hide ExtractAttr;
    var tag := OpenTag(name);
    var text := tag + after;
    var front := if name.Some? then "<tool_call " else "<tool_call>";
    assert text == front + text[11..];
    AtFront(front, text[11..]);
    assert ValidTagAt(text, 0);
    Extensions(text, 0);
    assert text[10] == front[10];
    forall j: nat | j < |tag| ensures At(text, j, ">") <==> j == |tag| - 1 {
      AtOne(text, j, '>');
      OpenTagChars(name, j);
    }
    assert At(text, |tag| - 1, ">");
    assert FindFrom(text, ">", 0) == Some(|tag| - 1);
    assert text[0..|tag|] == tag;
    AttrOfOpenTag(name);
  }

  lemma AngledTags()
    ensures Angled(CALL) && Angled(END)
    ensures TagBody.Open("tool_call") == CALL && TagBody.Close("tool_call") == END
  {
  }

  /** In front of something that opens with '<', a text without `pat` stays without it. */
  lemma NoneInFront(a: string, b: string, pat: string)
    requires Angled(pat) && !Contains(a, pat) && (b == "" || b[0] == '<')
    ensures forall j: nat :: j < |a| ==> !At(a + b, j, pat)
  {
    hide At;
    forall j: nat | j < |a| ensures !At(a + b, j, pat) {
      if At(a + b, j, pat) { NoStraddle(a, b, pat, j); }
    }
  }

  lemma BodyOfBlock(body: string, rest: string)
    requires !Contains(body, CALL) && !Contains(body, END)
    ensures TagBody.Body(body + (END + rest), "tool_call") == (body, rest)
  {
    hide At;
    AngledTags();
    var text := body + (END + rest);
    NoneInFront(body, END + rest, CALL);
    NoneInFront(body, END + rest, END);
    TagBody.SkipPlain(text, CALL, END, 0, |body|, 1);
    AtFront(END, rest);
    AtShift(body, END + rest, 0, END);
    assert text[..|body|] == body && text[|body| + |END|..] == rest;
  }

  /** A gap without tag prefixes only shifts what is found behind it. */
  lemma NextTagBehindGap(gap: string, text: string)
    requires !Contains(gap, CALL) && text != "" && text[0] == '<'
    ensures NextTag(gap + text, 0) == Shift(NextTag(text, 0), |gap|)
  {
    hide At; hide NextTag; hide ValidTagAt;
    AngledTags();
    NoneInFront(gap, text, CALL);
    forall k: nat | k < |gap| ensures !ValidTagAt(gap + text, k) { Extensions(gap + text, k); }
    SkipToPrefix(gap + text, 0, |gap|);
    NextTagInSuffix(gap + text, |gap|, 0);
    assert (gap + text)[|gap|..] == text;
  }

  lemma NoTagInPlainText(text: string)
    requires !Contains(text, CALL)
    ensures NextTag(text, 0) == None
  {
    hide At; hide ValidTagAt;
    forall k: nat | k < |text| ensures !ValidTagAt(text, k) { Extensions(text, k); }
    SkipToPrefix(text, 0, |text|);
  }

  lemma ScanPlain(env: Backend, text: string, names: seq<string>)
    requires !Contains(text, CALL)
    ensures Scan(env, text, names) == (text, [])
  {
    hide At; hide NextTag;
    NoTagInPlainText(text);
  }

  /** One turn of the parser's loop over a printed block. */
  lemma ScanBlock(env: Backend, b: Block, rest: string, names: seq<string>)
    requires Good([b])
    ensures var text := b.gap + (OpenTag(b.name) + (b.body + (END + rest)));
            && Scan(env, text, names).0 == b.gap + Scan(env, rest, names).0
            && Scan(env, text, names).1 == BlockCalls(env, b.name, b.body) + Scan(env, rest, names).1
  {
    hide At; hide NextTag; hide TagBody.Body; hide BlockCalls; hide OpenTag;
    assert b in [b];
    var after := b.body + (END + rest);
    var text := b.gap + (OpenTag(b.name) + after);
    OpenTagFront(b.name);
    NextTagBehindGap(b.gap, OpenTag(b.name) + after);
    NextTagAtBlock(b.name, after);
    BodyOfBlock(b.body, rest);
    assert text[..|b.gap|] == b.gap;
    assert text[|b.gap| + |OpenTag(b.name)|..] == after;
    assert |after| > |b.body|;
  }

  lemma GoodParts(blocks: seq<Block>)
    requires Good(blocks) && blocks != []
    ensures Good([blocks[0]]) && Good(blocks[1..])
  {
  }

  lemma {:induction false} ScanPrinted(env: Backend, blocks: seq<Block>, tail: string, names: seq<string>)
    requires Good(blocks) && !Contains(tail, CALL)
    ensures Scan(env, Print(blocks, tail), names).0 == Gaps(blocks) + tail
    ensures Scan(env, Print(blocks, tail), names).1 == Calls(env, blocks)
  {
    hide At; hide Contains; hide Scan; hide BlockCalls; hide OpenTag; hide Good;
    if blocks == [] {
      ScanPlain(env, tail, names);
    } else {
      GoodParts(blocks);
      ScanPrinted(env, blocks[1..], tail, names);
      ScanBlock(env, blocks[0], Print(blocks[1..], tail), names);
    }
  }

  /** Round trip: parsing the printed blocks gives the calls back in order, and the gaps as clean text. */
  lemma ParseInvertsPrint(env: Backend, blocks: seq<Block>, tail: string, names: seq<string>)
    requires Good(blocks) && !Contains(tail, CALL) && Calls(env, blocks) != []
    ensures Parse(env, Print(blocks, tail), names) == (Trim(Gaps(blocks) + tail), Calls(env, blocks))
  {
    ScanPrinted(env, blocks, tail, names);
  }

  // ── What the calls hold ───────────────────────────────────────

  /** `t` is `s` without the whitespace around it. */
  ghost predicate Trimmed(s: string, t: string) {
    && (t != "" ==> !IsWhitespace(t[0]) && !IsWhitespace(t[|t| - 1]))
    && exists i: nat :: Surrounded(s, i, t)
  }

  /** `t` stands at `i` in `s`, and everything else in `s` is whitespace. */
  ghost predicate Surrounded(s: string, i: nat, t: string) {
    && i + |t| <= |s| && s[i..i + |t|] == t
    && forall k | 0 <= k < |s| && !(i <= k < i + |t|) :: IsWhitespace(s[k])
  }

  lemma WiderSurrounds(s: string, a: nat, b: nat, i: nat, t: string)
    requires a <= b <= |s| && Surrounded(s[a..b], i, t)
    requires forall k | 0 <= k < |s| && !(a <= k < b) :: IsWhitespace(s[k])
    ensures Surrounded(s, a + i, t)
  {
    hide IsWhitespace;
    var inner, outer := s[a..b][i..i + |t|], s[a + i..a + i + |t|];
    assert forall x | 0 <= x < |t| :: inner[x] == s[a..b][i + x] == outer[x];
    forall k | 0 <= k < |s| && !(a + i <= k < a + i + |t|) ensures IsWhitespace(s[k]) {
      if a <= k < b { assert s[k] == s[a..b][k - a]; }
    }
  }

  lemma {:induction false} TrimIsTrimmed(s: string)
    ensures Trimmed(s, Trim(s))
    decreases |s|
  {
    hide IsWhitespace; hide Surrounded;
    if s == "" || (!IsWhitespace(s[0]) && !IsWhitespace(s[|s| - 1])) {
      WholeSurrounds(s);
    } else {
      var front := IsWhitespace(s[0]);
      var a, b := if front then 1 else 0, if front then |s| else |s| - 1;
      assert s[a..b] == if front then s[1..] else s[..|s| - 1];
      TrimIsTrimmed(s[a..b]);
      var i: nat :| Surrounded(s[a..b], i, Trim(s[a..b]));
      WiderSurrounds(s, a, b, i, Trim(s[a..b]));
    }
  }

  lemma WholeSurrounds(s: string)
    ensures Surrounded(s, 0, s)
  {
  }

  /** There is only one such text. */
  lemma TrimmedOnce(s: string, t: string, u: string)
    requires Trimmed(s, t) && Trimmed(s, u)
    ensures t == u
  {
    hide IsWhitespace;
    var i: nat :| Surrounded(s, i, t);
    var j: nat :| Surrounded(s, j, u);
    if t != "" {
      assert s[i] == t[0] && s[i + |t| - 1] == t[|t| - 1];
      assert j <= i && i + |t| <= j + |u|;
    }
    if u != "" {
      assert s[j] == u[0] && s[j + |u| - 1] == u[|u| - 1];
      assert i <= j && j + |u| <= i + |t|;
    }
  }

  /** The parameters of a named call whose trimmed body is `input`: none for an empty one; the fields of a JSON object,
      with the body itself as "input" unless "tool" or "name" is among them; and only that for any other body. */
  ghost predicate Carries(env: Backend, input: string, parameters: Json) {
    var decoded := env.decode(input);
    && parameters.Object?
    && (input == "" ==> parameters.fields == map[])
    && (input != "" && !(decoded.Some? && decoded.value.Object?) ==> parameters.fields == map["input" := Str(input)])
    && (input != "" && decoded.Some? && decoded.value.Object? ==>
          var given, carried := decoded.value.fields, parameters.fields;
          var bare := "tool" !in given && "name" !in given;
          && (forall k :: k in carried <==> k in given || (bare && k == "input"))
          && forall k | k in carried :: carried[k] == if bare && k == "input" then Str(input) else given[k])
  }

  /** The calls that one printed block stands for. */
  ghost predicate Yields(env: Backend, b: Block, calls: seq<ToolCall>) {
    exists input :: Trimmed(b.body, input)
      && if b.name.Some? then
           |calls| == 1 && calls[0].name == b.name.value && Carries(env, input, calls[0].parameters)
         else calls == if env.callFromJson(input).Some? then [env.callFromJson(input).value] else []
  }

  function Flatten<T>(parts: seq<seq<T>>): seq<T> {
    if parts == [] then [] else parts[0] + Flatten(parts[1..])
  }

  lemma BodyCarries(env: Backend, input: string)
    ensures Carries(env, input, BodyParameters(env, input))
  {
  }

  lemma BlockYields(env: Backend, b: Block)
    ensures Yields(env, b, BlockCalls(env, b.name, b.body))
  {
    hide Trim; hide Trimmed; hide Carries; hide BodyParameters;
    var input := Trim(b.body);
    TrimIsTrimmed(b.body);
    BodyCarries(env, input);
    if b.name.None? { assert BlockCalls(env, None, b.body) == BlockCalls(env, b.name, b.body); }
  }

  lemma {:induction false} BlocksYield(env: Backend, blocks: seq<Block>) returns (parts: seq<seq<ToolCall>>)
    ensures |parts| == |blocks| && forall i | 0 <= i < |blocks| :: Yields(env, blocks[i], parts[i])
    ensures Flatten(parts) == Calls(env, blocks)
  {
    hide BlockCalls; hide Yields;
    parts := [];
    if blocks != [] {
      var later := BlocksYield(env, blocks[1..]);
      BlockYields(env, blocks[0]);
      parts := [BlockCalls(env, blocks[0].name, blocks[0].body)] + later;
      assert parts[1..] == later;
      forall i | 0 <= i < |blocks| ensures Yields(env, blocks[i], parts[i]) {
        if i > 0 { assert blocks[i] == blocks[1..][i - 1] && parts[i] == later[i - 1]; }
      }
    }
  }

  /** The answer where no call is found between tags: that of the markdown reading, else that of the raw one, which
      alone replaces the clean text, else none. */
  ghost predicate FallsBack(env: Backend, text: string, names: seq<string>, kept: string, clean: string,
                            calls: seq<ToolCall>) {
    var markdown, raw := env.markdownCalls(text), env.rawCalls(text, names);
    if markdown == [] && names != [] && raw.1 != [] then clean == raw.0 && calls == raw.1
    else Trimmed(kept, clean) && calls == markdown
  }

  lemma FallbacksRun(env: Backend, text: string, names: seq<string>, kept: string, found: seq<ToolCall>)
    ensures var (clean, calls) := WithFallbacks(env, text, names, Trim(kept), found);
            if found != [] then calls == found && Trimmed(kept, clean)
            else FallsBack(env, text, names, kept, clean, calls)
  {
    hide Trim; hide Trimmed;
    TrimIsTrimmed(kept);
  }

  /** Parsing printed blocks: each contributes what it yields, in order, and the gaps and the tail are kept, without the
      whitespace around them. The fallbacks run exactly if no block yields a call. */
  lemma PrintedCalls(env: Backend, blocks: seq<Block>, tail: string, names: seq<string>)
    returns (parts: seq<seq<ToolCall>>)
    requires Good(blocks) && !Contains(tail, CALL)
    ensures |parts| == |blocks| && forall i | 0 <= i < |blocks| :: Yields(env, blocks[i], parts[i])
    ensures var text, kept := Print(blocks, tail), Gaps(blocks) + tail;
            var (clean, calls) := Parse(env, text, names);
            if Flatten(parts) != [] then calls == Flatten(parts) && Trimmed(kept, clean)
            else FallsBack(env, text, names, kept, clean, calls)
  {
    hide Contains; hide Scan; hide Print; hide Yields; hide Trimmed; hide Trim; hide WithFallbacks; hide FallsBack;
    parts := BlocksYield(env, blocks);
    ScanPrinted(env, blocks, tail, names);
    FallbacksRun(env, Print(blocks, tail), names, Gaps(blocks) + tail, Calls(env, blocks));
  }

  /** A block is never read in two ways. */
  lemma YieldsOnce(env: Backend, b: Block, calls: seq<ToolCall>, others: seq<ToolCall>)
    requires Yields(env, b, calls) && Yields(env, b, others)
    ensures calls == others
  {
    hide Trimmed; hide Carries;
    forall s, t, u | Trimmed(s, t) && Trimmed(s, u) ensures t == u { TrimmedOnce(s, t, u); }
    if b.name.Some? {
      var input :| Trimmed(b.body, input) && Carries(env, input, calls[0].parameters);
      CarriesOnce(env, input, calls[0].parameters, others[0].parameters);
    }
  }

  lemma CarriesOnce(env: Backend, input: string, parameters: Json, others: Json)
    requires Carries(env, input, parameters) && Carries(env, input, others)
    ensures parameters == others
  {
    assert parameters.fields.Keys == others.fields.Keys;
  }

  /** A call that nothing closes stays in the text, with whatever follows it. */
  lemma UnclosedIsText(env: Backend, gap: string, name: Option<string>, rest: string, names: seq<string>)
    requires GoodName(name) && !Contains(gap, CALL) && !Contains(rest, END)
    ensures var text := gap + (OpenTag(name) + rest);
            var (clean, calls) := Parse(env, text, names);
            FallsBack(env, text, names, text, clean, calls)
  {
    hide At; hide NextTag; hide OpenTag; hide Scan; hide WithFallbacks; hide Trim; hide FallsBack;
    var text := gap + (OpenTag(name) + rest);
    OpenTagFront(name);
    NextTagBehindGap(gap, OpenTag(name) + rest);
    NextTagAtBlock(name, rest);
    var tag := NextTag(text, 0).value;
    assert text[tag.openEnd..] == rest;
    AngledTags();
    TagBody.BodySplitsAtFirstBalance(rest, "tool_call");
    ScanCall(env, text, names, tag);
    FallbacksRun(env, text, names, text, []);
  }
}
