/** Extracting tool calls from a model's answer (`tool_parse.rs`). */
module ToolParse {
  import opened Wrappers
  import opened Text
  import TagBody

  /** Decoded JSON, as far as the parser looks into it. */
  datatype Json = Str(s: string) | Object(fields: map<string, Json>) | Other(repr: string)

  /** A parsed call; the random id every call gets is left out. */
  datatype ToolCall = ToolCall(name: string, parameters: Json)

  /** The library calls and fallbacks behind the parser, each an arbitrary function. */
  datatype Backend = Backend(
    decode: string -> Option<Json>,
    callFromJson: string -> Option<ToolCall>,
    markdownCalls: string -> seq<ToolCall>,
    rawCalls: (string, seq<string>) -> (string, seq<ToolCall>))

  const CALL := "<tool_call"
  const CALLS := "<tool_calls"

  // ── Opening tags ──────────────────────────────────────────────

  datatype TagMatch = TagMatch(container: bool, name: Option<string>, start: nat, openEnd: nat)

  /** The value of `attr="…"`; an empty value counts as absent. */
  function ExtractAttr(openTag: string, attr: string): Option<string> {
    var pattern := attr + "=\"";
    match FindFrom(openTag, pattern, 0)
    case None => None
    case Some(p) =>
      var rest := openTag[p + |pattern|..];
      match FindFrom(rest, "\"", 0)
      case None => None
      case Some(end) => if rest[..end] == "" then None else Some(rest[..end])
  }

  /** The four ways a recognised opening tag can begin. */
  predicate ValidTagAt(text: string, i: nat) {
    || At(text, i, "<tool_call>") || At(text, i, "<tool_call ")
    || At(text, i, "<tool_calls>") || At(text, i, "<tool_calls ")
  }

  /** The first position from `i` on where a recognised tag begins that some '>' closes. */
  function NextTag(text: string, i: nat): (r: Option<TagMatch>)
    requires i <= |text|
    ensures r.Some? ==> i <= r.value.start < r.value.openEnd <= |text|
    decreases |text| - i
  {
    if i == |text| then None
    else
      var gt := FindFrom(text, ">", i);
      if ValidTagAt(text, i) && gt.Some?
      then Some(TagMatch(At(text, i, CALLS), ExtractAttr(text[i..gt.value + 1], "name"), i, gt.value + 1))
      else NextTag(text, i + 1)
  }

  /** The character behind a prefix occurrence, if any, is an 's'. */
  predicate PluralAt(text: string, i: nat, prefix: string) {
    i + |prefix| < |text| && text[i + |prefix|] == 's'
  }

  /** `find_tag_prefix`: the first occurrence of the prefix that is not followed by 's'. */
  method FindTagPrefix(text: string, tag: string) returns (r: Option<nat>)
    ensures r.Some? ==> At(text, r.value, "<" + tag) && !PluralAt(text, r.value, "<" + tag)
    ensures forall j: nat :: At(text, j, "<" + tag) && (r.Some? ==> j < r.value) ==> PluralAt(text, j, "<" + tag)
  {
    hide At;
    var prefix := "<" + tag;
    var searchFrom := 0;
    while true
      invariant searchFrom <= |text|
      invariant forall j: nat :: j < searchFrom && At(text, j, prefix) ==> PluralAt(text, j, prefix)
      decreases |text| - searchFrom
    {
      var pos := FindFrom(text, prefix, searchFrom);
      if pos.None? { return None; }
      var abs := pos.value;
      if PluralAt(text, abs, prefix) {
        searchFrom := abs + 1;
      } else {
        return Some(abs);
      }
    }
  }

  lemma AtConcat(text: string, i: nat, p: string, q: string)
    ensures At(text, i, p + q) <==> At(text, i, p) && At(text, i + |p|, q)
  {
    if i + |p| + |q| <= |text| {
      assert text[i..i + |p + q|] == text[i..i + |p|] + text[i + |p|..i + |p| + |q|];
      assert (p + q)[..|p|] == p && (p + q)[|p|..] == q;
      if text[i..i + |p + q|] == p + q {
        assert text[i..i + |p|] == text[i..i + |p + q|][..|p|];
        assert text[i + |p|..i + |p| + |q|] == text[i..i + |p + q|][|p|..];
      }
    }
  }

  lemma AtOne(text: string, i: nat, c: char)
    ensures At(text, i, [c]) <==> i < |text| && text[i] == c
  {
    if i < |text| { assert text[i..i + 1] == [text[i]]; }
  }

  /** How the plural prefix and the four tag beginnings extend the singular prefix. */
  lemma Extensions(text: string, i: nat)
    ensures At(text, i, CALLS) <==> At(text, i, CALL) && PluralAt(text, i, CALL)
    ensures ValidTagAt(text, i) ==> At(text, i, CALL)
  {
    hide At;
    AtConcat(text, i, CALL, "s"); AtOne(text, i + |CALL|, 's');
    AtConcat(text, i, CALL, ">"); AtConcat(text, i, CALL, " ");
    AtConcat(text, i, CALL, "s>"); AtConcat(text, i, CALL, "s ");
    assert CALLS == CALL + "s" && "<tool_call>" == CALL + ">" && "<tool_call " == CALL + " ";
    assert "<tool_calls>" == CALL + "s>" && "<tool_calls " == CALL + "s ";
  }

  /** A pattern with '>' at most at its end starts the opening tag iff it occurs at the tag's position. */
  lemma OpenTagStarts(text: string, pos: nat, gt: nat, p: string)
    requires pos <= |text| && FindFrom(text, ">", pos) == Some(gt)
    requires forall k :: 0 <= k < |p| - 1 ==> p[k] != '>'
    ensures p <= text[pos..gt + 1] <==> At(text, pos, p)
  {
    AtOne(text, gt, '>');
    if gt + 1 - pos < |p| { AtChar(text, pos, p, gt - pos); }
    if p <= text[pos..gt + 1] { assert text[pos..pos + |p|] == text[pos..gt + 1][..|p|]; }
    if At(text, pos, p) { assert text[pos..gt + 1][..|p|] == text[pos..pos + |p|]; }
  }

  /** Positions without the singular prefix are no tag: the search can jump over them. */
  lemma {:induction false} SkipToPrefix(text: string, i: nat, j: nat)
    requires i <= j <= |text|
    requires forall k: nat :: i <= k < j ==> !ValidTagAt(text, k)
    ensures NextTag(text, i) == NextTag(text, j)
    decreases j - i
  {
    hide At; hide ExtractAttr; hide ValidTagAt;
    if i < j { SkipToPrefix(text, i + 1, j); }
  }

  function Shift(m: Option<TagMatch>, k: nat): Option<TagMatch> {
    match m
    case None => None
    case Some(t) => Some(TagMatch(t.container, t.name, t.start + k, t.openEnd + k))
  }

  lemma FindInSuffix(text: string, k: nat, pat: string, i: nat)
    requires k <= |text| && i <= |text| - k
    ensures var r := FindFrom(text[k..], pat, i);
            FindFrom(text, pat, k + i) == if r.None? then None else Some(k + r.value)
    decreases |text| - k - i
  {
    hide At;
    assert text == text[..k] + text[k..];
    AtShift(text[..k], text[k..], i, pat);
    if !At(text[k..], i, pat) && i < |text| - k {
      FindInSuffix(text, k, pat, i + 1);
    }
  }

  lemma TagsInSuffix(text: string, k: nat, i: nat)
    requires k <= |text|
    ensures ValidTagAt(text, k + i) == ValidTagAt(text[k..], i) && At(text, k + i, CALLS) == At(text[k..], i, CALLS)
  {
    hide At;
    var s := text[k..];
    assert text == text[..k] + s;
    AtShift(text[..k], s, i, "<tool_call>"); AtShift(text[..k], s, i, "<tool_call ");
    AtShift(text[..k], s, i, "<tool_calls>"); AtShift(text[..k], s, i, "<tool_calls ");
    AtShift(text[..k], s, i, CALLS);
  }

  lemma SliceOfSuffix(text: string, k: nat, i: nat, j: nat)
    requires k <= |text| && i <= j <= |text| - k
    ensures text[k..][i..j] == text[k + i..k + j]
  {
  }

  /** Searching a suffix and shifting the result is searching the text from the suffix on. */
  lemma {:induction false} NextTagInSuffix(text: string, k: nat, i: nat)
    requires k <= |text| && i <= |text| - k
    ensures NextTag(text, k + i) == Shift(NextTag(text[k..], i), k)
    decreases |text| - k - i
  {
    hide At; hide ExtractAttr; hide ValidTagAt;
    var s := text[k..];
    if i < |s| {
      TagsInSuffix(text, k, i);
      FindInSuffix(text, k, ">", i);
      var gt := FindFrom(s, ">", i);
      if ValidTagAt(s, i) && gt.Some? {
        SliceOfSuffix(text, k, i, gt.value + 1);
      } else {
        NextTagInSuffix(text, k, i + 1);
      }
    }
  }

  /** The nearer of the two prefix searches, with the kind of tag it announces. */
  method NearestPrefix(text: string) returns (container: bool, pos: Option<nat>)
    ensures pos.Some? ==> pos.value <= |text| && container == At(text, pos.value, CALLS)
    ensures NextTag(text, 0) == if pos.Some? then NextTag(text, pos.value) else None
  {
    hide At; hide ExtractAttr; hide ValidTagAt; hide NextTag;
    var callPos := FindTagPrefix(text, "tool_call");
    var callsPos := FindFrom(text, CALLS, 0);
    assert "<" + "tool_call" == CALL;
    forall k: nat ensures At(text, k, CALLS) <==> At(text, k, CALL) && PluralAt(text, k, CALL)
                  ensures ValidTagAt(text, k) ==> At(text, k, CALL)
    { Extensions(text, k); }
    match (callPos, callsPos)
    case (Some(c), Some(cs)) =>
      container, pos := c > cs, Some(if c <= cs then c else cs);
      SkipToPrefix(text, 0, pos.value);
    case (Some(c), None) =>
      container, pos := false, Some(c);
      SkipToPrefix(text, 0, c);
    case (None, Some(cs)) =>
      container, pos := true, Some(cs);
      SkipToPrefix(text, 0, cs);
    case (None, None) =>
      container, pos := false, None;
      SkipToPrefix(text, 0, |text|);
      NoTagAtEnd(text);
  }

  lemma NoTagAtEnd(text: string)
    ensures NextTag(text, |text|) == None
  {
  }

  predicate Recognised(openTag: string) {
    || "<tool_call>" <= openTag || "<tool_call " <= openTag
    || "<tool_calls>" <= openTag || "<tool_calls " <= openTag
  }

  /** `find_next_tag`: the nearest prefix, validated, else a retry right behind it. */
  method FindNextTag(text: string) returns (r: Option<TagMatch>)
    ensures r == NextTag(text, 0)
    decreases |text|
  {
    hide At; hide ExtractAttr; hide ValidTagAt; hide NextTag; hide Recognised;
    var container, nearest := NearestPrefix(text);
    if nearest.None? { return None; }
    var pos := nearest.value;
    var gt := FindFrom(text, ">", pos);
    if gt.None? {
      NoTagWithoutGt(text, pos);
      return None;
    }
    var openTag := text[pos..gt.value + 1];
    var valid := Recognised(openTag);
    ValidIsValidTagAt(text, pos, gt.value);
    NextTagHere(text, pos, gt.value);
    if !valid {
      var next := FindNextTag(text[pos + 1..]);
      NextTagInSuffix(text, pos + 1, 0);
      return Shift(next, pos + 1);
    }
    return Some(TagMatch(container, ExtractAttr(openTag, "name"), pos, gt.value + 1));
  }

  lemma NextTagHere(text: string, pos: nat, gt: nat)
    requires pos < |text| && FindFrom(text, ">", pos) == Some(gt)
    ensures NextTag(text, pos) ==
              if ValidTagAt(text, pos)
              then Some(TagMatch(At(text, pos, CALLS), ExtractAttr(text[pos..gt + 1], "name"), pos, gt + 1))
              else NextTag(text, pos + 1)
  {
    hide At; hide ExtractAttr; hide ValidTagAt;
  }

  lemma ValidIsValidTagAt(text: string, pos: nat, gt: nat)
    requires pos <= |text| && FindFrom(text, ">", pos) == Some(gt)
    ensures Recognised(text[pos..gt + 1]) == ValidTagAt(text, pos)
  {
    hide At;
    OpenTagStarts(text, pos, gt, "<tool_call>"); OpenTagStarts(text, pos, gt, "<tool_call ");
    OpenTagStarts(text, pos, gt, "<tool_calls>"); OpenTagStarts(text, pos, gt, "<tool_calls ");
  }

  lemma {:induction false} NoTagWithoutGt(text: string, i: nat)
    requires i <= |text| && FindFrom(text, ">", i).None?
    ensures NextTag(text, i) == None
    decreases |text| - i
  {
    hide At; hide ExtractAttr; hide ValidTagAt;
    if i < |text| { NoTagWithoutGt(text, i + 1); }
  }

  /** `value` is the text quoted behind the first `name=` in the tag. */
  ghost predicate QuotedName(openTag: string, p: nat, value: string) {
    && At(openTag, p, "name=\"") && (forall j: nat | j < p :: !At(openTag, j, "name=\""))
    && At(openTag, p + 6, value + "\"") && value != "" && '"' !in value
  }

  /** The name of a tag is what its first `name=` quotes, and it has none if that is empty or unfinished. */
  lemma NameIsQuoted(openTag: string, p: nat, value: string)
    ensures QuotedName(openTag, p, value) ==> ExtractAttr(openTag, "name") == Some(value)
    ensures ExtractAttr(openTag, "name").Some? ==>
              exists q: nat :: QuotedName(openTag, q, ExtractAttr(openTag, "name").value)
  {
    assert "name" + "=\"" == "name=\"";
    var first := FindFrom(openTag, "name=\"", 0);
    if first.Some? {
      var rest := openTag[first.value + 6..];
      var end := FindFrom(rest, "\"", 0);
      if end.Some? && rest[..end.value] != "" {
        QuoteAt(openTag, first.value + 6, end.value);
        assert QuotedName(openTag, first.value, rest[..end.value]);
      }
      if QuotedName(openTag, p, value) {
        assert p == first.value;
        QuoteEnds(openTag, p + 6, value);
      }
    }
  }

  lemma QuoteAt(openTag: string, from: nat, end: nat)
    requires from <= |openTag| && FindFrom(openTag[from..], "\"", 0) == Some(end)
    ensures At(openTag, from, openTag[from..][..end] + "\"") && '"' !in openTag[from..][..end]
  {
    var rest := openTag[from..];
    assert openTag[from..from + end + 1] == rest[..end] + rest[end..end + 1];
    forall j: nat | j < end ensures rest[j] != '"' { AtOne(rest, j, '"'); }
  }

  lemma QuoteEnds(openTag: string, from: nat, value: string)
    requires from <= |openTag| && At(openTag, from, value + "\"") && '"' !in value
    ensures FindFrom(openTag[from..], "\"", 0) == Some(|value|) && openTag[from..][..|value|] == value
  {
    var rest := openTag[from..];
    assert rest[..|value| + 1] == openTag[from..from + |value| + 1] == value + "\"";
    assert rest[..|value|] == rest[..|value| + 1][..|value|] == value;
    assert rest[|value|] == rest[..|value| + 1][|value|];
    forall j: nat | j <= |value| ensures At(rest, j, "\"") <==> j == |value| {
      AtOne(rest, j, '"');
      if j < |value| { assert rest[j] == value[j]; }
    }
    assert At(rest, |value|, "\"");
  }

  /** A recognised beginning of a container tag, or of a call's, stands at `i`. */
  ghost predicate Begins(text: string, i: nat, container: bool) {
    if container then At(text, i, "<tool_calls>") || At(text, i, "<tool_calls ")
    else At(text, i, "<tool_call>") || At(text, i, "<tool_call ")
  }

  lemma BeginsAsOne(text: string, i: nat)
    ensures ValidTagAt(text, i) <==> Begins(text, i, true) || Begins(text, i, false)
    ensures Begins(text, i, true) ==> At(text, i, CALLS)
    ensures Begins(text, i, false) ==> !At(text, i, CALLS)
  {
    AtChar(text, i, "<tool_call>", 10); AtChar(text, i, "<tool_call ", 10); AtChar(text, i, CALLS, 10);
    hide At;
    AtConcat(text, i, CALLS, ">"); AtConcat(text, i, CALLS, " ");
    assert "<tool_calls>" == CALLS + ">" && "<tool_calls " == CALLS + " ";
  }

  /** What `NextTag` promises: the tag found begins in a recognised way, which tells its kind, ends at its first '>',
      has the name quoted in between, and nothing before it begins so; no tag found means that no recognised beginning
      has a '>' behind it. */
  lemma {:induction false} NextTagIsNearest(text: string, i: nat)
    requires i <= |text|
    ensures var r := NextTag(text, i);
            && (r.Some? ==>
                  && Begins(text, r.value.start, r.value.container)
                  && At(text, r.value.openEnd - 1, ">")
                  && (forall j: nat :: r.value.start <= j < r.value.openEnd - 1 ==> !At(text, j, ">"))
                  && r.value.name == ExtractAttr(text[r.value.start..r.value.openEnd], "name")
                  && forall j: nat, c :: i <= j < r.value.start ==> !Begins(text, j, c))
            && (r.None? ==> forall j: nat, k: nat, c :: i <= j <= k && Begins(text, j, c) ==> !At(text, k, ">"))
    decreases |text| - i
  {
    hide At; hide ExtractAttr; hide ValidTagAt; hide Begins;
    BeginsAsOne(text, i);
    if i == |text| {
      Extensions(text, i);
      NoneBegins(text, i);
    } else {
      var gt := FindFrom(text, ">", i);
      if !(ValidTagAt(text, i) && gt.Some?) {
        NextTagIsNearest(text, i + 1);
        if gt.None? { NoTagWithoutGt(text, i); }
      }
    }
  }

  lemma NoneBegins(text: string, i: nat)
    requires i >= |text|
    ensures forall j: nat, c :: i <= j ==> !Begins(text, j, c)
  {
  }

  // ── Calls ─────────────────────────────────────────────────────

  /** Parameters of a call whose name came from the tag: the body as JSON object, or as plain input. */
  function BodyParameters(env: Backend, body: string): Json {
    if body == "" then Object(map[])
    else match env.decode(body)
      case Some(Object(fields)) =>
        Object(if "tool" !in fields && "name" !in fields then fields["input" := Str(body)] else fields)
      case _ => Object(map["input" := Str(body)])
  }

  /** The call a closed block stands for; a nameless block whose JSON does not decode yields none. */
  function BlockCalls(env: Backend, name: Option<string>, body: string): seq<ToolCall> {
    match name
    case Some(n) => [ToolCall(n, BodyParameters(env, Trim(body)))]
    case None =>
      match env.callFromJson(Trim(body))
      case Some(call) => [call]
      case None => []
  }

  /** The fallbacks, tried in turn only while no call has been found. */
  function WithFallbacks(env: Backend, text: string, names: seq<string>, clean: string, calls: seq<ToolCall>)
    : (string, seq<ToolCall>)
  {
    var calls' := if calls == [] then env.markdownCalls(text) else calls;
    if calls' == [] && names != [] then
      var (rawClean, raw) := env.rawCalls(text, names);
      if raw != [] then (rawClean, raw) else (clean, calls')
    else (clean, calls')
  }

  /** Untrimmed clean text and calls of the blocks in `text`. */
  function Scan(env: Backend, text: string, names: seq<string>): (string, seq<ToolCall>)
    decreases |text|, 0
  {
    match NextTag(text, 0)
    case None => (text, [])
    case Some(tag) =>
      var after := text[tag.openEnd..];
      if tag.container then
        var (inner, rest) := TagBody.Body(after, "tool_calls");
        var innerCalls := if inner == "" then [] else Parse(env, inner, names).1;
        var (clean, calls) := Scan(env, rest, names);
        (text[..tag.start] + clean, innerCalls + calls)
      else
        var (body, rest) := TagBody.Body(after, "tool_call");
        if rest == "" && body == after then (text, [])
        else
          var (clean, calls) := Scan(env, rest, names);
          (text[..tag.start] + clean, BlockCalls(env, tag.name, body) + calls)
  }

  /** Clean text and calls of a whole answer. */
  function Parse(env: Backend, text: string, names: seq<string>): (string, seq<ToolCall>)
    decreases |text|, 1
  {
    var (clean, calls) := Scan(env, text, names);
    WithFallbacks(env, text, names, Trim(clean), calls)
  }

  lemma TagNamesValid()
    ensures TagBody.ValidTag("tool_call") && TagBody.ValidTag("tool_calls")
  {
  }

  lemma ScanEnds(env: Backend, text: string, names: seq<string>)
    requires NextTag(text, 0) == None
    ensures Scan(env, text, names) == (text, [])
  {
  }

  lemma ScanContainer(env: Backend, text: string, names: seq<string>, tag: TagMatch)
    requires NextTag(text, 0) == Some(tag) && tag.container
    ensures var (inner, rest) := TagBody.Body(text[tag.openEnd..], "tool_calls");
            Scan(env, text, names) ==
              (text[..tag.start] + Scan(env, rest, names).0,
               (if inner == "" then [] else Parse(env, inner, names).1) + Scan(env, rest, names).1)
  {
    hide NextTag; hide TagBody.Body; hide Parse;
  }

  lemma ScanCall(env: Backend, text: string, names: seq<string>, tag: TagMatch)
    requires NextTag(text, 0) == Some(tag) && !tag.container
    ensures var after := text[tag.openEnd..];
            var (body, rest) := TagBody.Body(after, "tool_call");
            Scan(env, text, names) ==
              if rest == "" && body == after then (text, [])
              else (text[..tag.start] + Scan(env, rest, names).0,
                    BlockCalls(env, tag.name, body) + Scan(env, rest, names).1)
  {
    hide NextTag; hide TagBody.Body; hide BlockCalls;
  }

  /** What the parser returns once its loop has read every block. */
  method Finish(env: Backend, text: string, names: seq<string>, clean: string, calls: seq<ToolCall>)
    returns (cleanText: string, toolCalls: seq<ToolCall>)
    ensures (cleanText, toolCalls) == WithFallbacks(env, text, names, Trim(clean), calls)
  {
    cleanText, toolCalls := Trim(clean), calls;
    if toolCalls == [] {
      var markdown := env.markdownCalls(text);
      if markdown != [] { toolCalls := markdown; }
    }
    if toolCalls == [] && names != [] {
      var (rawClean, raw) := env.rawCalls(text, names);
      if raw != [] { cleanText, toolCalls := rawClean, raw; }
    }
  }

  /** `parse_tool_calls`: consumes the text tag by tag and recurses into containers. */
  method ParseToolCalls(env: Backend, text: string, names: seq<string>)
    returns (cleanText: string, toolCalls: seq<ToolCall>)
    ensures (cleanText, toolCalls) == Parse(env, text, names)
    decreases |text|
  {
    hide NextTag; hide TagBody.Body; hide BlockCalls; hide Scan; hide Trim; hide WithFallbacks;
    TagNamesValid();
    cleanText, toolCalls := "", [];
    var remaining := text;
    while true
      invariant |remaining| <= |text|
      invariant Scan(env, text, names).0 == cleanText + Scan(env, remaining, names).0
      invariant Scan(env, text, names).1 == toolCalls + Scan(env, remaining, names).1
      decreases |remaining|
    {
      var found := FindNextTag(remaining);
      if found.None? {
        ScanEnds(env, remaining, names);
        break;
      }
      var tag := found.value;
      var before, after := remaining[..tag.start], remaining[tag.openEnd..];
      if tag.container {
        ScanContainer(env, remaining, names, tag);
        var inner, rest := TagBody.FindTagBody(after, "tool_calls");
        if inner != "" {
          var _, innerCalls := ParseToolCalls(env, inner, names);
          toolCalls := toolCalls + innerCalls;
        }
        cleanText := cleanText + before;
        remaining := rest;
      } else {
        ScanCall(env, remaining, names, tag);
        var body, rest := TagBody.FindTagBody(after, "tool_call");
        if rest == "" && body == after {
          cleanText := cleanText + before + remaining[tag.start..];
          assert before + remaining[tag.start..] == remaining;
          remaining := "";
          NothingInEmptyText();
          ScanEnds(env, "", names);
          break;
        }
        cleanText := cleanText + before;
        toolCalls := toolCalls + BlockCalls(env, tag.name, body);
        remaining := rest;
      }
    }
    assert Scan(env, text, names).0 == cleanText + remaining && Scan(env, text, names).1 == toolCalls;
    cleanText, toolCalls := Finish(env, text, names, cleanText + remaining, toolCalls);
  }

  lemma NothingInEmptyText()
    ensures NextTag("", 0) == None
  {
  }
}
