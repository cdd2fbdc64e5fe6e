/** The streamed assistant bubble and its rollback when the model call is retried (`handle_stream_event`). */
module StreamRetry {
  import opened Wrappers
  import opened Text
  import opened Chat
  import Scrollback

  const ERROR_STYLE: Style := 1

  /** Where the current stream began: at new lines, or inside an assistant line of some length. */
  datatype Anchor = NewLines(idx: nat) | AppendInto(line: nat, len: nat)

  datatype Bubble = Bubble(lines: seq<ChatLine>, anchor: Option<Anchor>)

  datatype Event =
    | Delta(content: string)
    | Retrying
    | StreamEnd
    | Done
    | Error(message: string)
    | Pushed(lines: seq<ChatLine>)   // tool results and notices

  predicate IsToolJson(content: string) {
    FindFrom(content, "\"name\":", 0).Some? || FindFrom(content, "\"function\":", 0).Some?
  }

  predicate Blank(content: string) { forall i | 0 <= i < |content| :: IsWhitespace(content[i]) }

  predicate EndsWithAssistant(lines: seq<ChatLine>) {
    lines != [] && lines[|lines| - 1].style == DEFAULT_STYLE
  }

  /** Fragments that look like tool-call JSON are not shown, nor whitespace where no text precedes it. */
  predicate Skipped(lines: seq<ChatLine>, content: string) {
    || IsToolJson(content)
    || (Blank(content) && (lines == [] || lines[|lines| - 1].text == "" || lines[|lines| - 1].style != DEFAULT_STYLE))
  }

  function Write(lines: seq<ChatLine>, content: string): seq<ChatLine> {
    if EndsWithAssistant(lines) then
      var last := lines[|lines| - 1];
      lines[..|lines| - 1] + [last.(text := last.text + content)]
    else
      lines + [ChatLine("", DEFAULT_STYLE)] + if Blank(content) then [] else [ChatLine(content, DEFAULT_STYLE)]
  }

  function AnchorFor(lines: seq<ChatLine>): Anchor {
    if EndsWithAssistant(lines) then AppendInto(|lines| - 1, |lines[|lines| - 1].text|) else NewLines(|lines|)
  }

  /** Truncation to the anchor. */
  function Rollback(b: Bubble): seq<ChatLine> {
    match b.anchor
    case None => b.lines
    case Some(NewLines(idx)) => if idx <= |b.lines| then b.lines[..idx] else b.lines
    case Some(AppendInto(line, len)) =>
      if line < |b.lines| then
        var l := b.lines[line];
        b.lines[..line] + [l.(text := if len <= |l.text| then l.text[..len] else l.text)]
      else b.lines
  }

  function Apply(b: Bubble, e: Event): Bubble {
    match e
    case Delta(content) =>
      if Skipped(b.lines, content) then b
      else Bubble(Write(b.lines, content), if b.anchor.None? then Some(AnchorFor(b.lines)) else b.anchor)
    case Retrying => Bubble(Rollback(b), None)
    case StreamEnd => b.(anchor := None)
    case Done => b.(anchor := None)
    case Error(message) => Bubble(b.lines + [ChatLine("✗ Error: " + message, ERROR_STYLE)], None)
    case Pushed(lines) => b.(lines := b.lines + lines)
  }

  function Run(b: Bubble, events: seq<Event>): Bubble {
    if events == [] then b else Apply(Run(b, events[..|events| - 1]), events[|events| - 1])
  }

  class App {
    var lines: seq<ChatLine>
    var streamAnchor: Option<Anchor>

    constructor ()
      ensures State() == Bubble([], None)
    {
      lines, streamAnchor := [], None;
    }

    function State(): Bubble
      reads this
    {
      Bubble(lines, streamAnchor)
    }

    method HandleStreamEvent(e: Event)
      modifies this
      ensures State() == Apply(old(State()), e)
    {
      match e {
        case Delta(content) =>
          if !IsToolJson(content) {
            var whitespaceOnly := Blank(content);
            var lastBlank := lines == [] || lines[|lines| - 1].text == "";
            var lastNonAssistant := lines != [] && lines[|lines| - 1].style != DEFAULT_STYLE;
            var skip := whitespaceOnly && (lastBlank || lastNonAssistant);
            if !skip {
              var appendIntoExisting := lines != [] && lines[|lines| - 1].style == DEFAULT_STYLE;
              if streamAnchor.None? {
                streamAnchor := Some(if appendIntoExisting then AppendInto(|lines| - 1, |lines[|lines| - 1].text|)
                                     else NewLines(|lines|));
              }
              if appendIntoExisting {
                var last := lines[|lines| - 1];
                lines := lines[..|lines| - 1] + [last.(text := last.text + content)];
              } else {
                lines := lines + [ChatLine("", DEFAULT_STYLE)];
                if !whitespaceOnly {
                  lines := lines + [ChatLine(content, DEFAULT_STYLE)];
                }
              }
            }
          }
        case Retrying =>
          var anchor := streamAnchor;
          streamAnchor := None;
          match anchor {
            case Some(NewLines(idx)) =>
              lines := if idx <= |lines| then lines[..idx] else lines;
            case Some(AppendInto(line, len)) =>
              lines := if line + 1 <= |lines| then lines[..line + 1] else lines;
              if line < |lines| {
                var l := lines[line];
                lines := lines[line := l.(text := if len <= |l.text| then l.text[..len] else l.text)];
              }
            case None =>
          }
        case StreamEnd =>
          streamAnchor := None;
        case Done =>
          streamAnchor := None;
        case Error(message) =>
          lines := lines + [ChatLine("✗ Error: " + message, ERROR_STYLE)];
          streamAnchor := None;
        case Pushed(pushed) =>
          lines := lines + pushed;
      }
    }
  }

  // ── What a stream leaves ──────────────────────────────────────

  /** The fragments that do not look like tool-call JSON. */
  ghost function Texts(contents: seq<string>): seq<string> {
    if contents == [] then []
    else
      var last := contents[|contents| - 1];
      Texts(contents[..|contents| - 1])
      + if Contains(last, "\"name\":") || Contains(last, "\"function\":") then [] else [last]
  }

  /** Fragments without those in front that hold whitespace only. */
  ghost function WithoutBlankStart(contents: seq<string>): seq<string> {
    if contents != [] && (forall i | 0 <= i < |contents[0]| :: IsWhitespace(contents[0][i]))
    then WithoutBlankStart(contents[1..])
    else contents
  }

  function Joined(contents: seq<string>): string {
    if contents == [] then "" else Joined(contents[..|contents| - 1]) + contents[|contents| - 1]
  }

  /** The fragments to be seen behind `lines`: whitespace comes only after text of the assistant's. */
  ghost function Shown(lines: seq<ChatLine>, contents: seq<string>): seq<string> {
    if lines != [] && lines[|lines| - 1].style == DEFAULT_STYLE && lines[|lines| - 1].text != ""
    then Texts(contents)
    else WithoutBlankStart(Texts(contents))
  }

  /** They continue the assistant's line, or come on one line of their own behind an empty one. */
  ghost function Streamed(lines: seq<ChatLine>, contents: seq<string>): seq<ChatLine> {
    var shown := Shown(lines, contents);
    if shown == [] then lines
    else if lines != [] && lines[|lines| - 1].style == DEFAULT_STYLE then
      lines[..|lines| - 1] + [ChatLine(lines[|lines| - 1].text + Joined(shown), DEFAULT_STYLE)]
    else lines + [ChatLine("", DEFAULT_STYLE), ChatLine(Joined(shown), DEFAULT_STYLE)]
  }

  lemma {:induction false} WithoutBlankStartSnoc(contents: seq<string>, last: string)
    ensures WithoutBlankStart(contents + [last])
         == if WithoutBlankStart(contents) == [] && Blank(last) then [] else WithoutBlankStart(contents) + [last]
    ensures WithoutBlankStart(contents) != [] ==> !Blank(WithoutBlankStart(contents)[0])
    decreases |contents|
  {
    if contents == [] {
      assert [last][1..] == [];
    } else if Blank(contents[0]) {
      assert (contents + [last])[1..] == contents[1..] + [last];
      WithoutBlankStartSnoc(contents[1..], last);
    }
  }

  lemma ShownSnoc(lines: seq<ChatLine>, contents: seq<string>, last: string)
    ensures Shown(lines, contents + [last])
         == if IsToolJson(last)
               || (Shown(lines, contents) == [] && Blank(last)
                   && (lines == [] || lines[|lines| - 1].style != DEFAULT_STYLE || lines[|lines| - 1].text == ""))
            then Shown(lines, contents) else Shown(lines, contents) + [last]
  {
    TextsSnoc(contents, last);
    WithoutBlankStartSnoc(Texts(contents), last);
    hide Blank; hide IsToolJson; hide Texts; hide WithoutBlankStart;
  }

  lemma TextsSnoc(contents: seq<string>, last: string)
    ensures Texts(contents + [last]) == if IsToolJson(last) then Texts(contents) else Texts(contents) + [last]
  {
    assert (contents + [last])[..|contents|] == contents;
    assert FindFrom(last, "\"name\":", 0).Some? <==> Contains(last, "\"name\":");
    assert FindFrom(last, "\"function\":", 0).Some? <==> Contains(last, "\"function\":");
  }

  lemma {:induction false} JoinedStart(contents: seq<string>)
    requires contents != []
    ensures contents[0] <= Joined(contents)
  {
    if |contents| > 1 { JoinedStart(contents[..|contents| - 1]); }
  }

  /** A fragment behind what was streamed continues it. */
  lemma StreamedSnoc(lines: seq<ChatLine>, contents: seq<string>, last: string)
    ensures var before := Streamed(lines, contents);
            Streamed(lines, contents + [last]) == if Skipped(before, last) then before else Write(before, last)
  {
    hide IsToolJson; hide Blank; hide Shown; hide Joined;
    ShownSnoc(lines, contents, last);
    var shown := Shown(lines, contents);
    JoinedSnoc(shown, last);
    if shown != [] {
      JoinedStart(shown);
      ShownStart(lines, contents);
      var before := Streamed(lines, contents);
      var front := before[..|before| - 1];
      if EndsWithAssistant(lines) {
        var text := lines[|lines| - 1].text;
        assert text + Joined(shown) + last == text + (Joined(shown) + last) && front == lines[..|lines| - 1];
      } else {
        assert front + [ChatLine(Joined(shown) + last, DEFAULT_STYLE)]
            == lines + [ChatLine("", DEFAULT_STYLE), ChatLine(Joined(shown) + last, DEFAULT_STYLE)];
      }
    } else {
      assert Streamed(lines, contents) == lines && Joined(shown + [last]) == last;
      var empty, line := ChatLine("", DEFAULT_STYLE), ChatLine(last, DEFAULT_STYLE);
      assert lines + [empty] + [line] == lines + [empty, line];
    }
  }

  lemma JoinedSnoc(contents: seq<string>, last: string)
    ensures Joined(contents + [last]) == Joined(contents) + last && Joined([]) == ""
  {
    assert (contents + [last])[..|contents|] == contents;
  }

  /** The first fragment shown holds text, unless text stands before it. */
  lemma ShownStart(lines: seq<ChatLine>, contents: seq<string>)
    requires Shown(lines, contents) != []
    ensures Shown(lines, contents)[0] != ""
         || (lines != [] && lines[|lines| - 1].style == DEFAULT_STYLE && lines[|lines| - 1].text != "")
  {
    WithoutBlankStartSnoc(Texts(contents), "");
  }

  /** What the fragments of a stream leave, whatever the anchor. */
  lemma {:induction false} StreamLeaves(b: Bubble, contents: seq<string>)
    ensures Run(b, Deltas(contents)).lines == Streamed(b.lines, contents)
  {
    hide Skipped; hide Write; hide Streamed;
    if contents == [] {
      NothingStreamed(b.lines);
    } else {
      var before, last := contents[..|contents| - 1], contents[|contents| - 1];
      assert contents == before + [last];
      assert Deltas(contents)[..|contents| - 1] == Deltas(before);
      StreamLeaves(b, before);
      StreamedSnoc(b.lines, before, last);
    }
  }

  lemma NothingStreamed(lines: seq<ChatLine>)
    ensures Streamed(lines, []) == lines
  {
  }

  /** A stream that ends well leaves its fragments, joined, and no anchor; one that ends in an error leaves the error
      behind them, and a retry after it takes nothing back. */
  lemma AttemptLeaves(b: Bubble, contents: seq<string>, message: string)
    ensures Run(b, Deltas(contents) + [StreamEnd]) == Bubble(Streamed(b.lines, contents), None)
    ensures Run(b, Deltas(contents) + [Done]) == Bubble(Streamed(b.lines, contents), None)
    ensures Run(b, Deltas(contents) + [Error(message), Retrying])
         == Bubble(Streamed(b.lines, contents) + [ChatLine("✗ Error: " + message, ERROR_STYLE)], None)
  {
    hide Streamed;
    StreamLeaves(b, contents);
    var streamed := Run(b, Deltas(contents));
    RunConcat(b, Deltas(contents), [StreamEnd]);
    RunConcat(b, Deltas(contents), [Done]);
    RunConcat(b, Deltas(contents), [Error(message), Retrying]);
    RunConcat(streamed, [Error(message)], [Retrying]);
    OneEvent(streamed, StreamEnd);
    OneEvent(streamed, Done);
    OneEvent(streamed, Error(message));
    OneEvent(Apply(streamed, Error(message)), Retrying);
    assert [Error(message)] + [Retrying] == [Error(message), Retrying];
  }

  /** Lines pushed into a stream stay where they came, and what is streamed later comes behind them. */
  lemma PushedLinesStay(b: Bubble, earlier: seq<string>, lines: seq<ChatLine>, later: seq<string>)
    ensures Run(b, Deltas(earlier) + [Pushed(lines)] + Deltas(later)).lines
         == Streamed(Streamed(b.lines, earlier) + lines, later)
  {
    hide Streamed;
    StreamLeaves(b, earlier);
    RunConcat(b, Deltas(earlier) + [Pushed(lines)], Deltas(later));
    RunConcat(b, Deltas(earlier), [Pushed(lines)]);
    OneEvent(Run(b, Deltas(earlier)), Pushed(lines));
    StreamLeaves(Apply(Run(b, Deltas(earlier)), Pushed(lines)), later);
  }

  // ── Retries leave no trace ────────────────────────────────────

  predicate Streaming(e: Event) { e.Delta? || e.Pushed? }

  /** The bubble can be rolled back to `base`. */
  ghost predicate BackTo(b: Bubble, base: seq<ChatLine>) {
    match b.anchor
    case None => b.lines == base
    case Some(NewLines(idx)) => idx == |base| && idx < |b.lines| && b.lines[..idx] == base
    case Some(AppendInto(line, len)) =>
      && line + 1 == |base| <= |b.lines| && b.lines[..line] == base[..line]
      && len == |base[line].text| && base[line].text <= b.lines[line].text && b.lines[line].style == base[line].style
  }

  lemma BackToRestores(b: Bubble, base: seq<ChatLine>)
    requires BackTo(b, base)
    ensures Rollback(b) == base
  {
    if b.anchor.Some? && b.anchor.value.AppendInto? {
      var line := b.anchor.value.line;
      assert base == base[..line] + [base[line]];
      assert b.lines[line].text[..|base[line].text|] == base[line].text;
    }
  }

  /** In the terms of the scrollback, the lines a retry takes back have grown from those it restores. */
  lemma RolledBackLinesHaveGrown(b: Bubble, base: seq<ChatLine>)
    requires BackTo(b, base)
    ensures Rollback(b) == base && Scrollback.Grown(base, b.lines)
  {
    BackToRestores(b, base);
    if b.anchor.Some? && b.anchor.value.AppendInto? {
      assert b.lines[..|base| - 1] == base[..|base| - 1];
    } else if base != [] {
      assert b.lines[..|base|][..|base| - 1] == base[..|base| - 1];
    }
  }

  lemma DeltaKeepsBack(b: Bubble, base: seq<ChatLine>, content: string)
    requires BackTo(b, base)
    ensures BackTo(Apply(b, Delta(content)), base)
  {
  }

  /** Text of a stream under way, and lines pushed meanwhile, stay behind its anchor. */
  lemma {:induction false} StreamKeepsBack(b: Bubble, base: seq<ChatLine>, events: seq<Event>)
    requires BackTo(b, base)
    requires forall e | e in events :: Streaming(e)
    requires b.anchor.Some? || forall e | e in events :: e.Delta?
    ensures BackTo(Run(b, events), base)
    ensures b.anchor.Some? ==> Run(b, events).anchor == b.anchor
  {
    hide IsToolJson; hide Blank;
    if events != [] {
      var before, e := events[..|events| - 1], events[|events| - 1];
      StreamKeepsBack(b, base, before);
      assert e in events;
      if e.Delta? { DeltaKeepsBack(Run(b, before), base, e.content); }
    }
  }

  lemma {:induction false} RunConcat(b: Bubble, xs: seq<Event>, ys: seq<Event>)
    ensures Run(b, xs + ys) == Run(Run(b, xs), ys)
  {
    if ys == [] {
      assert xs + ys == xs;
    } else {
      assert (xs + ys)[..|xs + ys| - 1] == xs + ys[..|ys| - 1];
      RunConcat(b, xs, ys[..|ys| - 1]);
    }
  }

  function Deltas(contents: seq<string>): seq<Event> {
    seq(|contents|, i requires 0 <= i < |contents| => Delta(contents[i]))
  }

  /** The events of attempts that each failed and was retried. */
  function Failed(attempts: seq<seq<string>>): seq<Event> {
    if attempts == [] then [] else Failed(attempts[..|attempts| - 1]) + (Deltas(attempts[|attempts| - 1]) + [Retrying])
  }

  lemma {:induction false} FailedLeaveNoTrace(b: Bubble, attempts: seq<seq<string>>)
    requires b.anchor == None
    ensures Run(b, Failed(attempts)) == b
  {
    if attempts != [] {
      var before, last := attempts[..|attempts| - 1], Deltas(attempts[|attempts| - 1]);
      FailedLeaveNoTrace(b, before);
      RunConcat(b, Failed(before), last + [Retrying]);
      RunConcat(b, last, [Retrying]);
      StreamKeepsBack(b, b.lines, last);
      BackToRestores(Run(b, last), b.lines);
      OneEvent(Run(b, last), Retrying);
    }
  }

  lemma OneEvent(b: Bubble, e: Event)
    ensures Run(b, [e]) == Apply(b, e)
  {
    assert [e][..0] == [];
  }

  /** Any number of failed attempts followed by one that succeeds leaves exactly what that one alone leaves,
      whether it opens a bubble or continues one, and no anchor. */
  lemma RetriesAreInvisible(b: Bubble, attempts: seq<seq<string>>, contents: seq<string>)
    requires b.anchor == None
    ensures Run(b, Failed(attempts) + (Deltas(contents) + [StreamEnd])) == Run(b, Deltas(contents) + [StreamEnd])
    ensures Run(b, Deltas(contents) + [StreamEnd]).anchor == None
  {
    RunConcat(b, Failed(attempts), Deltas(contents) + [StreamEnd]);
    FailedLeaveNoTrace(b, attempts);
    RunConcat(b, Deltas(contents), [StreamEnd]);
    OneEvent(Run(b, Deltas(contents)), StreamEnd);
  }

  /** Once the stream has written, a retry restores the lines it started from, whatever was streamed or pushed since. */
  lemma RetryRestores(b: Bubble, content: string, events: seq<Event>)
    requires b.anchor == None && !Skipped(b.lines, content)
    requires forall e | e in events :: Streaming(e)
    ensures Run(b, [Delta(content)] + events + [Retrying]) == b
  {
    hide Skipped;
    var first := Apply(b, Delta(content));
    RunConcat(b, [Delta(content)] + events, [Retrying]);
    RunConcat(b, [Delta(content)], events);
    OneEvent(b, Delta(content));
    DeltaKeepsBack(b, b.lines, content);
    StreamKeepsBack(first, b.lines, events);
    BackToRestores(Run(first, events), b.lines);
    OneEvent(Run(first, events), Retrying);
  }
}
