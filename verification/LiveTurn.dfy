/** One turn as the terminal client lives it: streamed events change the lines, and the screen is drawn in between. */
module LiveTurn {
  import opened Wrappers
  import opened Text
  import opened Chat
  import opened Wrapping
  import S = Scrollback
  import R = StreamRetry

  datatype Event = Streamed(e: R.Event) | Drawn(inputLines: nat)

  /** The bubble after the streamed ones of the events. */
  function BubbleAfter(b: R.Bubble, events: seq<Event>): R.Bubble {
    if events == [] then b
    else
      var before := BubbleAfter(b, events[..|events| - 1]);
      match events[|events| - 1]
      case Streamed(e) => R.Apply(before, e)
      case Drawn(_) => before
  }

  /** What the events are to the scrollback. */
  function Edits(b: R.Bubble, events: seq<Event>): seq<S.Event> {
    if events == [] then []
    else
      Edits(b, events[..|events| - 1]) +
      [match events[|events| - 1]
       case Streamed(_) => S.Edit(BubbleAfter(b, events).lines)
       case Drawn(inputLines) => S.Render(inputLines)]
  }

  const NO_BUBBLE := R.Bubble([], None)

  /** A turn of its own, from nothing in the active area. */
  function TurnAfter(build: S.RowBuilder, old_: seq<Row>, events: seq<Event>): S.Turn {
    S.Run(build, S.Turn([], 0, old_), Edits(NO_BUBBLE, events))
  }

  lemma OneMore(build: S.RowBuilder, old_: seq<Row>, events: seq<Event>, e: Event)
    ensures Edits(NO_BUBBLE, events + [e])
         == Edits(NO_BUBBLE, events) + [if e.Streamed? then S.Edit(BubbleAfter(NO_BUBBLE, events + [e]).lines)
                                        else S.Render(e.inputLines)]
    ensures BubbleAfter(NO_BUBBLE, events + [e])
         == if e.Streamed? then R.Apply(BubbleAfter(NO_BUBBLE, events), e.e) else BubbleAfter(NO_BUBBLE, events)
    ensures TurnAfter(build, old_, events + [e])
         == S.Apply(build, TurnAfter(build, old_, events),
                    if e.Streamed? then S.Edit(BubbleAfter(NO_BUBBLE, events + [e]).lines) else S.Render(e.inputLines))
  {
    assert (events + [e])[..|events|] == events;
    var edits, more := Edits(NO_BUBBLE, events), Edits(NO_BUBBLE, events + [e]);
    assert more[..|more| - 1] == edits;
  }

  lemma {:induction false} TurnHasTheLines(build: S.RowBuilder, old_: seq<Row>, events: seq<Event>)
    ensures TurnAfter(build, old_, events).lines == BubbleAfter(NO_BUBBLE, events).lines
  {
    if events != [] {
      var before, e := events[..|events| - 1], events[|events| - 1];
      assert events == before + [e];
      TurnHasTheLines(build, old_, before);
      OneMore(build, old_, before, e);
    }
  }

  /** For any row builder, however the model streams, fails and is retried and lines are pushed meanwhile: the
      scrollback ends as the rows of the finished turn if and only if every push was what they have at its place. */
  lemma LiveTurnEndsWellIff(build: S.RowBuilder, old_: seq<Row>, events: seq<Event>)
    requires S.SmallPushes(build, S.Turn([], 0, old_), Edits(NO_BUBBLE, events))
    requires var rows := S.DisplayRows(build, BubbleAfter(NO_BUBBLE, events).lines);
             |rows| - TurnAfter(build, old_, events).inserted < 0x1_0000
    ensures var rows := S.DisplayRows(build, BubbleAfter(NO_BUBBLE, events).lines);
            S.FinalizeTurn(build, TurnAfter(build, old_, events)).scrollback == old_ + rows
            <==> S.PushesMatch(build, S.Turn([], 0, old_), Edits(NO_BUBBLE, events), rows)
  {
    hide S.FinalizeTurn; hide S.DisplayRows; hide S.PushesMatch; hide S.SmallPushes; hide S.Run;
    TurnHasTheLines(build, old_, events);
    var start := S.Turn([], 0, old_);
    assert S.PushedRows(old_, start) == [];
    S.EndsWellIff(build, old_, start, Edits(NO_BUBBLE, events));
  }

  // ── Rows of long lines ────────────────────────────────────────

  function Newlines(n: nat): string {
    if n == 0 then "" else "\n" + Newlines(n - 1)
  }

  lemma {:induction false} NewlineRows(w: Widths, max: nat, p: Pen, n: nat, style: Style)
    ensures |Feed(w, max, p, Newlines(n), style).rows| == |p.rows| + n
    decreases n
  {
    hide PutWord;
    if n > 0 {
      assert Newlines(n)[1..] == Newlines(n - 1);
      NewlineRows(w, max, Flush(p), n - 1, style);
    }
  }

  lemma WrapOne(w: Widths, max: nat, s: string, style: Style)
    requires max > 0
    ensures Wrap(w, max, [Span(s, style)]) == Finish(Feed(w, max, BLANK, s, style))
  {
    hide Feed;
    assert [Span(s, style)][..0] == [];
    assert FeedSpans(w, max, BLANK, []) == BLANK;
    assert FeedSpans(w, max, BLANK, [Span(s, style)]) == Feed(w, max, BLANK, s, style);
  }

  /** Every newline is worth a row. */
  lemma ManyRows(w: Widths, max: nat, front: string, n: nat, style: Style)
    requires max > 0 && EndsInSpace(front)
    ensures |Wrap(w, max, [Span(front + Newlines(n), style)])| >= n
  {
    WrapOne(w, max, front + Newlines(n), style);
    FeedSplits(w, max, BLANK, front, Newlines(n), style);
    NewlineRows(w, max, Feed(w, max, BLANK, front, style), n, style);
    hide Feed;
  }

  lemma {:induction false} PutCharsFewRows(w: Widths, max: nat, p: Pen, s: string, style: Style)
    ensures |PutChars(w, max, p, s, style).rows| <= |p.rows| + |s|
  {
    if s != "" { PutCharsFewRows(w, max, p, s[..|s| - 1], style); }
  }

  lemma {:induction false} FeedFewRows(w: Widths, max: nat, p: Pen, s: string, style: Style)
    ensures |Feed(w, max, p, s, style).rows| <= |p.rows| + |s|
    decreases |s|
  {
    hide PutChars;
    if s != "" {
      if s[0] == '\n' {
        FeedFewRows(w, max, Flush(p), s[1..], style);
      } else {
        var word := s[..WordLen(s)];
        PutCharsFewRows(w, max, p, word, style);
        FeedFewRows(w, max, PutWord(w, max, p, word, style), s[WordLen(s)..], style);
      }
    }
  }

  /** No character is worth more than one. */
  lemma FewRows(w: Widths, max: nat, s: string, style: Style)
    requires max > 0
    ensures |Wrap(w, max, [Span(s, style)])| <= |s| + 1
  {
    WrapOne(w, max, s, style);
    FeedFewRows(w, max, BLANK, s, style);
    hide Feed;
  }

  // ── A push that is too large ──────────────────────────────────

  /** Lines of other styles than the assistant's are wrapped as they are. */
  ghost predicate PlainOnStyled(build: S.RowBuilder, w: Widths, width: nat) {
    forall l: ChatLine | l.style != DEFAULT_STYLE :: build(l) == S.PlainRows(w, width)(l)
  }

  /** An error message of 65554 lines, shown when it arrives, loses rows. */
  lemma HugeErrorLosesRows(build: S.RowBuilder, w: Widths, width: nat, old_: seq<Row>)
    requires PlainOnStyled(build, w, width)
    ensures var events := [Streamed(R.Error(Newlines(65554))), Drawn(1)];
            S.FinalizeTurn(build, TurnAfter(build, old_, events)).scrollback
            != old_ + S.DisplayRows(build, BubbleAfter(NO_BUBBLE, events).lines)
  {
    hide S.FinalizeTurn; hide Newlines; hide Wrap;
    var error, draw := Streamed(R.Error(Newlines(65554))), Drawn(1);
    var line := ChatLine("✗ Error: " + Newlines(65554), R.ERROR_STYLE);
    var start := S.Turn([], 0, old_);
    OneMore(build, old_, [], error);
    OneMore(build, old_, [] + [error], draw);
    assert [] + [error] + [draw] == [error, draw];
    assert [] + [line] == [line];
    S.OneLine(build, line);
    var max := if width == 0 then 1 else width;
    ManyRows(w, max, "✗ Error: ", 65554, R.ERROR_STYLE);
    hide S.DisplayRows;
    var drawn := TurnAfter(build, old_, [error, draw]);
    assert drawn.inserted == |build(line)| - 14;
    hide Edits; hide BubbleAfter;
    var edits := Edits(NO_BUBBLE, [error, draw]);
    assert edits == [S.Edit([line]), S.Render(1)] by { NoEdits(); }
    assert edits[..1] == [S.Edit([line])] && [S.Edit([line])][..0] == [];
    assert S.Run(build, start, edits[..1]) == start.(lines := [line]);
    assert !S.SmallPushes(build, start, edits);
    S.HugePushFallsShort(build, old_, start, edits);
    S.FinalPushFallsShort(build, old_, drawn);
  }

  lemma NoEdits()
    ensures Edits(NO_BUBBLE, []) == [] && BubbleAfter(NO_BUBBLE, []) == NO_BUBBLE
  {
  }

  // ── A retry after rows were pushed ────────────────────────────

  /** The lines of an answer that opens a bubble. */
  function Answer(content: string): seq<ChatLine> {
    [ChatLine("", DEFAULT_STYLE), ChatLine(content, DEFAULT_STYLE)]
  }

  function FailThenAnswer(long: string, short: string): seq<Event> {
    [Streamed(R.Delta(long)), Drawn(1), Streamed(R.Retrying), Streamed(R.Delta(short)), Streamed(R.StreamEnd)]
  }

  /** An attempt is shown and retried with a shorter answer: if more rows of it were pushed than the answer has, some
      of them stay. */
  lemma RolledBackRowsStay(build: S.RowBuilder, old_: seq<Row>, long: string, short: string)
    requires !R.Skipped([], long) && !R.Blank(long) && !R.Skipped([], short) && !R.Blank(short)
    requires var rows := S.DisplayRows(build, Answer(long));
             |S.DisplayRows(build, Answer(short))| + 14 < |rows| < 0x1_0000
    ensures BubbleAfter(NO_BUBBLE, FailThenAnswer(long, short)) == R.Bubble(Answer(short), None)
    ensures S.FinalizeTurn(build, TurnAfter(build, old_, FailThenAnswer(long, short))).scrollback
            != old_ + S.DisplayRows(build, Answer(short))
  {
    hide S.FinalizeTurn; hide S.DisplayRows; hide R.Skipped; hide R.Blank;
    var start := S.Turn([], 0, old_);
    var edits := [S.Edit(Answer(long)), S.Render(1), S.Edit([]), S.Edit(Answer(short)), S.Edit(Answer(short))];
    LiveEdits(long, short);
    hide Edits; hide BubbleAfter;
    var t := S.Apply(build, start.(lines := Answer(long)), S.Render(1));
    assert t.inserted == |S.DisplayRows(build, Answer(long))| - 14;
    RunOfEdits(build, start, Answer(long), Answer(short));
    LiveTurnEndsWellIff(build, old_, FailThenAnswer(long, short));
  }

  lemma LiveEdits(long: string, short: string)
    requires !R.Skipped([], long) && !R.Blank(long) && !R.Skipped([], short) && !R.Blank(short)
    ensures BubbleAfter(NO_BUBBLE, FailThenAnswer(long, short)) == R.Bubble(Answer(short), None)
    ensures Edits(NO_BUBBLE, FailThenAnswer(long, short))
         == [S.Edit(Answer(long)), S.Render(1), S.Edit([]), S.Edit(Answer(short)), S.Edit(Answer(short))]
  {
    hide R.Skipped; hide R.Blank; hide Edits; hide BubbleAfter;
    var build: S.RowBuilder := _ => [];
    var e1, e2, e3 := Streamed(R.Delta(long)), Drawn(1), Streamed(R.Retrying);
    var e4, e5 := Streamed(R.Delta(short)), Streamed(R.StreamEnd);
    NoEdits();
    OneMore(build, [], [], e1);
    OneMore(build, [], [] + [e1], e2);
    OneMore(build, [], [] + [e1] + [e2], e3);
    OneMore(build, [], [] + [e1] + [e2] + [e3], e4);
    OneMore(build, [], [] + [e1] + [e2] + [e3] + [e4], e5);
    assert [] + [e1] + [e2] + [e3] + [e4] + [e5] == FailThenAnswer(long, short);
    assert Answer(long)[..0] == [];
    assert R.Write([], long) == Answer(long) && R.Write([], short) == Answer(short);
  }

  lemma RunOfEdits(build: S.RowBuilder, start: S.Turn, long: seq<ChatLine>, short: seq<ChatLine>)
    requires start.inserted == 0 && 14 < |S.DisplayRows(build, long)| < 0x1_0000
    requires |S.DisplayRows(build, short)| + 14 < |S.DisplayRows(build, long)|
    ensures var edits := [S.Edit(long), S.Render(1), S.Edit([]), S.Edit(short), S.Edit(short)];
      && S.SmallPushes(build, start, edits)
      && S.Run(build, start, edits).inserted == |S.DisplayRows(build, long)| - 14
      && !S.PushesMatch(build, start, edits, S.DisplayRows(build, short))
  {
    hide S.DisplayRows;
    var a := [S.Edit(long)];
    var b, c := a + [S.Render(1)], a + [S.Render(1)] + [S.Edit([])];
    var d := c + [S.Edit(short)];
    var edits := [S.Edit(long), S.Render(1), S.Edit([]), S.Edit(short), S.Edit(short)];
    assert a[..0] == [] && b[..1] == a && c[..2] == b && d[..3] == c && edits[..4] == d;
    assert S.Run(build, start, a) == start.(lines := long);
    assert S.Pushed(build, start.(lines := long), S.Render(1)) == |S.DisplayRows(build, long)| - 14;
    assert S.SmallPushes(build, start, a) && b[..|b| - 1] == a;
    assert S.SmallPushes(build, start, b) && S.SmallPushes(build, start, c);
    assert !S.PushesMatch(build, start, b, S.DisplayRows(build, short));
    assert !S.PushesMatch(build, start, c, S.DisplayRows(build, short));
    assert !S.PushesMatch(build, start, d, S.DisplayRows(build, short));
  }

  /** Forty lines of an attempt, and one of the answer. */
  lemma FortyLinesStay(w: Widths, width: nat, old_: seq<Row>)
    ensures var build, events := S.PlainRows(w, width), FailThenAnswer("x " + Newlines(40), "y");
            S.FinalizeTurn(build, TurnAfter(build, old_, events)).scrollback
            != old_ + S.DisplayRows(build, BubbleAfter(NO_BUBBLE, events).lines)
  {
    hide S.FinalizeTurn; hide S.DisplayRows; hide R.Skipped; hide FailThenAnswer; hide Wrap;
    var build, long := S.PlainRows(w, width), "x " + Newlines(40);
    var max := if width == 0 then 1 else width;
    NewlinesOnly(40);
    ShownWithoutQuotes(long);
    ShownWithoutQuotes("y");
    ManyRows(w, max, "x ", 40, DEFAULT_STYLE);
    FewRows(w, max, long, DEFAULT_STYLE);
    FewRows(w, max, "y", DEFAULT_STYLE);
    AnswerRows(w, width, long);
    AnswerRows(w, width, "y");
    hide S.PlainRows; hide Newlines; hide BubbleAfter;
    RolledBackRowsStay(build, old_, long, "y");
  }

  lemma {:induction false} NewlinesOnly(n: nat)
    ensures |Newlines(n)| == n && forall c | c in Newlines(n) :: c == '\n'
  {
    if n > 0 { NewlinesOnly(n - 1); }
  }

  lemma ShownWithoutQuotes(content: string)
    requires '\"' !in content && content != "" && !IsWhitespace(content[0])
    ensures !R.Skipped([], content) && !R.Blank(content)
  {
    hide At; hide IsWhitespace;
    var name, func := FindFrom(content, "\"name\":", 0), FindFrom(content, "\"function\":", 0);
    if name.Some? { AtChar(content, name.value, "\"name\":", 0); }
    if func.Some? { AtChar(content, func.value, "\"function\":", 0); }
  }

  lemma AnswerRows(w: Widths, width: nat, content: string)
    requires content != ""
    ensures var max := if width == 0 then 1 else width;
            |S.DisplayRows(S.PlainRows(w, width), Answer(content))|
            == 1 + |Wrap(w, max, [Span(content, DEFAULT_STYLE)])|
  {
    hide Wrap;
    var build := S.PlainRows(w, width);
    assert Answer(content)[..1] == [ChatLine("", DEFAULT_STYLE)];
    S.OneLine(build, ChatLine("", DEFAULT_STYLE));
  }
}
