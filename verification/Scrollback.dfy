/** Pushing the rows of a streaming turn into the terminal's scrollback (`flush_streaming_overflow`,
    `finalize_active_turn`, `reflow_on_resize`). */
module Scrollback {
  import opened Chat
  import opened Text
  import opened Wrapping

  /** How one chat line becomes rows at the current width; for plain styled lines see `PlainRows`. */
  type RowBuilder = ChatLine -> seq<Row>

  function DisplayRows(build: RowBuilder, lines: seq<ChatLine>): seq<Row> {
    if lines == [] then [] else DisplayRows(build, lines[..|lines| - 1]) + build(lines[|lines| - 1])
  }

  function PlainRows(w: Widths, width: nat): RowBuilder {
    (l: ChatLine) => if l.text == "" then [[]] else Wrap(w, if width == 0 then 1 else width, [Span(l.text, l.style)])
  }

  /** Text appended to a line changes at most the last two rows of that line. */
  ghost predicate TwoStable(build: RowBuilder) {
    forall l: ChatLine, m: ChatLine | l.style == m.style && l.text <= m.text :: AllButTwo(build(l)) <= build(m)
  }

  lemma PlainRowsAreTwoStable(w: Widths, width: nat)
    ensures TwoStable(PlainRows(w, width))
  {
    hide Wrap;
    var max := if width == 0 then 1 else width;
    forall l: ChatLine, m: ChatLine | l.style == m.style && l.text <= m.text
      ensures AllButTwo(PlainRows(w, width)(l)) <= PlainRows(w, width)(m)
    {
      var x := m.text[|l.text|..];
      assert l.text + x == m.text;
      assert [] + [Span(l.text, l.style)] == [Span(l.text, l.style)];
      assert [] + [Span(m.text, l.style)] + [] == [Span(m.text, l.style)];
      LastTwoRowsChange(w, max, [], l.text, x, l.style, []);
      if l.text == "" { assert AllButTwo(PlainRows(w, width)(l)) == []; }
    }
  }

  // ── One turn ──────────────────────────────────────────────────

  /** Lines of the active turn, how many of their rows were pushed, and everything in the scrollback. */
  datatype Turn = Turn(lines: seq<ChatLine>, inserted: nat, scrollback: seq<Row>)

  /** Rows that fit above the input box and the info line in the 18-row viewport; the saturating subtraction never
      saturates, because the box has at most 8 rows. */
  function MessageHeight(inputLines: nat): nat {
    var inputHeight := 2 + if inputLines < 6 then inputLines else 6;
    18 - (inputHeight + 1)
  }

  /** `insert_before` takes its row count as an unsigned 16-bit number, and draws that many rows. */
  function Emit(rows: seq<Row>): seq<Row> {
    rows[..|rows| % 0x1_0000]
  }

  function FlushTurn(build: RowBuilder, t: Turn, height: nat): Turn {
    var rows := DisplayRows(build, t.lines);
    var upTo := if |rows| < height then 0 else |rows| - height;
    if upTo > t.inserted
    then t.(inserted := upTo, scrollback := t.scrollback + Emit(rows[t.inserted..upTo]))
    else t
  }

  function FinalizeTurn(build: RowBuilder, t: Turn): Turn {
    var rows := DisplayRows(build, t.lines);
    if t.lines == [] then t
    else Turn([], 0, t.scrollback + if t.inserted < |rows| then Emit(rows[t.inserted..]) else [])
  }

  /** The lines of the turn become others, in whatever way, or the screen is drawn. */
  datatype Event = Edit(lines: seq<ChatLine>) | Render(inputLines: nat)

  function Apply(build: RowBuilder, t: Turn, e: Event): Turn {
    match e
    case Edit(lines) => t.(lines := lines)
    case Render(inputLines) => FlushTurn(build, t, MessageHeight(inputLines))
  }

  function Run(build: RowBuilder, t: Turn, events: seq<Event>): Turn {
    if events == [] then t else Apply(build, Run(build, t, events[..|events| - 1]), events[|events| - 1])
  }

  class App {
    var lines: seq<ChatLine>
    var history: seq<ChatLine>
    var insertedRows: nat
    var scrollback: seq<Row>

    constructor ()
      ensures State() == Turn([], 0, []) && history == []
    {
      lines, history, insertedRows, scrollback := [], [], 0, [];
    }

    function State(): Turn
      reads this
    {
      Turn(lines, insertedRows, scrollback)
    }

    method FlushStreamingOverflow(build: RowBuilder, msgHeight: nat)
      modifies this
      ensures State() == FlushTurn(build, old(State()), msgHeight) && history == old(history)
    {
      var rows := DisplayRows(build, lines);
      var newInserted := if |rows| < msgHeight then 0 else |rows| - msgHeight;
      if newInserted > insertedRows {
        var slice := rows[insertedRows..newInserted];
        scrollback := scrollback + slice[..|slice| % 0x1_0000];
        insertedRows := newInserted;
      }
    }

    method FinalizeActiveTurn(build: RowBuilder)
      modifies this
      ensures State() == FinalizeTurn(build, old(State())) && history == old(history) + old(lines)
    {
      if lines == [] { return; }
      var rows := DisplayRows(build, lines);
      if insertedRows < |rows| {
        var slice := rows[insertedRows..];
        scrollback := scrollback + slice[..|slice| % 0x1_0000];
      }
      history := history + lines;
      lines := [];
      insertedRows := 0;
      assert scrollback == FinalizeTurn(build, old(State())).scrollback;
    }

    /** After a resize the scrollback is cleared and the finished turns are pushed again at the new width. */
    method ReflowOnResize(build: RowBuilder, welcome: seq<ChatLine>)
      modifies this
      ensures State() == Turn(old(lines), 0, Emit(DisplayRows(build, welcome + history))) && history == old(history)
    {
      scrollback := [];
      var all := welcome + history;
      if all != [] {
        var rows := DisplayRows(build, all);
        scrollback := scrollback + rows[..|rows| % 0x1_0000];
      }
      insertedRows := 0;
    }
  }

  // ── The viewport holds the rest ───────────────────────────────

  /** Once the screen is drawn, the rows of the turn that are not in the scrollback fit above the input box; none is
      pushed while they did so before, and none more than needed. */
  lemma DrawnRowsFit(build: RowBuilder, t: Turn, inputLines: nat)
    ensures var after, rows := Apply(build, t, Render(inputLines)), |DisplayRows(build, t.lines)|;
            var box := if inputLines < 6 then inputLines + 2 else 8;
            && after.lines == t.lines && t.inserted <= after.inserted
            && rows - after.inserted + box + 1 <= 18
            && (rows - t.inserted + box + 1 <= 18 ==> after == t)
            && (rows - t.inserted + box + 1 > 18 ==> rows - after.inserted + box + 1 == 18)
  {
    hide DisplayRows;
  }

  // ── Rows that are settled ─────────────────────────────────────

  /** `m` is `l` with text added to its last line and lines added behind. */
  predicate Grown(l: seq<ChatLine>, m: seq<ChatLine>) {
    l == [] ||
    (&& |l| <= |m| && l[..|l| - 1] == m[..|l| - 1]
     && l[|l| - 1].style == m[|l| - 1].style && l[|l| - 1].text <= m[|l| - 1].text)
  }

  lemma GrownTransitive(l: seq<ChatLine>, m: seq<ChatLine>, n: seq<ChatLine>)
    requires Grown(l, m) && Grown(m, n)
    ensures Grown(l, n)
  {
    if l != [] && |l| < |m| {
      assert m[..|m| - 1][..|l| - 1] == m[..|l| - 1] && n[..|m| - 1][..|l| - 1] == n[..|l| - 1];
      assert m[..|m| - 1][|l| - 1] == m[|l| - 1];
    }
  }

  lemma {:induction false} RowsOfPrefix(build: RowBuilder, lines: seq<ChatLine>, k: nat)
    requires k <= |lines|
    ensures DisplayRows(build, lines[..k]) <= DisplayRows(build, lines)
    decreases |lines|
  {
    if k < |lines| {
      RowsOfPrefix(build, lines[..|lines| - 1], k);
      assert lines[..|lines| - 1][..k] == lines[..k];
    } else {
      assert lines[..k] == lines;
    }
  }

  /** All rows but the last two survive any growth. */
  lemma AllButTwoSettled(build: RowBuilder, l: seq<ChatLine>, m: seq<ChatLine>)
    requires TwoStable(build) && Grown(l, m)
    ensures AllButTwo(DisplayRows(build, l)) <= DisplayRows(build, m)
  {
    if l != [] {
      var init, last, last' := l[..|l| - 1], l[|l| - 1], m[|l| - 1];
      assert m[..|l|][..|l| - 1] == init && m[..|l|][|l| - 1] == last';
      assert DisplayRows(build, m[..|l|]) == DisplayRows(build, init) + build(last');
      RowsOfPrefix(build, m, |l|);
      assert AllButTwo(build(last)) <= build(last');
      PrefixOfConcat(DisplayRows(build, init), build(last), build(last'));
    }
  }

  lemma PrefixOfConcat(a: seq<Row>, b: seq<Row>, c: seq<Row>)
    requires AllButTwo(b) <= c
    ensures AllButTwo(a + b) <= a + c
  {
    if |b| < 2 {
      assert AllButTwo(a + b) <= a;
    } else {
      assert AllButTwo(a + b) == a + AllButTwo(b);
    }
  }

  // ── Exactly once ──────────────────────────────────────────────

  /** Number of rows a step pushes. */
  function Pushed(build: RowBuilder, t: Turn, e: Event): nat {
    var after := Apply(build, t, e);
    if after.inserted > t.inserted then after.inserted - t.inserted else 0
  }

  /** Every push so far had fewer rows than the 16-bit count can hold. */
  predicate SmallPushes(build: RowBuilder, t: Turn, events: seq<Event>) {
    events == [] ||
    (&& SmallPushes(build, t, events[..|events| - 1])
     && Pushed(build, Run(build, t, events[..|events| - 1]), events[|events| - 1]) < 0x1_0000)
  }

  /** Rows from one position to another, none if there are no such rows. */
  function Slice(rows: seq<Row>, from: nat, upTo: nat): seq<Row> {
    if from <= upTo <= |rows| then rows[from..upTo] else []
  }

  /** Every push is what `rows` have at its place. */
  predicate PushesMatch(build: RowBuilder, t: Turn, events: seq<Event>, rows: seq<Row>) {
    events == [] ||
    (&& PushesMatch(build, t, events[..|events| - 1], rows)
     && PushMatches(build, Run(build, t, events[..|events| - 1]), events[|events| - 1], rows))
  }

  predicate PushMatches(build: RowBuilder, t: Turn, e: Event, rows: seq<Row>) {
    var after := Apply(build, t, e);
    after.inserted > t.inserted ==>
      && after.inserted <= |rows|
      && Slice(DisplayRows(build, t.lines), t.inserted, after.inserted) == rows[t.inserted..after.inserted]
  }

  /** What stands behind `old_` in the scrollback is as many rows as are counted. */
  predicate Even(old_: seq<Row>, t: Turn) {
    old_ <= t.scrollback && |t.scrollback| == |old_| + t.inserted
  }

  function PushedRows(old_: seq<Row>, t: Turn): seq<Row>
    requires Even(old_, t)
  {
    t.scrollback[|old_|..]
  }

  /** A push below the 16-bit bound appends the rows it is meant to. */
  lemma SmallPush(build: RowBuilder, old_: seq<Row>, t: Turn, e: Event)
    requires Even(old_, t) && Pushed(build, t, e) < 0x1_0000
    ensures var after := Apply(build, t, e);
            && Even(old_, after) && t.inserted <= after.inserted
            && PushedRows(old_, after)
               == PushedRows(old_, t) + Slice(DisplayRows(build, t.lines), t.inserted, after.inserted)
  {
    hide DisplayRows;
    var rows, after := DisplayRows(build, t.lines), Apply(build, t, e);
    if after.inserted > t.inserted {
      var slice := rows[t.inserted..after.inserted];
      assert Emit(slice) == slice;
    } else {
      assert Slice(rows, t.inserted, after.inserted) == [];
    }
  }

  /** The rows pushed so far begin `rows` if and only if those pushed before do, and every push since matches. */
  lemma {:induction false} PushedIsPrefixIff(build: RowBuilder, old_: seq<Row>, start: Turn, events: seq<Event>,
                                             rows: seq<Row>)
    requires Even(old_, start) && SmallPushes(build, start, events)
    ensures var t := Run(build, start, events);
            && Even(old_, t)
            && (PushedRows(old_, t) <= rows <==>
                PushedRows(old_, start) <= rows && PushesMatch(build, start, events, rows))
  {
    hide Apply; hide DisplayRows; hide Slice;
    if events != [] {
      var before, e := events[..|events| - 1], events[|events| - 1];
      PushedIsPrefixIff(build, old_, start, before, rows);
      var t := Run(build, start, before);
      SmallPush(build, old_, t, e);
      PrefixGrows(build, old_, t, e, rows);
    }
  }

  lemma PrefixGrows(build: RowBuilder, old_: seq<Row>, t: Turn, e: Event, rows: seq<Row>)
    requires Even(old_, t) && Pushed(build, t, e) < 0x1_0000 && Even(old_, Apply(build, t, e))
    ensures PushedRows(old_, Apply(build, t, e)) <= rows
       <==> PushedRows(old_, t) <= rows && PushMatches(build, t, e, rows)
  {
    SmallPush(build, old_, t, e);
    hide DisplayRows;
    var p, after := PushedRows(old_, t), Apply(build, t, e);
    var slice := Slice(DisplayRows(build, t.lines), t.inserted, after.inserted);
    assert PushedRows(old_, after) == p + slice;
    if after.inserted > t.inserted {
      assert |p| == t.inserted && |slice| == after.inserted - t.inserted;
      assert (p + slice)[..|p|] == p && (p + slice)[|p|..] == slice;
      if p + slice <= rows {
        assert rows[..|p + slice|] == p + slice;
        assert rows[..|p|] == rows[..|p + slice|][..|p|] && rows[|p|..|p + slice|] == rows[..|p + slice|][|p|..];
      } else if p <= rows && after.inserted <= |rows| {
        assert rows[..|p + slice|] == rows[..|p|] + rows[|p|..|p + slice|];
      }
    } else {
      assert slice == [] && p + slice == p;
    }
  }

  /** From any state of a turn on, for every row builder and however the lines change: the scrollback ends as the rows
      of the finished turn if and only if what had been pushed is the beginning of them and every push since was what
      they have at its place. */
  lemma EndsWellIff(build: RowBuilder, old_: seq<Row>, start: Turn, events: seq<Event>)
    requires Even(old_, start) && SmallPushes(build, start, events)
    requires |DisplayRows(build, Run(build, start, events).lines)| - Run(build, start, events).inserted < 0x1_0000
    ensures var t := Run(build, start, events);
            var rows := DisplayRows(build, t.lines);
            FinalizeTurn(build, t).scrollback == old_ + rows
            <==> PushedRows(old_, start) <= rows && PushesMatch(build, start, events, rows)
  {
    hide DisplayRows; hide SmallPushes; hide Run; hide PushesMatch;
    var t := Run(build, start, events);
    var rows, k := DisplayRows(build, t.lines), t.inserted;
    PushedIsPrefixIff(build, old_, start, events, rows);
    FinalRows(build, t);
    var p := PushedRows(old_, t);
    var turn := if k < |rows| then p + rows[k..] else p;
    hide FinalizeTurn;
    assert t.scrollback == old_ + p && |p| == k;
    assert FinalizeTurn(build, t).scrollback == old_ + turn;
    assert (old_ + turn)[|old_|..] == turn && (old_ + rows)[|old_|..] == rows;
    if k <= |rows| {
      assert (p + rows[k..])[..k] == p && rows == rows[..k] + rows[k..];
      assert k == |rows| ==> rows[k..] == [] && p + [] == p;
    }
  }

  lemma FinalRows(build: RowBuilder, t: Turn)
    requires |DisplayRows(build, t.lines)| - t.inserted < 0x1_0000
    ensures var rows := DisplayRows(build, t.lines);
            FinalizeTurn(build, t).scrollback
            == t.scrollback + if t.inserted < |rows| then rows[t.inserted..] else []
  {
    hide DisplayRows;
    NoRows(build);
    var rows := DisplayRows(build, t.lines);
    if t.inserted < |rows| { assert Emit(rows[t.inserted..]) == rows[t.inserted..]; }
  }

  lemma NoRows(build: RowBuilder)
    ensures DisplayRows(build, []) == []
  {
  }

  // ── Turns that only grow ──────────────────────────────────────

  /** Lines only gain text at their end and lines behind. */
  predicate OnlyGrows(build: RowBuilder, t: Turn, events: seq<Event>) {
    events == [] ||
    (&& OnlyGrows(build, t, events[..|events| - 1])
     && (events[|events| - 1].Edit? ==>
           Grown(Run(build, t, events[..|events| - 1]).lines, events[|events| - 1].lines)))
  }

  lemma {:induction false} RunGrows(build: RowBuilder, start: Turn, events: seq<Event>)
    requires OnlyGrows(build, start, events)
    ensures Grown(start.lines, Run(build, start, events).lines)
  {
    if events != [] {
      var before := events[..|events| - 1];
      RunGrows(build, start, before);
      var t, e := Run(build, start, before), events[|events| - 1];
      if e.Edit? { GrownTransitive(start.lines, t.lines, e.lines); }
    }
  }

  /** With rows that are settled but for the last two of a line, and two rows to spare, every push of a growing turn is
      final. */
  lemma {:induction false} StablePushesMatch(build: RowBuilder, start: Turn, events: seq<Event>, m: seq<ChatLine>)
    requires TwoStable(build) && OnlyGrows(build, start, events) && Grown(Run(build, start, events).lines, m)
    ensures PushesMatch(build, start, events, DisplayRows(build, m))
    ensures Run(build, start, events).inserted <= start.inserted
            || Run(build, start, events).inserted <= |DisplayRows(build, m)|
  {
    hide DisplayRows; hide TwoStable;
    if events != [] {
      var before, e := events[..|events| - 1], events[|events| - 1];
      var t := Run(build, start, before);
      if e.Edit? { GrownTransitive(t.lines, e.lines, m); }
      StablePushesMatch(build, start, before, m);
      StablePush(build, t, e, m);
    }
  }

  lemma StablePush(build: RowBuilder, t: Turn, e: Event, m: seq<ChatLine>)
    requires TwoStable(build) && Grown(t.lines, m)
    ensures PushMatches(build, t, e, DisplayRows(build, m))
  {
    hide DisplayRows;
    var rows, after := DisplayRows(build, t.lines), Apply(build, t, e);
    if after.inserted > t.inserted {
      AllButTwoSettled(build, t.lines, m);
      assert MessageHeight(e.inputLines) >= 2;
      var settled := AllButTwo(rows);
      assert settled[t.inserted..after.inserted] == rows[t.inserted..after.inserted];
    }
  }

  /** Pushes above the bound leave rows out. */
  lemma {:induction false} HugePushFallsShort(build: RowBuilder, old_: seq<Row>, start: Turn, events: seq<Event>)
    requires |start.scrollback| <= |old_| + start.inserted
    ensures var t := Run(build, start, events);
            && |t.scrollback| <= |old_| + t.inserted
            && (!SmallPushes(build, start, events) ==> |t.scrollback| < |old_| + t.inserted)
  {
    hide DisplayRows;
    if events != [] { HugePushFallsShort(build, old_, start, events[..|events| - 1]); }
  }

  /** Over a whole turn that only grows, with rows settled but for the last two of a line, the scrollback ends with
      every row of the finished turn once and in order, if and only if no single push has 65536 rows or more. */
  lemma RowsArePushedOnce(build: RowBuilder, old_: seq<Row>, events: seq<Event>)
    requires TwoStable(build) && OnlyGrows(build, Turn([], 0, old_), events)
    ensures var start := Turn([], 0, old_);
            var t := Run(build, start, events);
            var rows := DisplayRows(build, t.lines);
            FinalizeTurn(build, t).scrollback == old_ + rows
            <==> SmallPushes(build, start, events) && |rows| - t.inserted < 0x1_0000
  {
    hide DisplayRows; hide SmallPushes; hide Run; hide TwoStable; hide PushesMatch; hide OnlyGrows;
    var start := Turn([], 0, old_);
    var t := Run(build, start, events);
    var rows := DisplayRows(build, t.lines);
    GrownItself(t.lines);
    StablePushesMatch(build, start, events, t.lines);
    HugePushFallsShort(build, old_, start, events);
    if SmallPushes(build, start, events) && |rows| - t.inserted < 0x1_0000 {
      assert PushedRows(old_, start) == [];
      EndsWellIff(build, old_, start, events);
    } else {
      FinalPushFallsShort(build, old_, t);
    }
  }

  lemma GrownItself(lines: seq<ChatLine>)
    ensures Grown(lines, lines)
  {
  }

  lemma FinalPushFallsShort(build: RowBuilder, old_: seq<Row>, t: Turn)
    requires var rows := DisplayRows(build, t.lines);
      && t.inserted <= |rows| && |t.scrollback| <= |old_| + t.inserted
      && (|t.scrollback| < |old_| + t.inserted || |rows| - t.inserted >= 0x1_0000)
    ensures |FinalizeTurn(build, t).scrollback| < |old_ + DisplayRows(build, t.lines)|
  {
    hide DisplayRows;
    NoRows(build);
  }

  /** With a message area of one row the same would fail: a row already pushed could still change. */
  lemma OneRowIsNotEnough()
    ensures var build := PlainRows(UNIT, 4);
            var first := FlushTurn(build, Turn([ChatLine("ab cde", 0)], 0, []), 1);
            var grown := first.(lines := [ChatLine("ab cde" + "fg", 0)]);
            FinalizeTurn(build, grown).scrollback != DisplayRows(build, grown.lines)
  {
    hide Wrap;
    BothLastRowsCanChange();
    var build, l, m := PlainRows(UNIT, 4), ChatLine("ab cde", 0), ChatLine("ab cde" + "fg", 0);
    OneLine(build, l);
    OneLine(build, m);
    var first := FlushTurn(build, Turn([l], 0, []), 1);
    var rows := build(l);
    assert |rows| == 2 && first.inserted == 1;
    assert first.scrollback == [Cells("ab ", 0)] by {
      assert rows[0..1] == [Cells("ab ", 0)] && Emit(rows[0..1]) == rows[0..1];
    }
    assert DisplayRows(build, [m])[0] == Cells("ab c", 0);
    assert Cells("ab ", 0) != Cells("ab c", 0) by { assert |Cells("ab ", 0)| == 3 && |Cells("ab c", 0)| == 4; }
  }

  lemma OneLine(build: RowBuilder, l: ChatLine)
    ensures DisplayRows(build, [l]) == build(l)
  {
    assert [l][..0] == [];
    assert DisplayRows(build, [l]) == [] + build(l);
  }

  /** A rolled back attempt leaves no trace in the scrollback if nothing was pushed behind all but the last two rows of
      the lines it began from: `grown` is what it made of `base`, and what it pushed are the first rows of that. */
  lemma RollbackLeavesNoTrace(build: RowBuilder, old_: seq<Row>, base: seq<ChatLine>, grown: Turn, events: seq<Event>)
    requires TwoStable(build) && Grown(base, grown.lines)
    requires grown.inserted + 2 <= |DisplayRows(build, base)| && grown.inserted <= |DisplayRows(build, grown.lines)|
    requires grown.scrollback == old_ + DisplayRows(build, grown.lines)[..grown.inserted]
    requires SmallPushes(build, grown.(lines := base), events) && OnlyGrows(build, grown.(lines := base), events)
    requires var t := Run(build, grown.(lines := base), events);
             |DisplayRows(build, t.lines)| - t.inserted < 0x1_0000
    ensures var t := Run(build, grown.(lines := base), events);
            FinalizeTurn(build, t).scrollback == old_ + DisplayRows(build, t.lines)
  {
    hide DisplayRows; hide TwoStable; hide SmallPushes; hide Run; hide FinalizeTurn; hide PushesMatch; hide OnlyGrows;
    var start := grown.(lines := base);
    var t, k := Run(build, start, events), grown.inserted;
    RunGrows(build, start, events);
    AllButTwoSettled(build, base, grown.lines);
    AllButTwoSettled(build, base, t.lines);
    GrownItself(t.lines);
    StablePushesMatch(build, start, events, t.lines);
    EndsWellIff(build, old_, start, events);
    var settled := AllButTwo(DisplayRows(build, base));
    assert settled[..k] == DisplayRows(build, grown.lines)[..k] == DisplayRows(build, t.lines)[..k];
    assert PushedRows(old_, start) == DisplayRows(build, grown.lines)[..k];
  }

  /** A row builder that changes the first row of a line after it was pushed leaves the old row for good: `l` is drawn,
      and later the line is `m`. */
  lemma ChangedRowIsKept(build: RowBuilder, old_: seq<Row>, l: ChatLine, m: ChatLine)
    requires 14 < |build(l)| < 0x1_0000 && |build(m)| < 0x1_0000
    requires build(m) == [] || build(m)[0] != build(l)[0]
    ensures var t := Run(build, Turn([], 0, old_), [Edit([l]), Render(1), Edit([m])]);
            FinalizeTurn(build, t).scrollback != old_ + DisplayRows(build, [m])
  {
    hide FinalizeTurn;
    OneLine(build, l);
    OneLine(build, m);
    hide DisplayRows;
    var start, events := Turn([], 0, old_), [Edit([l]), Render(1), Edit([m])];
    var t1 := start.(lines := [l]);
    var t2 := Apply(build, t1, Render(1));
    assert events[..2][..1] == [Edit([l])] && events[..2] == [Edit([l]), Render(1)] && [Edit([l])][..0] == [];
    assert Run(build, start, []) == start && Run(build, start, events[..2][..1]) == t1;
    assert Run(build, start, events[..2]) == t2 && Run(build, start, events) == t2.(lines := [m]);
    assert Pushed(build, t1, Render(1)) == |build(l)| - 14;
    assert SmallPushes(build, start, events[..2][..1]) && events[..2][..|events[..2]| - 1] == [Edit([l])];
    assert SmallPushes(build, start, events[..2]);
    EndsWellIff(build, old_, start, events);
    FirstPushDiffers(build, t1, build(m));
  }

  lemma FirstPushDiffers(build: RowBuilder, t: Turn, rows: seq<Row>)
    requires t.inserted == 0 && |DisplayRows(build, t.lines)| > 14
    requires rows == [] || rows[0] != DisplayRows(build, t.lines)[0]
    ensures !PushMatches(build, t, Render(1), rows)
  {
    hide DisplayRows;
    var k, drawn := Apply(build, t, Render(1)).inserted, DisplayRows(build, t.lines);
    assert drawn[0..k][0] == drawn[0];
    if k <= |rows| { assert rows[0..k][0] == rows[0]; }
  }
}
