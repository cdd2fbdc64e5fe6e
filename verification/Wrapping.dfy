/** Wrapping styled spans into display rows (`wrap_styled_lines`). A row is modelled by its styled characters. */
module Wrapping {
  import opened Text
  import opened Chat

  datatype Span = Span(content: string, style: Style)

  datatype Cell = Cell(ch: char, style: Style)

  type Row = seq<Cell>

  /** Columns a character takes: counted within a word, and counted alone where a word is broken up. */
  datatype Widths = Widths(inWord: char -> nat, alone: char -> nat)

  function WordWidth(w: Widths, s: string): nat {
    if s == "" then 0 else WordWidth(w, s[..|s| - 1]) + w.inWord(s[|s| - 1])
  }

  function RowWidth(w: Widths, row: Row): nat {
    if row == [] then 0 else RowWidth(w, row[..|row| - 1]) + w.alone(row[|row| - 1].ch)
  }

  function Cells(s: string, style: Style): Row {
    seq(|s|, i requires 0 <= i < |s| => Cell(s[i], style))
  }

  // ── The wrapper's state and its moves ─────────────────────────

  /** Finished rows, the current row and its recorded width. */
  datatype Pen = Pen(rows: seq<Row>, cur: Row, cw: nat)

  const BLANK := Pen([], [], 0)

  function Flush(p: Pen): Pen { Pen(p.rows + [p.cur], [], 0) }

  function PutChar(w: Widths, max: nat, p: Pen, c: char, style: Style): Pen {
    var q := if p.cw + w.alone(c) > max && p.cur != [] then Flush(p) else p;
    Pen(q.rows, q.cur + [Cell(c, style)], q.cw + w.alone(c))
  }

  function PutChars(w: Widths, max: nat, p: Pen, s: string, style: Style): Pen {
    if s == "" then p else PutChar(w, max, PutChars(w, max, p, s[..|s| - 1], style), s[|s| - 1], style)
  }

  /** A word stays on the row if it fits, is broken up if no row could hold it, and else starts the next row. */
  function PutWord(w: Widths, max: nat, p: Pen, word: string, style: Style): Pen {
    var ww := WordWidth(w, word);
    if p.cw + ww <= max then Pen(p.rows, p.cur + Cells(word, style), p.cw + ww)
    else if ww > max then PutChars(w, max, p, word, style)
    else
      var q := if p.cur != [] then Flush(p) else p;
      Pen(q.rows, q.cur + Cells(word, style), ww)
  }

  /** Length of the word a newline-free beginning opens with: through its first whitespace, if any. */
  function WordLen(s: string): (k: nat)
    ensures k <= |s|
    ensures s != "" && s[0] != '\n' ==> k > 0
    ensures forall i | 0 <= i < k - 1 :: !IsWhitespace(s[i])
    ensures 0 < k < |s| && !IsWhitespace(s[k - 1]) ==> s[k] == '\n'
    ensures forall i | 0 <= i < k :: s[i] != '\n'
  {
    if s == "" || s[0] == '\n' then 0
    else if IsWhitespace(s[0]) then 1
    else 1 + WordLen(s[1..])
  }

  /** Reading text word by word and newline by newline. */
  function Feed(w: Widths, max: nat, p: Pen, s: string, style: Style): Pen
    decreases |s|
  {
    if s == "" then p
    else if s[0] == '\n' then Feed(w, max, Flush(p), s[1..], style)
    else Feed(w, max, PutWord(w, max, p, s[..WordLen(s)], style), s[WordLen(s)..], style)
  }

  function FeedSpans(w: Widths, max: nat, p: Pen, spans: seq<Span>): Pen {
    if spans == [] then p
    else Feed(w, max, FeedSpans(w, max, p, spans[..|spans| - 1]), spans[|spans| - 1].content, spans[|spans| - 1].style)
  }

  /** The last row counts unless it is empty behind others. */
  function Finish(p: Pen): seq<Row> {
    if p.cur != [] || p.rows == [] then p.rows + [p.cur] else p.rows
  }

  function Wrap(w: Widths, max: nat, spans: seq<Span>): seq<Row> {
    if max == 0 then [[]] else Finish(FeedSpans(w, max, BLANK, spans))
  }

  // ── Content ───────────────────────────────────────────────────

  function Flat(rows: seq<Row>): Row {
    if rows == [] then [] else Flat(rows[..|rows| - 1]) + rows[|rows| - 1]
  }

  function NoNewlines(s: string): string {
    if s == "" then "" else NoNewlines(s[..|s| - 1]) + if s[|s| - 1] == '\n' then "" else [s[|s| - 1]]
  }

  function Content(p: Pen): Row { Flat(p.rows) + p.cur }

  function SpanCells(spans: seq<Span>): Row {
    if spans == [] then []
    else SpanCells(spans[..|spans| - 1]) + Cells(NoNewlines(spans[|spans| - 1].content), spans[|spans| - 1].style)
  }

  lemma FlatSnoc(rows: seq<Row>, row: Row)
    ensures Flat(rows + [row]) == Flat(rows) + row
  {
    assert (rows + [row])[..|rows|] == rows;
  }

  lemma FlushKeepsContent(p: Pen)
    ensures Content(Flush(p)) == Content(p)
  {
    FlatSnoc(p.rows, p.cur);
  }

  lemma CellsConcat(s: string, t: string, style: Style)
    ensures Cells(s + t, style) == Cells(s, style) + Cells(t, style)
  {
  }

  lemma {:induction false} NoNewlinesConcat(s: string, t: string)
    ensures NoNewlines(s + t) == NoNewlines(s) + NoNewlines(t)
  {
    if t == "" {
      assert s + t == s;
    } else {
      assert (s + t)[..|s + t| - 1] == s + t[..|t| - 1];
      NoNewlinesConcat(s, t[..|t| - 1]);
    }
  }

  lemma {:induction false} PlainHasNoNewlines(s: string)
    requires '\n' !in s
    ensures NoNewlines(s) == s
  {
    if s != "" { PlainHasNoNewlines(s[..|s| - 1]); }
  }

  lemma {:induction false} PutCharsContent(w: Widths, max: nat, p: Pen, s: string, style: Style)
    ensures Content(PutChars(w, max, p, s, style)) == Content(p) + Cells(s, style)
  {
    if s != "" {
      var t, c := s[..|s| - 1], s[|s| - 1];
      PutCharsContent(w, max, p, t, style);
      var q := PutChars(w, max, p, t, style);
      FlushKeepsContent(q);
      CellsConcat(t, [c], style);
      assert s == t + [c] && Cells([c], style) == [Cell(c, style)];
      var r := PutChar(w, max, q, c, style);
      assert Content(r) == Content(q) + [Cell(c, style)];
    }
  }

  lemma PutWordContent(w: Widths, max: nat, p: Pen, word: string, style: Style)
    ensures Content(PutWord(w, max, p, word, style)) == Content(p) + Cells(word, style)
  {
    PutCharsContent(w, max, p, word, style);
    FlushKeepsContent(p);
  }

  lemma {:induction false} WordHasNoNewline(s: string)
    ensures '\n' !in s[..WordLen(s)]
  {
    if s != "" && s[0] != '\n' && !IsWhitespace(s[0]) {
      WordHasNoNewline(s[1..]);
      assert s[..WordLen(s)] == [s[0]] + s[1..][..WordLen(s[1..])];
    }
  }

  /** The cells of a text, read word by word. */
  lemma WordCells(word: string, t: string, style: Style)
    requires '\n' !in word
    ensures Cells(NoNewlines(word + t), style) == Cells(word, style) + Cells(NoNewlines(t), style)
  {
    PlainHasNoNewlines(word);
    NoNewlinesConcat(word, t);
    CellsConcat(word, NoNewlines(t), style);
  }

  lemma NewlineCells(t: string, style: Style)
    ensures NoNewlines("\n" + t) == NoNewlines(t) && Cells(NoNewlines(""), style) == []
  {
    NoNewlinesConcat("\n", t);
    assert NoNewlines("\n") == NoNewlines("") == "";
  }

  lemma {:induction false} FeedContent(w: Widths, max: nat, p: Pen, s: string, style: Style)
    ensures Content(Feed(w, max, p, s, style)) == Content(p) + Cells(NoNewlines(s), style)
    decreases |s|
  {
    hide PutWord; hide NoNewlines; hide Cells; hide Content;
    if s == "" {
      NewlineCells("", style);
    } else if s[0] == '\n' {
      FeedContent(w, max, Flush(p), s[1..], style);
      FlushKeepsContent(p);
      assert s == "\n" + s[1..];
      NewlineCells(s[1..], style);
    } else {
      var k := WordLen(s);
      FeedContent(w, max, PutWord(w, max, p, s[..k], style), s[k..], style);
      PutWordContent(w, max, p, s[..k], style);
      WordHasNoNewline(s);
      assert s == s[..k] + s[k..];
      WordCells(s[..k], s[k..], style);
    }
  }

  lemma {:induction false} FeedSpansContent(w: Widths, max: nat, spans: seq<Span>)
    ensures Content(FeedSpans(w, max, BLANK, spans)) == SpanCells(spans)
  {
    if spans != [] {
      var before, last := spans[..|spans| - 1], spans[|spans| - 1];
      FeedSpansContent(w, max, before);
      FeedContent(w, max, FeedSpans(w, max, BLANK, before), last.content, last.style);
    }
  }

  /** The rows, joined, are the characters of the spans without newlines, in order and each in its own style. */
  lemma WrapKeepsContent(w: Widths, max: nat, spans: seq<Span>)
    requires max > 0
    ensures Flat(Wrap(w, max, spans)) == SpanCells(spans)
  {
    FeedSpansContent(w, max, spans);
    var p := FeedSpans(w, max, BLANK, spans);
    FlatSnoc(p.rows, p.cur);
  }

  // ── Width ─────────────────────────────────────────────────────

  /** An empty current row is recorded as zero wide. */
  predicate ZeroIfEmpty(p: Pen) { p.cur == [] ==> p.cw == 0 }

  lemma {:induction false} PutCharsZero(w: Widths, max: nat, p: Pen, s: string, style: Style)
    requires ZeroIfEmpty(p)
    ensures ZeroIfEmpty(PutChars(w, max, p, s, style))
  {
    if s != "" { PutCharsZero(w, max, p, s[..|s| - 1], style); }
  }

  lemma PutWordZero(w: Widths, max: nat, p: Pen, word: string, style: Style)
    requires ZeroIfEmpty(p) && word != ""
    ensures ZeroIfEmpty(PutWord(w, max, p, word, style))
  {
    PutCharsZero(w, max, p, word, style);
    assert Cells(word, style) != [];
  }

  lemma {:induction false} FeedZero(w: Widths, max: nat, p: Pen, s: string, style: Style)
    requires ZeroIfEmpty(p)
    ensures ZeroIfEmpty(Feed(w, max, p, s, style))
    decreases |s|
  {
    hide PutWord;
    if s == "" {
    } else if s[0] == '\n' {
      FeedZero(w, max, Flush(p), s[1..], style);
    } else {
      PutWordZero(w, max, p, s[..WordLen(s)], style);
      FeedZero(w, max, PutWord(w, max, p, s[..WordLen(s)], style), s[WordLen(s)..], style);
    }
  }

  /** Whatever the widths, the wrapper never records a width for an empty row. */
  lemma {:induction false} EmptyRowIsZero(w: Widths, max: nat, spans: seq<Span>)
    ensures ZeroIfEmpty(FeedSpans(w, max, BLANK, spans))
  {
    if spans != [] {
      var before, last := spans[..|spans| - 1], spans[|spans| - 1];
      EmptyRowIsZero(w, max, before);
      FeedZero(w, max, FeedSpans(w, max, BLANK, before), last.content, last.style);
    }
  }

  /** The recorded width covers the current row, an empty row is recorded as zero, and no row is too wide. */
  ghost predicate Fits(w: Widths, max: nat, p: Pen) {
    && ZeroIfEmpty(p)
    && RowWidth(w, p.cur) <= p.cw <= max
    && forall i | 0 <= i < |p.rows| :: RowWidth(w, p.rows[i]) <= max
  }

  predicate Fitting(w: Widths, max: nat, c: char) { w.alone(c) <= max && w.alone(c) <= w.inWord(c) }

  /** Every character of the text fits a row by itself and counts alone no more than within a word. */
  ghost predicate Narrow(w: Widths, max: nat, s: string) {
    forall i | 0 <= i < |s| && s[i] != '\n' :: Fitting(w, max, s[i])
  }

  lemma {:induction false} RowWidthConcat(w: Widths, a: Row, b: Row)
    ensures RowWidth(w, a + b) == RowWidth(w, a) + RowWidth(w, b)
  {
    if b == [] {
      assert a + b == a;
    } else {
      assert (a + b)[..|a + b| - 1] == a + b[..|b| - 1];
      RowWidthConcat(w, a, b[..|b| - 1]);
    }
  }

  lemma {:induction false} CellsWidth(w: Widths, max: nat, s: string, style: Style)
    requires Narrow(w, max, s) && '\n' !in s
    ensures RowWidth(w, Cells(s, style)) <= WordWidth(w, s)
  {
    if s != "" {
      CellsWidth(w, max, s[..|s| - 1], style);
      assert Cells(s, style)[..|s| - 1] == Cells(s[..|s| - 1], style);
    }
  }

  lemma OneCellWidth(w: Widths, row: Row, c: char, style: Style)
    ensures RowWidth(w, row + [Cell(c, style)]) == RowWidth(w, row) + w.alone(c)
  {
    assert (row + [Cell(c, style)])[..|row|] == row;
  }

  lemma PutCharFits(w: Widths, max: nat, p: Pen, c: char, style: Style)
    requires Fitting(w, max, c) && Fits(w, max, p)
    ensures Fits(w, max, PutChar(w, max, p, c, style))
  {
    hide RowWidth;
    OneCellWidth(w, p.cur, c, style);
    OneCellWidth(w, [], c, style);
    EmptyRowWidth(w);
  }

  lemma EmptyRowWidth(w: Widths)
    ensures RowWidth(w, []) == 0
  {
  }

  lemma {:induction false} PutCharsFits(w: Widths, max: nat, p: Pen, s: string, style: Style)
    requires Narrow(w, max, s) && '\n' !in s && Fits(w, max, p)
    ensures Fits(w, max, PutChars(w, max, p, s, style))
  {
    hide Fits; hide PutChar; hide Fitting;
    if s != "" {
      PutCharsFits(w, max, p, s[..|s| - 1], style);
      PutCharFits(w, max, PutChars(w, max, p, s[..|s| - 1], style), s[|s| - 1], style);
    }
  }

  lemma PutWordFits(w: Widths, max: nat, p: Pen, word: string, style: Style)
    requires Narrow(w, max, word) && '\n' !in word && Fits(w, max, p) && word != ""
    ensures Fits(w, max, PutWord(w, max, p, word, style))
  {
    hide RowWidth; hide Narrow; hide WordWidth; hide PutChars;
    PutCharsFits(w, max, p, word, style);
    CellsWidth(w, max, word, style);
    RowWidthConcat(w, p.cur, Cells(word, style));
    RowWidthConcat(w, [], Cells(word, style));
    EmptyRowWidth(w);
  }

  lemma {:induction false} FeedFits(w: Widths, max: nat, p: Pen, s: string, style: Style)
    requires Narrow(w, max, s) && Fits(w, max, p)
    ensures Fits(w, max, Feed(w, max, p, s, style))
    decreases |s|
  {
    hide PutWord;
    if s == "" {
    } else if s[0] == '\n' {
      FeedFits(w, max, Flush(p), s[1..], style);
    } else {
      WordHasNoNewline(s);
      PutWordFits(w, max, p, s[..WordLen(s)], style);
      FeedFits(w, max, PutWord(w, max, p, s[..WordLen(s)], style), s[WordLen(s)..], style);
    }
  }

  lemma {:induction false} FeedSpansFits(w: Widths, max: nat, spans: seq<Span>)
    requires forall span | span in spans :: Narrow(w, max, span.content)
    ensures Fits(w, max, FeedSpans(w, max, BLANK, spans))
  {
    if spans != [] {
      var before, last := spans[..|spans| - 1], spans[|spans| - 1];
      FeedSpansFits(w, max, before);
      FeedFits(w, max, FeedSpans(w, max, BLANK, before), last.content, last.style);
    }
  }

  /** No row is wider than the terminal, if every character of the text fits it. */
  lemma RowsAreNarrow(w: Widths, max: nat, spans: seq<Span>)
    requires max > 0 && forall span | span in spans :: Narrow(w, max, span.content)
    ensures forall row | row in Wrap(w, max, spans) :: RowWidth(w, row) <= max
  {
    FeedSpansFits(w, max, spans);
  }

  // ── Greedy layout ─────────────────────────────────────────────

  /** What may not be divided: a word that fits a row, or a character of one that does not. */
  datatype Piece = Piece(cells: Row, width: nat)

  datatype Item = Break | Put(piece: Piece)

  /** A row as laid out, and whether a newline ends it. */
  datatype Line = Line(pieces: seq<Piece>, hard: bool)

  function Pieces(w: Widths, max: nat, word: string, style: Style): seq<Item> {
    if WordWidth(w, word) <= max then [Put(Piece(Cells(word, style), WordWidth(w, word)))]
    else Letters(w, word, style)
  }

  function Letters(w: Widths, word: string, style: Style): seq<Item> {
    seq(|word|, i requires 0 <= i < |word| => Put(Piece([Cell(word[i], style)], w.alone(word[i]))))
  }

  function Items(w: Widths, max: nat, s: string, style: Style): seq<Item> {
    if s == "" then []
    else if s[0] == '\n' then [Break] + Items(w, max, s[1..], style)
    else Pieces(w, max, s[..WordLen(s)], style) + Items(w, max, s[WordLen(s)..], style)
  }

  function SpanItems(w: Widths, max: nat, spans: seq<Span>): seq<Item> {
    if spans == [] then []
    else
      var last := spans[|spans| - 1];
      SpanItems(w, max, spans[..|spans| - 1]) + Items(w, max, last.content, last.style)
  }

  function Total(pieces: seq<Piece>): nat {
    if pieces == [] then 0 else Total(pieces[..|pieces| - 1]) + pieces[|pieces| - 1].width
  }

  function RowOf(pieces: seq<Piece>): Row {
    if pieces == [] then [] else RowOf(pieces[..|pieces| - 1]) + pieces[|pieces| - 1].cells
  }

  function RowsOf(lines: seq<Line>): seq<Row> {
    seq(|lines|, i requires 0 <= i < |lines| => RowOf(lines[i].pieces))
  }

  function Puts(pieces: seq<Piece>): seq<Item> {
    seq(|pieces|, i requires 0 <= i < |pieces| => Put(pieces[i]))
  }

  /** The items in the lines, with a break for each hard end. */
  function Unlaid(lines: seq<Line>): seq<Item> {
    if lines == [] then []
    else
      var last := lines[|lines| - 1];
      Unlaid(lines[..|lines| - 1]) + Puts(last.pieces) + if last.hard then [Break] else []
  }

  /** Lines are as full as they can be: one of several pieces fits, and one that no newline ends has no room for the
      first piece of the next. */
  ghost predicate Greedy(max: nat, lines: seq<Line>) {
    && lines != [] && !lines[|lines| - 1].hard
    && (forall i | 0 <= i < |lines| && |lines[i].pieces| > 1 :: Total(lines[i].pieces) <= max)
    && forall i | 0 < i < |lines| :: lines[i - 1].hard || NoRoom(max, lines[i - 1], lines[i])
  }

  predicate NoRoom(max: nat, line: Line, next: Line) {
    line.pieces != [] && next.pieces != [] && Total(line.pieces) + next.pieces[0].width > max
  }

  /** The wrapper stands where laying out the items greedily stands. */
  ghost predicate Laid(max: nat, p: Pen, items: seq<Item>, lines: seq<Line>) {
    && Greedy(max, lines) && Unlaid(lines) == items
    && RowsOf(lines) == p.rows + [p.cur] && Total(lines[|lines| - 1].pieces) == p.cw
    && (p.cur == [] <==> lines[|lines| - 1].pieces == [])
  }

  function PutPiece(max: nat, p: Pen, piece: Piece): Pen {
    var q := if p.cw + piece.width > max && p.cur != [] then Flush(p) else p;
    Pen(q.rows, q.cur + piece.cells, q.cw + piece.width)
  }

  lemma UnlaidSnoc(lines: seq<Line>, last: Line)
    ensures Unlaid(lines + [last]) == Unlaid(lines) + Puts(last.pieces) + if last.hard then [Break] else []
  {
    assert (lines + [last])[..|lines|] == lines;
  }

  lemma PiecesSnoc(pieces: seq<Piece>, piece: Piece)
    ensures Total(pieces + [piece]) == Total(pieces) + piece.width
    ensures RowOf(pieces + [piece]) == RowOf(pieces) + piece.cells
    ensures Puts(pieces + [piece]) == Puts(pieces) + [Put(piece)]
  {
    assert (pieces + [piece])[..|pieces|] == pieces;
  }

  lemma RowsSnoc(lines: seq<Line>, last: Line)
    ensures RowsOf(lines + [last]) == RowsOf(lines) + [RowOf(last.pieces)]
  {
  }

  lemma LayPiece(max: nat, p: Pen, items: seq<Item>, lines: seq<Line>, piece: Piece) returns (lines': seq<Line>)
    requires Laid(max, p, items, lines) && piece.cells != []
    ensures Laid(max, PutPiece(max, p, piece), items + [Put(piece)], lines')
  {
    if p.cw + piece.width > max && p.cur != [] {
      lines' := lines + [Line([piece], false)];
      LayNext(max, p, items, lines, piece);
    } else {
      var front, last := lines[..|lines| - 1], lines[|lines| - 1];
      assert lines == front + [last];
      lines' := front + [Line(last.pieces + [piece], false)];
      hide Laid;
      LayBehind(max, p, items, front, last, piece);
    }
  }

  lemma LayNext(max: nat, p: Pen, items: seq<Item>, lines: seq<Line>, piece: Piece)
    requires Laid(max, p, items, lines) && p.cw + piece.width > max && p.cur != [] && piece.cells != []
    ensures Laid(max, Pen(p.rows + [p.cur], piece.cells, piece.width), items + [Put(piece)],
                 lines + [Line([piece], false)])
  {
    hide RowOf; hide RowsOf; hide Total; hide Puts; hide Unlaid;
    var line := Line([piece], false);
    NoPieces();
    UnlaidSnoc(lines, line);
    RowsSnoc(lines, line);
    PiecesSnoc([], piece);
    assert [] + [piece] == [piece] && RowOf(line.pieces) == piece.cells;
    var lines' := lines + [line];
    assert lines[|lines| - 1] == Line(lines[|lines| - 1].pieces, false);
    assert lines' == lines[..|lines| - 1] + [Line(lines[|lines| - 1].pieces, false), line];
    NextIsGreedy(max, lines, false, line, lines');
    hide Greedy;
  }

  lemma LayBehind(max: nat, p: Pen, items: seq<Item>, front: seq<Line>, last: Line, piece: Piece)
    requires Laid(max, p, items, front + [last]) && (p.cw + piece.width <= max || p.cur == []) && piece.cells != []
    ensures Laid(max, Pen(p.rows, p.cur + piece.cells, p.cw + piece.width), items + [Put(piece)],
                 front + [Line(last.pieces + [piece], false)])
  {
    hide RowOf; hide RowsOf; hide Total; hide Puts; hide Unlaid;
    var line := Line(last.pieces + [piece], false);
    assert (front + [last])[|front|] == last && (front + [line])[|front|] == line;
    RowsSnoc(front, last);
    SameEnds(RowsOf(front), RowOf(last.pieces), p.rows, p.cur);
    UnlaidSnoc(front, last);
    UnlaidSnoc(front, line);
    RowsSnoc(front, line);
    PiecesSnoc(last.pieces, piece);
    LongerIsGreedy(max, front, last, piece);
    hide Greedy;
  }

  lemma SameEnds(a: seq<Row>, x: Row, b: seq<Row>, y: Row)
    requires a + [x] == b + [y]
    ensures a == b && x == y
  {
    assert |a + [x]| == |a| + 1 && |b + [y]| == |b| + 1;
    assert (a + [x])[|a|] == x && (b + [y])[|b|] == y;
    assert (a + [x])[..|a|] == a && (b + [y])[..|b|] == b;
  }

  /** Ending the last line, by a newline or for want of room, and going on with another. */
  lemma NextIsGreedy(max: nat, lines: seq<Line>, hard: bool, next: Line, lines': seq<Line>)
    requires Greedy(max, lines) && !next.hard && (|next.pieces| > 1 ==> Total(next.pieces) <= max)
    requires hard || NoRoom(max, lines[|lines| - 1], next)
    requires lines' == lines[..|lines| - 1] + [Line(lines[|lines| - 1].pieces, hard), next]
    ensures Greedy(max, lines')
  {
    hide Total;
    var n := |lines| - 1;
    assert |lines'| == n + 2 && lines'[n] == Line(lines[n].pieces, hard) && lines'[n + 1] == next;
    assert forall i | 0 <= i < n :: lines'[i] == lines[i];
    forall i | 0 < i < |lines'| ensures lines'[i - 1].hard || NoRoom(max, lines'[i - 1], lines'[i]) {
      if i <= n {
        assert lines[i - 1] == lines'[i - 1] && lines[i].pieces == lines'[i].pieces;
      } else {
        assert i == n + 1;
      }
    }
    forall i | 0 <= i < |lines'| && |lines'[i].pieces| > 1 ensures Total(lines'[i].pieces) <= max {
      if i <= n { assert lines[i].pieces == lines'[i].pieces; }
    }
  }

  lemma LongerIsGreedy(max: nat, front: seq<Line>, last: Line, piece: Piece)
    requires Greedy(max, front + [last])
    requires last.pieces == [] || Total(last.pieces) + piece.width <= max
    ensures Greedy(max, front + [Line(last.pieces + [piece], false)])
  {
    PiecesSnoc(last.pieces, piece);
    hide Total;
    var lines, lines' := front + [last], front + [Line(last.pieces + [piece], false)];
    assert forall i | 0 <= i < |front| :: lines[i] == front[i] == lines'[i];
    assert lines[|front|] == last && lines'[|front|] == Line(last.pieces + [piece], false);
    forall i | 0 < i < |lines'| ensures lines'[i - 1].hard || NoRoom(max, lines'[i - 1], lines'[i]) {
      assert lines[i - 1] == lines'[i - 1] && (!lines[i - 1].hard ==> NoRoom(max, lines[i - 1], lines[i]));
    }
  }

  lemma NoPieces()
    ensures Total([]) == 0 && RowOf([]) == [] && Puts([]) == []
  {
  }

  lemma LayBreak(max: nat, p: Pen, items: seq<Item>, lines: seq<Line>) returns (lines': seq<Line>)
    requires Laid(max, p, items, lines)
    ensures Laid(max, Flush(p), items + [Break], lines')
  {
    hide RowOf; hide RowsOf; hide Total; hide Puts; hide Unlaid;
    var n := |lines| - 1;
    var front, last := lines[..n], lines[n];
    assert lines == front + [last];
    var ended, next := Line(last.pieces, true), Line([], false);
    lines' := front + [ended, next];
    NextIsGreedy(max, lines, true, next, lines');
    hide Greedy;
    assert lines' == front + [ended] + [next] && lines'[|lines'| - 1] == next;
    UnlaidSnoc(front, last);
    UnlaidSnoc(front, ended);
    UnlaidSnoc(front + [ended], next);
    RowsSnoc(front, last);
    RowsSnoc(front, ended);
    RowsSnoc(front + [ended], next);
    NoPieces();
  }

  /** The characters of a word too wide are put as pieces. */
  lemma {:induction false} LayLetters(w: Widths, max: nat, p: Pen, items: seq<Item>, lines: seq<Line>, word: string,
                                      style: Style) returns (lines': seq<Line>)
    requires Laid(max, p, items, lines)
    ensures Laid(max, PutChars(w, max, p, word, style), items + Letters(w, word, style), lines')
  {
    hide Laid;
    if word == "" {
      lines' := lines;
      assert items + Letters(w, "", style) == items;
    } else {
      var n := |word| - 1;
      var before := LayLetters(w, max, p, items, lines, word[..n], style);
      var piece := Piece([Cell(word[n], style)], w.alone(word[n]));
      lines' := LayPiece(max, PutChars(w, max, p, word[..n], style), items + Letters(w, word[..n], style), before,
                         piece);
      assert items + Letters(w, word[..n], style) + [Put(piece)] == items + Letters(w, word, style);
    }
  }

  lemma LayWord(w: Widths, max: nat, p: Pen, items: seq<Item>, lines: seq<Line>, word: string, style: Style)
    returns (lines': seq<Line>)
    requires Laid(max, p, items, lines) && word != ""
    ensures Laid(max, PutWord(w, max, p, word, style), items + Pieces(w, max, word, style), lines')
  {
    if WordWidth(w, word) <= max {
      NoPieces();
      assert p.cur == [] ==> p.cw == 0;
      hide Laid;
      lines' := LayPiece(max, p, items, lines, Piece(Cells(word, style), WordWidth(w, word)));
    } else {
      lines' := LayLetters(w, max, p, items, lines, word, style);
    }
  }

  lemma {:induction false} LayText(w: Widths, max: nat, p: Pen, items: seq<Item>, lines: seq<Line>, s: string,
                                   style: Style) returns (lines': seq<Line>)
    requires Laid(max, p, items, lines)
    ensures Laid(max, Feed(w, max, p, s, style), items + Items(w, max, s, style), lines')
    decreases |s|
  {
    hide Laid; hide PutWord; hide Pieces;
    if s == "" {
      lines' := lines;
      assert items + [] == items;
    } else if s[0] == '\n' {
      var broken := LayBreak(max, p, items, lines);
      lines' := LayText(w, max, Flush(p), items + [Break], broken, s[1..], style);
      assert items + [Break] + Items(w, max, s[1..], style) == items + Items(w, max, s, style);
    } else {
      var k := WordLen(s);
      var word := Pieces(w, max, s[..k], style);
      var put := LayWord(w, max, p, items, lines, s[..k], style);
      lines' := LayText(w, max, PutWord(w, max, p, s[..k], style), items + word, put, s[k..], style);
      assert items + word + Items(w, max, s[k..], style) == items + Items(w, max, s, style);
    }
  }

  lemma {:induction false} LaySpans(w: Widths, max: nat, spans: seq<Span>) returns (lines: seq<Line>)
    ensures Laid(max, FeedSpans(w, max, BLANK, spans), SpanItems(w, max, spans), lines)
  {
    if spans == [] {
      lines := [Line([], false)];
      UnlaidSnoc([], lines[0]);
      assert [] + lines == lines;
    } else {
      hide Laid;
      var before, last := spans[..|spans| - 1], spans[|spans| - 1];
      var laid := LaySpans(w, max, before);
      lines := LayText(w, max, FeedSpans(w, max, BLANK, before), SpanItems(w, max, before), laid,
                       last.content, last.style);
    }
  }

  /** The rows are the greedy layout of the text: words that fit a row stay whole, others are laid out by character,
      newlines end a row, and a row ends otherwise only where the next piece would not fit. A last row without pieces
      counts only if it is the only one. */
  lemma RowsAreGreedy(w: Widths, max: nat, spans: seq<Span>) returns (lines: seq<Line>)
    requires max > 0
    ensures Greedy(max, lines) && Unlaid(lines) == SpanItems(w, max, spans)
    ensures var n := |lines| - 1;
            Wrap(w, max, spans) == if n > 0 && lines[n].pieces == [] then RowsOf(lines[..n]) else RowsOf(lines)
  {
    lines := LaySpans(w, max, spans);
    hide Greedy; hide Unlaid; hide FeedSpans; hide Total; hide RowOf;
    var p := FeedSpans(w, max, BLANK, spans);
    assert RowsOf(lines[..|lines| - 1]) == RowsOf(lines)[..|lines| - 1] == p.rows;
  }

  // ── Stability ─────────────────────────────────────────────────

  lemma {:induction false} PutCharsGrows(w: Widths, max: nat, p: Pen, s: string, style: Style)
    ensures p.rows <= PutChars(w, max, p, s, style).rows
  {
    if s != "" { PutCharsGrows(w, max, p, s[..|s| - 1], style); }
  }

  lemma PutWordGrows(w: Widths, max: nat, p: Pen, word: string, style: Style)
    ensures p.rows <= PutWord(w, max, p, word, style).rows
  {
    PutCharsGrows(w, max, p, word, style);
  }

  lemma {:induction false} FeedGrows(w: Widths, max: nat, p: Pen, s: string, style: Style)
    ensures p.rows <= Feed(w, max, p, s, style).rows
    decreases |s|
  {
    hide PutWord;
    if s == "" {
    } else if s[0] == '\n' {
      FeedGrows(w, max, Flush(p), s[1..], style);
    } else {
      PutWordGrows(w, max, p, s[..WordLen(s)], style);
      FeedGrows(w, max, PutWord(w, max, p, s[..WordLen(s)], style), s[WordLen(s)..], style);
    }
  }

  predicate EndsInSpace(s: string) { s == "" || IsWhitespace(s[|s| - 1]) }

  lemma {:induction false} WordLenStable(a: string, y: string)
    requires a != "" && EndsInSpace(a)
    ensures WordLen(a + y) == WordLen(a)
  {
    assert (a + y)[1..] == a[1..] + y;
    if a[0] != '\n' && !IsWhitespace(a[0]) { WordLenStable(a[1..], y); }
  }

  /** Behind whitespace, the text so far and the text to come are read one after the other. */
  lemma {:induction false} FeedSplits(w: Widths, max: nat, p: Pen, a: string, y: string, style: Style)
    requires EndsInSpace(a)
    ensures Feed(w, max, p, a + y, style) == Feed(w, max, Feed(w, max, p, a, style), y, style)
    decreases |a|
  {
    hide PutWord; hide IsWhitespace;
    if a == "" {
      assert a + y == y;
    } else if a[0] == '\n' {
      assert (a + y)[1..] == a[1..] + y;
      FeedSplits(w, max, Flush(p), a[1..], y, style);
    } else {
      WordLenStable(a, y);
      var k := WordLen(a);
      assert (a + y)[..k] == a[..k] && (a + y)[k..] == a[k..] + y;
      FeedSplits(w, max, PutWord(w, max, p, a[..k], style), a[k..], y, style);
    }
  }

  lemma {:induction false} WordLenOfWord(word: string, x: string)
    requires forall i | 0 <= i < |word| :: !IsWhitespace(word[i])
    ensures WordLen(word + x) >= |word| && WordLen(word) == |word|
  {
    if word != "" {
      assert (word + x)[1..] == word[1..] + x;
      assert !IsWhitespace(word[0]);
      WordLenOfWord(word[1..], x);
    }
  }

  lemma {:induction false} PutCharsConcat(w: Widths, max: nat, p: Pen, s: string, t: string, style: Style)
    ensures PutChars(w, max, p, s + t, style) == PutChars(w, max, PutChars(w, max, p, s, style), t, style)
  {
    if t == "" {
      assert s + t == s;
    } else {
      assert (s + t)[..|s + t| - 1] == s + t[..|t| - 1];
      PutCharsConcat(w, max, p, s, t[..|t| - 1], style);
    }
  }

  lemma {:induction false} WordWidthGrows(w: Widths, s: string, t: string)
    ensures WordWidth(w, s) <= WordWidth(w, s + t)
  {
    if t == "" {
      assert s + t == s;
    } else {
      assert (s + t)[..|s + t| - 1] == s + t[..|t| - 1];
      WordWidthGrows(w, s, t[..|t| - 1]);
    }
  }

  function AllButTwo(rows: seq<Row>): seq<Row> {
    if |rows| < 2 then [] else rows[..|rows| - 2]
  }

  /** A longer word may move from a row to the next, or back from there once it must be broken up;
      rows before these two stay. */
  lemma LongerWord(w: Widths, max: nat, p: Pen, word: string, u: string, style: Style)
    ensures AllButTwo(Finish(PutWord(w, max, p, word, style))) <= PutWord(w, max, p, word + u, style).rows
  {
    hide PutChars; hide WordWidth;
    PutWordGrows(w, max, p, word + u, style);
    WordWidthGrows(w, word, u);
    if WordWidth(w, word) > max {
      PutCharsConcat(w, max, p, word, u, style);
      PutCharsGrows(w, max, PutChars(w, max, p, word, style), u, style);
    }
  }

  /** Length of the part of `s` up to and including its last whitespace. */
  function SpacedPart(s: string): (k: nat)
    ensures k <= |s| && EndsInSpace(s[..k])
    ensures forall i | k <= i < |s| :: !IsWhitespace(s[i])
  {
    if s == "" then 0
    else if IsWhitespace(s[|s| - 1]) then |s|
    else
      var k := SpacedPart(s[..|s| - 1]);
      assert s[..|s| - 1][..k] == s[..k];
      k
  }

  /** A text without whitespace is read as one word. */
  lemma FeedOneWord(w: Widths, max: nat, p: Pen, word: string, style: Style)
    requires word != "" && word[0] != '\n' && WordLen(word) == |word|
    ensures Feed(w, max, p, word, style) == PutWord(w, max, p, word, style)
  {
    hide PutWord;
    assert word[..|word|] == word && word[|word|..] == "";
  }

  /** More text behind a word is read as a longer word, and what follows that. */
  lemma FeedLongerWord(w: Widths, max: nat, p: Pen, word: string, x: string, style: Style) returns (u: string)
    requires word != "" && forall i | 0 <= i < |word| :: !IsWhitespace(word[i])
    ensures PutWord(w, max, p, word + u, style).rows <= Feed(w, max, p, word + x, style).rows
  {
    hide PutWord; hide IsWhitespace;
    WordLenOfWord(word, x);
    assert !IsWhitespace(word[0]) && word[0] != '\n' by { SpaceIncludesNewline(); }
    var n := WordLen(word + x);
    u := (word + x)[|word|..n];
    assert (word + x)[..n] == word + u;
    FeedGrows(w, max, PutWord(w, max, p, word + u, style), (word + x)[n..], style);
  }

  lemma FeedLonger(w: Widths, max: nat, p: Pen, t: string, x: string, style: Style)
    ensures AllButTwo(Finish(Feed(w, max, p, t, style))) <= Feed(w, max, p, t + x, style).rows
  {
    hide PutWord; hide IsWhitespace; hide Feed;
    var k := SpacedPart(t);
    var a, word := t[..k], t[k..];
    var q := Feed(w, max, p, a, style);
    assert t == a + word && t + x == a + (word + x);
    FeedSplits(w, max, p, a, word, style);
    FeedSplits(w, max, p, a, word + x, style);
    if word == "" {
      assert t == a;
      FeedGrows(w, max, q, word + x, style);
    } else {
      WordLenOfWord(word, "");
      assert word[0] != '\n' by { SpaceIncludesNewline(); }
      FeedOneWord(w, max, q, word, style);
      var u := FeedLongerWord(w, max, q, word, x, style);
      LongerWord(w, max, q, word, u, style);
    }
  }

  lemma SpaceIncludesNewline()
    ensures IsWhitespace('\n')
  {
  }

  lemma {:induction false} FeedSpansGrows(w: Widths, max: nat, p: Pen, spans: seq<Span>)
    ensures p.rows <= FeedSpans(w, max, p, spans).rows
  {
    if spans != [] {
      FeedSpansGrows(w, max, p, spans[..|spans| - 1]);
      FeedGrows(w, max, FeedSpans(w, max, p, spans[..|spans| - 1]), spans[|spans| - 1].content,
          spans[|spans| - 1].style);
    }
  }

  lemma {:induction false} FeedSpansConcat(w: Widths, max: nat, p: Pen, a: seq<Span>, b: seq<Span>)
    ensures FeedSpans(w, max, p, a + b) == FeedSpans(w, max, FeedSpans(w, max, p, a), b)
  {
    if b == [] {
      assert a + b == a;
    } else {
      assert (a + b)[..|a + b| - 1] == a + b[..|b| - 1];
      FeedSpansConcat(w, max, p, a, b[..|b| - 1]);
    }
  }

  /** Text appended to the last span, and spans added behind it, change at most the last two rows. */
  lemma LastTwoRowsChange(w: Widths, max: nat, before: seq<Span>, t: string, x: string, style: Style, more: seq<Span>)
    ensures AllButTwo(Wrap(w, max, before + [Span(t, style)])) <= Wrap(w, max, before + [Span(t + x, style)] + more)
  {
    if max > 0 {
      hide Feed; hide Finish;
      var p := FeedSpans(w, max, BLANK, before);
      assert (before + [Span(t, style)])[..|before|] == before;
      assert (before + [Span(t + x, style)])[..|before|] == before;
      FeedLonger(w, max, p, t, x, style);
      var q := Feed(w, max, p, t + x, style);
      FeedSpansConcat(w, max, BLANK, before + [Span(t + x, style)], more);
      FeedSpansGrows(w, max, q, more);
      FinishHasRows(FeedSpans(w, max, q, more));
    }
  }

  lemma FinishHasRows(p: Pen)
    ensures p.rows <= Finish(p)
  {
  }

  const UNIT := Widths(_ => 1, _ => 1)

  /** Two rows are needed: a word that wrapped to the second row may have to be broken up once it grows, and
      then starts on the first row again. */
  lemma BothLastRowsCanChange()
    ensures Wrap(UNIT, 4, [Span("ab cde", 0)]) == [Cells("ab ", 0), Cells("cde", 0)]
    ensures [Cells("ab c", 0)] <= Wrap(UNIT, 4, [Span("ab cde" + "fg", 0)])
  {
    hide PutWord; hide Feed; hide Cells; hide FeedSpans;
    var ab := Pen([], Cells("ab ", 0), 3);
    FirstWord();
    ShortWord(ab);
    LongWord(ab);
    ReadTwoWords(UNIT, "cde");
    ReadTwoWords(UNIT, "cdefg");
    assert "ab " + "cde" == "ab cde" && "ab " + "cdefg" == "ab cde" + "fg";
    OneSpan(UNIT, 4, "ab cde");
    OneSpan(UNIT, 4, "ab cde" + "fg");
    FinishHasRows(PutWord(UNIT, 4, ab, "cdefg", 0));
  }

  lemma FirstWord()
    ensures PutWord(UNIT, 4, BLANK, "ab ", 0) == Pen([], Cells("ab ", 0), 3)
  {
    hide PutChars;
    WordWidthCounts(UNIT, "ab ");
    assert [] + Cells("ab ", 0) == Cells("ab ", 0);
  }

  lemma ShortWord(ab: Pen)
    requires ab == Pen([], Cells("ab ", 0), 3)
    ensures Finish(PutWord(UNIT, 4, ab, "cde", 0)) == [Cells("ab ", 0), Cells("cde", 0)]
  {
    hide PutChars;
    WordWidthCounts(UNIT, "cde");
    assert [] + Cells("cde", 0) == Cells("cde", 0);
  }

  lemma LongWord(ab: Pen)
    requires ab == Pen([], Cells("ab ", 0), 3)
    ensures [Cells("ab c", 0)] <= PutWord(UNIT, 4, ab, "cdefg", 0).rows
  {
    hide PutChars;
    WordWidthCounts(UNIT, "cdefg");
    var c := Pen([], Cells("ab c", 0), 4);
    assert Cells("ab ", 0) + [Cell('c', 0)] == Cells("ab c", 0);
    PutCharsOne(UNIT, 4, ab, 'c');
    PutCharsOne(UNIT, 4, c, 'd');
    assert PutChars(UNIT, 4, ab, ['c'], 0) == c;
    assert PutChars(UNIT, 4, c, ['d'], 0).rows == [Cells("ab c", 0)];
    PutCharsConcat(UNIT, 4, ab, ['c'], "defg", 0);
    PutCharsConcat(UNIT, 4, c, ['d'], "efg", 0);
    assert ['c'] + "defg" == "cdefg" && ['d'] + "efg" == "defg";
    PutCharsGrows(UNIT, 4, PutChars(UNIT, 4, c, ['d'], 0), "efg", 0);
  }

  lemma {:induction false} WordWidthCounts(w: Widths, s: string)
    requires forall c :: w.inWord(c) == 1
    ensures WordWidth(w, s) == |s|
  {
    if s != "" { WordWidthCounts(w, s[..|s| - 1]); }
  }

  lemma PutCharsOne(w: Widths, max: nat, p: Pen, c: char)
    ensures PutChars(w, max, p, [c], 0) == PutChar(w, max, p, c, 0)
  {
    assert [c][..0] == "";
  }

  lemma OneSpan(w: Widths, max: nat, s: string)
    ensures FeedSpans(w, max, BLANK, [Span(s, 0)]) == Feed(w, max, BLANK, s, 0)
  {
    assert [Span(s, 0)][..0] == [];
  }

  lemma ReadTwoWords(w: Widths, word: string)
    requires word in ["cde", "cdefg"]
    ensures Feed(w, 4, BLANK, "ab " + word, 0) == PutWord(w, 4, PutWord(w, 4, BLANK, "ab ", 0), word, 0)
  {
    hide PutWord; hide Feed;
    FeedSplits(w, 4, BLANK, "ab ", word, 0);
    assert WordLen("b ") == 2 by { assert "b "[1..] == " "; }
    assert WordLen("ab ") == 3 by { assert "ab "[1..] == "b "; }
    FeedOneWord(w, 4, BLANK, "ab ", 0);
    WordLenOfWord(word, "");
    FeedOneWord(w, 4, PutWord(w, 4, BLANK, "ab ", 0), word, 0);
  }

  // ── The program ───────────────────────────────────────────────

  /** `split('\n')`. */
  function SplitLines(s: string): (r: seq<string>)
    ensures r != []
  {
    if s == "" then [""]
    else
      var r := SplitLines(s[1..]);
      if s[0] == '\n' then [""] + r else [[s[0]] + r[0]] + r[1..]
  }

  function Join(lines: seq<string>): string
    requires lines != []
  {
    if |lines| == 1 then lines[0] else lines[0] + "\n" + Join(lines[1..])
  }

  lemma {:induction false} JoinSplit(s: string)
    ensures Join(SplitLines(s)) == s && forall i | 0 <= i < |SplitLines(s)| :: '\n' !in SplitLines(s)[i]
  {
    if s != "" {
      JoinSplit(s[1..]);
      var r := SplitLines(s[1..]);
      assert s == [s[0]] + s[1..];
      if s[0] == '\n' {
        assert SplitLines(s)[1..] == r;
      } else {
        assert SplitLines(s)[1..] == r[1..];
      }
    }
  }

  /** `split_inclusive` at whitespace, of a line. */
  function SplitWords(line: string): seq<string>
    requires '\n' !in line
    decreases |line|
  {
    if line == "" then [] else [line[..WordLen(line)]] + SplitWords(line[WordLen(line)..])
  }

  lemma {:induction false} WordLenBeforeNewline(line: string, tail: string)
    requires '\n' !in line && (tail == "" || tail[0] == '\n')
    ensures WordLen(line + tail) == WordLen(line)
  {
    if line == "" {
      assert line + tail == tail;
    } else {
      assert (line + tail)[1..] == line[1..] + tail;
      WordLenBeforeNewline(line[1..], tail);
    }
  }

  lemma FeedWord(w: Widths, max: nat, p: Pen, line: string, tail: string, style: Style)
    requires line != "" && '\n' !in line && (tail == "" || tail[0] == '\n')
    ensures Feed(w, max, p, line + tail, style)
         == Feed(w, max, PutWord(w, max, p, line[..WordLen(line)], style), line[WordLen(line)..] + tail, style)
  {
    hide PutWord;
    WordLenBeforeNewline(line, tail);
    var k := WordLen(line);
    assert (line + tail)[..k] == line[..k] && (line + tail)[k..] == line[k..] + tail;
  }

  /** One word: kept on the row, broken up character by character, or moved to the next row. */
  method WrapWord(w: Widths, max: nat, start: Pen, word: string, style: Style) returns (p: Pen)
    ensures p == PutWord(w, max, start, word, style)
  {
    var rows, cur := start.rows, start.cur;
    var cw: nat := start.cw;
    var ww := WordWidth(w, word);
    if cw + ww <= max {
      cur := cur + Cells(word, style);
      cw := cw + ww;
    } else if ww > max {
      for j := 0 to |word|
        invariant PutChars(w, max, start, word[..j], style) == Pen(rows, cur, cw)
      {
        var upTo := word[..j + 1];
        assert upTo[..|upTo| - 1] == word[..j];
        var chw := w.alone(word[j]);
        if cw + chw > max && cur != [] {
          rows, cur, cw := rows + [cur], [], 0;
        }
        cur := cur + [Cell(word[j], style)];
        cw := cw + chw;
      }
      assert word[..|word|] == word;
    } else {
      if cur != [] {
        rows, cur := rows + [cur], [];
      }
      cur := cur + Cells(word, style);
      cw := ww;
    }
    p := Pen(rows, cur, cw);
  }

  /** The words of one line, put one after another. */
  method WrapLine(w: Widths, max: nat, start: Pen, line: string, style: Style, ghost tail: string) returns (p: Pen)
    requires '\n' !in line && (tail == "" || tail[0] == '\n')
    ensures Feed(w, max, start, line + tail, style) == Feed(w, max, p, tail, style)
  {
    hide Feed; hide PutWord;
    p := start;
    var words := SplitWords(line);
    ghost var rest := line;
    for i := 0 to |words|
      invariant '\n' !in rest && SplitWords(rest) == words[i..]
      invariant Feed(w, max, start, line + tail, style) == Feed(w, max, p, rest + tail, style)
    {
      FeedWord(w, max, p, rest, tail, style);
      p := WrapWord(w, max, p, words[i], style);
      rest := rest[WordLen(rest)..];
    }
    assert rest == "" && rest + tail == tail;
  }

  method WrapStyledLines(w: Widths, spans: seq<Span>, max: nat) returns (rows: seq<Row>)
    ensures rows == Wrap(w, max, spans)
  {
    hide Feed;
    if max == 0 { return [[]]; }
    var p := BLANK;
    for i := 0 to |spans|
      invariant p == FeedSpans(w, max, BLANK, spans[..i])
    {
      var content, style := spans[i].content, spans[i].style;
      var segments := SplitLines(content);
      ghost var start := p;
      JoinSplit(content);
      for k := 0 to |segments|
        invariant Feed(w, max, start, content, style) == Feed(w, max, p, Unread(segments, k), style)
      {
        if k > 0 {
          FeedNewline(w, max, p, Join(segments[k..]), style);
          p := Flush(p);
        }
        UnreadStep(segments, k);
        p := WrapLine(w, max, p, segments[k], style, Unread(segments, k + 1));
      }
      FeedNothing(w, max, p, style);
      assert spans[..i + 1][..i] == spans[..i];
    }
    assert spans[..|spans|] == spans;
    rows := if p.cur != [] || p.rows == [] then p.rows + [p.cur] else p.rows;
  }

  /** What is left of a text before its `k`-th line, with the newline in front of it. */
  ghost function Unread(segments: seq<string>, k: nat): string
    requires k <= |segments|
  {
    if k == |segments| then "" else if k == 0 then Join(segments) else "\n" + Join(segments[k..])
  }

  lemma UnreadStep(segments: seq<string>, k: nat)
    requires k < |segments|
    ensures Join(segments[k..]) == segments[k] + Unread(segments, k + 1)
    ensures segments[0..] == segments
  {
    if k + 1 < |segments| {
      assert segments[k..][1..] == segments[k + 1..];
      assert segments[k] + "\n" + Join(segments[k + 1..]) == segments[k] + ("\n" + Join(segments[k + 1..]));
    } else {
      assert segments[k] + "" == segments[k];
    }
  }

  lemma FeedNewline(w: Widths, max: nat, p: Pen, s: string, style: Style)
    ensures Feed(w, max, p, "\n" + s, style) == Feed(w, max, Flush(p), s, style)
  {
    assert ("\n" + s)[1..] == s;
  }

  lemma FeedNothing(w: Widths, max: nat, p: Pen, style: Style)
    ensures Feed(w, max, p, "", style) == p
  {
  }
}
