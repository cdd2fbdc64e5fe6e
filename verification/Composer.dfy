/** The input line of the terminal client: a text with a cursor kept as a byte offset, and a history of inputs. */
module Composer {
  import opened Text

  // ── Byte offsets into text ────────────────────────────────────

  function LenUtf8(c: char): nat {
    if c as int < 0x80 then 1 else if c as int < 0x800 then 2 else if c as int < 0x1_0000 then 3 else 4
  }

  /** Byte offset of the `k`-th character. */
  function Offset(s: string, k: nat): nat
    requires k <= |s|
  {
    if k == 0 then 0 else Offset(s, k - 1) + LenUtf8(s[k - 1])
  }

  function ByteLen(s: string): nat { Offset(s, |s|) }

  predicate IsCharBoundary(s: string, p: nat) {
    exists k | 0 <= k <= |s| :: Offset(s, k) == p
  }

  lemma {:induction false} OffsetGrows(s: string, i: nat, j: nat)
    requires i <= j <= |s|
    ensures Offset(s, i) + (j - i) <= Offset(s, j)
  {
    if i < j { OffsetGrows(s, i, j - 1); }
  }

  lemma {:induction false} OffsetOfPrefix(s: string, t: string, k: nat)
    requires k <= |s| && k <= |t| && s[..k] == t[..k]
    ensures Offset(s, k) == Offset(t, k)
  {
    if k > 0 {
      assert s[..k - 1] == s[..k][..k - 1] && t[..k - 1] == t[..k][..k - 1];
      assert s[k - 1] == s[..k][k - 1] && t[k - 1] == t[..k][k - 1];
      OffsetOfPrefix(s, t, k - 1);
    }
  }

  /** No boundary lies inside a character. */
  lemma NoBoundaryInside(s: string, k: nat, p: nat)
    requires k < |s| && Offset(s, k) < p < Offset(s, k + 1)
    ensures !IsCharBoundary(s, p)
  {
    forall j | 0 <= j <= |s| ensures Offset(s, j) != p {
      if j <= k { OffsetGrows(s, j, k); } else { OffsetGrows(s, k + 1, j); }
    }
  }

  /** Index of the character at a boundary, searched from `k` on. */
  function CharIndex(s: string, p: nat, k: nat): (i: nat)
    requires k <= |s| && exists j | k <= j <= |s| :: Offset(s, j) == p
    ensures k <= i <= |s| && Offset(s, i) == p
    decreases |s| - k
  {
    if Offset(s, k) == p then k else CharIndex(s, p, k + 1)
  }

  /** `String::insert`. */
  function InsertAt(s: string, p: nat, c: char): string
    requires IsCharBoundary(s, p)
  {
    var i := CharIndex(s, p, 0);
    s[..i] + [c] + s[i..]
  }

  /** `String::remove`. */
  function RemoveAt(s: string, p: nat): string
    requires IsCharBoundary(s, p) && p < ByteLen(s)
  {
    var i := CharIndex(s, p, 0);
    if i < |s| then s[..i] + s[i + 1..] else s
  }

  lemma CharIndexOf(s: string, k: nat)
    requires k <= |s|
    ensures IsCharBoundary(s, Offset(s, k)) && CharIndex(s, Offset(s, k), 0) == k
  {
    var i := CharIndex(s, Offset(s, k), 0);
    if i < k { OffsetGrows(s, i, k); } else { OffsetGrows(s, k, i); }
  }

  // ── The editor on characters ──────────────────────────────────

  datatype Key = Enter | Up | Down | Left | Right | Home | End | Backspace | Delete | Char(c: char) | Other

  /** Text before and behind the cursor, the history, the position in it (-1 outside) and the draft set aside. */
  datatype Zipper = Zipper(before: string, behind: string, history: seq<string>, pos: int, draft: string)

  const EMPTY := Zipper("", "", [], -1, "")

  predicate WellFormed(z: Zipper) {
    -1 <= z.pos < |z.history| && (z.pos == -1 ==> z.draft == "")
  }

  function Shown(z: Zipper): string { z.before + z.behind }

  function Outside(z: Zipper): Zipper { z.(pos := -1, draft := "") }

  function Prev(z: Zipper): Zipper
    requires WellFormed(z)
  {
    if z.history == [] then z
    else if z.pos == -1 then
      z.(before := z.history[|z.history| - 1], behind := "", pos := |z.history| - 1, draft := Shown(z))
    else
      var pos := if z.pos > 0 then z.pos - 1 else 0;
      z.(before := z.history[pos], behind := "", pos := pos)
  }

  function Next(z: Zipper): Zipper
    requires WellFormed(z)
  {
    if z.pos == -1 then z
    else if z.pos + 1 == |z.history| then z.(before := z.draft, behind := "", pos := -1, draft := "")
    else z.(before := z.history[z.pos + 1], behind := "", pos := z.pos + 1)
  }

  function Press(z: Zipper, key: Key, control: bool): Zipper
    requires WellFormed(z)
  {
    var n := |z.before|;
    match key
    case Up => Prev(z)
    case Down => Next(z)
    case Left => if n == 0 then z else z.(before := z.before[..n - 1], behind := [z.before[n - 1]] + z.behind)
    case Right => if z.behind == "" then z else z.(before := z.before + [z.behind[0]], behind := z.behind[1..])
    case Home => z.(before := "", behind := Shown(z))
    case End => z.(before := Shown(z), behind := "")
    case Backspace => Outside(if n == 0 then z else z.(before := z.before[..n - 1]))
    case Delete => Outside(if z.behind == "" then z else z.(behind := z.behind[1..]))
    case Char(c) =>
      if control && c == 'p' then Prev(z)
      else if control && c == 'n' then Next(z)
      else Outside(z.(before := z.before + [c]))
    case _ => z
  }

  // ── The composer on byte offsets ──────────────────────────────

  class Editor {
    var text: string
    var cursor: nat
    var history: seq<string>
    var historyPos: int
    var draft: string
    ghost var zipper: Zipper

    /** The composer shows its zipper, and its cursor is the byte offset of the zipper's gap. */
    ghost predicate Valid()
      reads this
    {
      && WellFormed(zipper)
      && text == Shown(zipper) && cursor == ByteLen(zipper.before)
      && history == zipper.history && historyPos == zipper.pos && draft == zipper.draft
    }

    constructor ()
      ensures Valid() && zipper == EMPTY
    {
      text, cursor, history, historyPos, draft := "", 0, [], -1, "";
      zipper := EMPTY;
    }

    method Clear()
      requires Valid()
      modifies this
      ensures Valid() && zipper == old(zipper).(before := "", behind := "")
    {
      text, cursor := "", 0;
      zipper := zipper.(before := "", behind := "");
    }

    method AddToHistory(entry: string)
      requires Valid()
      modifies this
      ensures Valid()
      ensures zipper == Outside(old(zipper).(history := if entry == "" then old(history) else old(history) + [entry]))
    {
      if entry != "" { history := history + [entry]; }
      historyPos, draft := -1, "";
      zipper := Outside(zipper.(history := history));
    }

    /** The last boundary at or before the cursor; the cursor itself, wherever it is on one. */
    method ClampByte() returns (p: nat)
      ensures IsCharBoundary(text, p) && p <= cursor && p <= ByteLen(text)
      ensures forall q: nat | p < q <= cursor && q <= ByteLen(text) :: !IsCharBoundary(text, q)
    {
      assert Offset(text, 0) == 0;
      p := if cursor < ByteLen(text) then cursor else ByteLen(text);
      while p > 0 && !IsCharBoundary(text, p)
        invariant p <= cursor && p <= ByteLen(text)
        invariant forall q: nat | p < q <= cursor && q <= ByteLen(text) :: !IsCharBoundary(text, q)
      {
        p := p - 1;
      }
    }

    /** The boundary before `pos`. */
    method StepLeft(pos: nat) returns (prev: nat)
      requires Valid() && pos == cursor > 0
      ensures zipper.before != "" && prev == ByteLen(zipper.before[..|zipper.before| - 1])
      ensures prev == Offset(text, |zipper.before| - 1)
    {
      ghost var k := |zipper.before| - 1;
      CharBeforeGap(zipper);
      prev := pos - 1;
      while prev > 0 && !IsCharBoundary(text, prev)
        invariant Offset(text, k) <= prev < Offset(text, k + 1)
      {
        CharIndexOf(text, k);
        prev := prev - 1;
      }
      if prev > Offset(text, k) { NoBoundaryInside(text, k, prev); }
    }

    /** The boundary behind `pos`. */
    method StepRight(pos: nat) returns (next: nat)
      requires Valid() && pos == cursor < ByteLen(text)
      ensures zipper.behind != "" && next == ByteLen(zipper.before + [zipper.behind[0]])
    {
      ghost var k := |zipper.before|;
      CharBehindGap(zipper);
      next := pos + 1;
      CharIndexOf(text, k + 1);
      while next < ByteLen(text) && !IsCharBoundary(text, next)
        invariant Offset(text, k) < next <= Offset(text, k + 1) <= ByteLen(text)
      {
        next := next + 1;
      }
      if next < Offset(text, k + 1) { NoBoundaryInside(text, k, next); }
    }

    method HistoryPrev()
      requires Valid()
      modifies this
      ensures Valid() && zipper == Prev(old(zipper))
    {
      zipper := Prev(zipper);
      if history != [] && historyPos == -1 {
        draft := text;
        historyPos := |history| - 1;
      } else if historyPos > 0 {
        historyPos := historyPos - 1;
      }
      if historyPos >= 0 {
        text := history[historyPos];
        cursor := ByteLen(text);
        assert text + "" == text;
      }
    }

    method HistoryNext()
      requires Valid()
      modifies this
      ensures Valid() && zipper == Next(old(zipper))
    {
      zipper := Next(zipper);
      if historyPos >= 0 {
        historyPos := historyPos + 1;
        if historyPos >= |history| {
          text := draft;
          historyPos := -1;
          draft := "";
        } else {
          text := history[historyPos];
        }
        cursor := ByteLen(text);
        assert text + "" == text;
      }
    }

    /** Handles a key; true when Enter is pressed on a text that is not blank. */
    method HandleKey(key: Key, control: bool) returns (ready: bool)
      requires Valid()
      modifies this
      ensures Valid() && zipper == Press(old(zipper), key, control)
      ensures ready == (key == Enter && Trim(Shown(old(zipper))) != "")
      ensures IsCharBoundary(text, cursor)
    {
      hide Offset; hide IsCharBoundary; hide Trim;
      NoBytes();
      JoinedWithNothing(text);
      ready := false;
      match key {
        case Enter => ready := Trim(text) != "";
        case Up => HistoryPrev();
        case Down => HistoryNext();
        case Left => CursorLeft();
        case Right => CursorRight();
        case Home =>
          cursor := 0;
          zipper := Press(zipper, key, control);
        case End =>
          cursor := ByteLen(text);
          zipper := Press(zipper, key, control);
        case Backspace => RemoveBefore();
        case Delete => RemoveBehind();
        case Char(c) =>
          if control && c == 'p' {
            HistoryPrev();
          } else if control && c == 'n' {
            HistoryNext();
          } else {
            TypeChar(c);
          }
        case Other =>
      }
      GapIsBoundary(zipper);
    }

    method CursorLeft()
      requires Valid()
      modifies this
      ensures Valid() && zipper == Press(old(zipper), Left, false)
    {
      hide Offset; hide IsCharBoundary;
      GapIsBoundary(zipper);
      var pos := ClampByte();
      if pos > 0 {
        cursor := StepLeft(pos);
        ghost var z := zipper;
        zipper := Press(zipper, Left, false);
        assert z.before == z.before[..|z.before| - 1] + [z.before[|z.before| - 1]];
      } else {
        NothingBefore(zipper);
      }
    }

    method CursorRight()
      requires Valid()
      modifies this
      ensures Valid() && zipper == Press(old(zipper), Right, false)
    {
      hide Offset; hide IsCharBoundary;
      GapIsBoundary(zipper);
      var pos := ClampByte();
      if pos < ByteLen(text) {
        cursor := StepRight(pos);
        ghost var z := zipper;
        zipper := Press(zipper, Right, false);
        assert z.behind == [z.behind[0]] + z.behind[1..];
      } else {
        NothingBehind(zipper);
      }
    }

    method RemoveBefore()
      requires Valid()
      modifies this
      ensures Valid() && zipper == Press(old(zipper), Backspace, false)
    {
      hide Offset; hide IsCharBoundary; hide RemoveAt; hide CharIndex;
      GapIsBoundary(zipper);
      var pos := ClampByte();
      if pos > 0 {
        var prev := StepLeft(pos);
        RemoveIndex(text, |zipper.before| - 1);
        RemoveBeforeGap(zipper);
        text := RemoveAt(text, prev);
        cursor := prev;
      } else {
        NothingBefore(zipper);
      }
      historyPos, draft := -1, "";
      zipper := Press(zipper, Backspace, false);
    }

    method RemoveBehind()
      requires Valid()
      modifies this
      ensures Valid() && zipper == Press(old(zipper), Delete, false)
    {
      hide Offset; hide IsCharBoundary; hide RemoveAt; hide CharIndex;
      GapIsBoundary(zipper);
      var pos := ClampByte();
      if pos < ByteLen(text) {
        var next := StepRight(pos);
        RemoveIndex(text, |zipper.before|);
        RemoveBehindGap(zipper);
        text := RemoveAt(text, pos);
      } else {
        NothingBehind(zipper);
      }
      historyPos, draft := -1, "";
      zipper := Press(zipper, Delete, false);
    }

    method TypeChar(c: char)
      requires Valid()
      modifies this
      ensures Valid() && zipper == Outside(old(zipper).(before := old(zipper).before + [c]))
    {
      hide Offset; hide IsCharBoundary; hide InsertAt; hide CharIndex;
      GapIsBoundary(zipper);
      var pos := ClampByte();
      InsertAtGap(zipper, c);
      text := InsertAt(text, pos, c);
      cursor := pos + LenUtf8(c);
      historyPos, draft := -1, "";
      zipper := Outside(zipper.(before := zipper.before + [c]));
    }
  }

  /** The gap of a zipper is a boundary of its text, at the byte length of what stands before it. */
  lemma GapIsBoundary(z: Zipper)
    ensures ByteLen(z.before) == Offset(Shown(z), |z.before|) && IsCharBoundary(Shown(z), ByteLen(z.before))
    ensures ByteLen(z.before) <= ByteLen(Shown(z))
  {
    assert Shown(z)[..|z.before|] == z.before[..|z.before|];
    OffsetOfPrefix(z.before, Shown(z), |z.before|);
    OffsetGrows(Shown(z), |z.before|, |Shown(z)|);
  }

  lemma NoBytes()
    ensures ByteLen("") == 0
  {
  }

  lemma JoinedWithNothing(s: string)
    ensures s + "" == s && "" + s == s
  {
  }

  lemma CharBeforeGap(z: Zipper)
    requires ByteLen(z.before) > 0
    ensures z.before != ""
    ensures var k := |z.before| - 1;
            && Offset(Shown(z), k) == ByteLen(z.before[..k])
            && Offset(Shown(z), k + 1) == ByteLen(z.before) && Offset(Shown(z), k) < ByteLen(z.before)
  {
    GapIsBoundary(z);
    var k := |z.before| - 1;
    assert Shown(z)[..k] == z.before[..k] == z.before[..k][..k];
    OffsetOfPrefix(z.before[..k], Shown(z), k);
  }

  lemma CharBehindGap(z: Zipper)
    requires ByteLen(z.before) < ByteLen(Shown(z))
    ensures z.behind != ""
    ensures var k := |z.before|;
            && Offset(Shown(z), k) == ByteLen(z.before)
            && Offset(Shown(z), k + 1) == ByteLen(z.before + [z.behind[0]]) <= ByteLen(Shown(z))
  {
    GapIsBoundary(z);
    var k := |z.before|;
    assert z.behind == "" ==> Shown(z) == z.before;
    assert Shown(z)[..k + 1] == (z.before + [z.behind[0]])[..k + 1];
    OffsetOfPrefix(z.before + [z.behind[0]], Shown(z), k + 1);
    OffsetGrows(Shown(z), k + 1, |Shown(z)|);
  }

  lemma InsertAtGap(z: Zipper, c: char)
    ensures IsCharBoundary(Shown(z), ByteLen(z.before))
    ensures InsertAt(Shown(z), ByteLen(z.before), c) == z.before + [c] + z.behind
    ensures ByteLen(z.before + [c]) == ByteLen(z.before) + LenUtf8(c)
  {
    GapIsBoundary(z);
    CharIndexOf(Shown(z), |z.before|);
    assert Shown(z)[..|z.before|] == z.before && Shown(z)[|z.before|..] == z.behind;
    assert (z.before + [c])[..|z.before|] == z.before[..|z.before|];
    OffsetOfPrefix(z.before, z.before + [c], |z.before|);
  }

  lemma RemoveIndex(s: string, k: nat)
    requires k < |s|
    ensures IsCharBoundary(s, Offset(s, k)) && Offset(s, k) < ByteLen(s)
    ensures RemoveAt(s, Offset(s, k)) == s[..k] + s[k + 1..]
  {
    CharIndexOf(s, k);
    OffsetGrows(s, k, |s|);
  }

  lemma RemoveBeforeGap(z: Zipper)
    requires z.before != ""
    ensures var s, k := Shown(z), |z.before| - 1;
            s[..k] + s[k + 1..] == z.before[..k] + z.behind
  {
  }

  lemma RemoveBehindGap(z: Zipper)
    requires z.behind != ""
    ensures var s, k := Shown(z), |z.before|;
            s[..k] + s[k + 1..] == z.before + z.behind[1..]
  {
  }

  lemma NothingBefore(z: Zipper)
    requires ByteLen(z.before) == 0
    ensures z.before == ""
  {
    OffsetGrows(z.before, 0, |z.before|);
  }

  lemma NothingBehind(z: Zipper)
    requires ByteLen(z.before) >= ByteLen(Shown(z))
    ensures z.behind == ""
  {
    GapIsBoundary(z);
    OffsetGrows(Shown(z), |z.before|, |Shown(z)|);
  }

  // ── Keys on the text ──────────────────────────────────────────

  /** `t` is `s` with `c` put in at `k`. */
  predicate Inserted(s: string, k: int, c: char, t: string) {
    && 0 <= k <= |s| && |t| == |s| + 1 && t[k] == c
    && (forall i | 0 <= i < k :: t[i] == s[i]) && (forall i | k < i < |t| :: t[i] == s[i - 1])
  }

  /** Cursor keys move by one character, or to an end, within the text, which they leave with the history. */
  lemma CursorKeys(z: Zipper, key: Key)
    requires WellFormed(z) && (key.Left? || key.Right? || key.Home? || key.End?)
    ensures var z' := Press(z, key, false);
            var k, n, k' := |z.before|, |Shown(z)|, |z'.before|;
            && Shown(z') == Shown(z) && z'.history == z.history && z'.pos == z.pos && z'.draft == z.draft
            && (key.Left? ==> k' == if k > 0 then k - 1 else 0)
            && (key.Right? ==> k' == if k < n then k + 1 else n)
            && (key.Home? ==> k' == 0)
            && (key.End? ==> k' == n)
  {
    var z' := Press(z, key, false);
    if key.Left? && z.before != "" {
      assert z.before == z'.before + [z.before[|z.before| - 1]];
    } else if key.Right? && z.behind != "" {
      assert z.behind == [z.behind[0]] + z'.behind;
    }
  }

  /** Backspace takes out the character before the cursor, Delete the one behind it, if there is one. */
  lemma ErasingKeys(z: Zipper, key: Key)
    requires WellFormed(z) && (key.Backspace? || key.Delete?)
    ensures var z' := Press(z, key, false);
            var (s, k, s', k') := (Shown(z), |z.before|, Shown(z'), |z'.before|);
            && z'.history == z.history && z'.pos == -1 && z'.draft == ""
            && (key.Backspace? && k > 0 ==> k' == k - 1 && Inserted(s', k - 1, s[k - 1], s))
            && (key.Delete? && k < |s| ==> k' == k && Inserted(s', k, s[k], s))
            && (k == (if key.Backspace? then 0 else |s|) ==> s' == s && k' == k)
  {
  }

  /** Any other character comes in before the cursor; with the control key, p and n are Up and Down. */
  lemma CharKeys(z: Zipper, c: char, control: bool)
    requires WellFormed(z)
    ensures var z' := Press(z, Char(c), control);
            var (s, k, s', k') := (Shown(z), |z.before|, Shown(z'), |z'.before|);
            if control && c == 'p' then z' == Press(z, Up, false)
            else if control && c == 'n' then z' == Press(z, Down, false)
            else k' == k + 1 && Inserted(s, k, c, s') && z'.history == z.history && z'.pos == -1 && z'.draft == ""
  {
  }

  function Type(z: Zipper, typed: string): (r: Zipper)
    requires WellFormed(z)
    ensures WellFormed(r)
  {
    if typed == "" then z else Press(Type(z, typed[..|typed| - 1]), Char(typed[|typed| - 1]), false)
  }

  function Repeatedly(z: Zipper, key: Key, n: nat): (r: Zipper)
    requires WellFormed(z)
    ensures WellFormed(r)
    decreases n
  {
    if n == 0 then z else Repeatedly(Press(z, key, false), key, n - 1)
  }

  /** Text typed anywhere stands before the cursor, and as many Backspaces, or Lefts and then Deletes, take it out. */
  lemma TypedIsErased(z: Zipper, typed: string)
    requires WellFormed(z) && z.pos == -1
    ensures Type(z, typed) == z.(before := z.before + typed)
    ensures Repeatedly(Type(z, typed), Backspace, |typed|) == z
    ensures Repeatedly(Repeatedly(Type(z, typed), Left, |typed|), Delete, |typed|) == z
  {
    TypedStands(z, typed);
    Erased(z, typed);
    WalkedBack(z, typed);
    DeletedAhead(z, typed);
  }

  lemma {:induction false} TypedStands(z: Zipper, typed: string)
    requires WellFormed(z) && z.pos == -1
    ensures Type(z, typed) == z.(before := z.before + typed)
  {
    if typed == "" {
      assert z.before + "" == z.before;
    } else {
      TypedStands(z, typed[..|typed| - 1]);
      assert z.before + typed[..|typed| - 1] + [typed[|typed| - 1]] == z.before + typed;
    }
  }

  lemma {:induction false} Erased(z: Zipper, typed: string)
    requires WellFormed(z) && z.pos == -1
    ensures Repeatedly(z.(before := z.before + typed), Backspace, |typed|) == z
    decreases |typed|
  {
    var n := |typed| - 1;
    if typed == "" {
      assert z.before + "" == z.before;
    } else {
      assert (z.before + typed)[..|z.before + typed| - 1] == z.before + typed[..n];
      Erased(z, typed[..n]);
    }
  }

  lemma {:induction false} WalkedBack(z: Zipper, typed: string)
    requires WellFormed(z)
    ensures Repeatedly(z.(before := z.before + typed), Left, |typed|) == z.(behind := typed + z.behind)
    decreases |typed|
  {
    var n := |typed| - 1;
    if typed == "" {
      assert z.before + "" == z.before && "" + z.behind == z.behind;
    } else {
      var start, last := z.(before := z.before + typed), [typed[n]];
      assert start.before[..|start.before| - 1] == z.before + typed[..n];
      WalkedBack(z.(behind := last + z.behind), typed[..n]);
      assert typed[..n] + (last + z.behind) == typed + z.behind;
    }
  }

  lemma {:induction false} DeletedAhead(z: Zipper, typed: string)
    requires WellFormed(z) && z.pos == -1
    ensures Repeatedly(z.(behind := typed + z.behind), Delete, |typed|) == z
    decreases |typed|
  {
    if typed == "" {
      assert "" + z.behind == z.behind;
    } else {
      assert (typed + z.behind)[1..] == typed[1..] + z.behind;
      DeletedAhead(z, typed[1..]);
    }
  }

  // ── Recalling the history and coming back ─────────────────────

  function Ups(z: Zipper, k: nat): (r: Zipper)
    requires WellFormed(z)
    ensures WellFormed(r)
  {
    if k == 0 then z else Prev(Ups(z, k - 1))
  }

  function Downs(z: Zipper, k: nat): (r: Zipper)
    requires WellFormed(z)
    ensures WellFormed(r)
    decreases k
  {
    if k == 0 then z else Downs(Next(z), k - 1)
  }

  lemma {:induction false} UpsClimb(z: Zipper, k: nat)
    requires WellFormed(z) && z.pos == -1 && z.history != [] && k > 0
    ensures var r, n := Ups(z, k), |z.history|;
            r.history == z.history && r.draft == Shown(z) && r.pos == if k <= n then n - k else 0
  {
    if k > 1 { UpsClimb(z, k - 1); }
  }

  lemma {:induction false} DownsReturn(z: Zipper, m: nat)
    requires WellFormed(z) && z.pos >= 0 && m >= |z.history| - z.pos
    ensures Downs(z, m) == Zipper(z.draft, "", z.history, -1, "")
    decreases m
  {
    if z.pos + 1 < |z.history| {
      DownsReturn(Next(z), m - 1);
    } else {
      DownsOutside(Next(z), m - 1);
    }
  }

  lemma {:induction false} DownsOutside(z: Zipper, m: nat)
    requires WellFormed(z) && z.pos == -1
    ensures Downs(z, m) == z
    decreases m
  {
    if m > 0 { DownsOutside(z, m - 1); }
  }

  /** From outside the history, any number of Ups and then as many Downs, or as many as there are inputs, bring the
      draft back, with the cursor at its end. */
  lemma UpsThenDownsRestore(z: Zipper, ups: nat, downs: nat)
    requires WellFormed(z) && z.pos == -1
    requires downs >= ups || downs >= |z.history|
    ensures Downs(Ups(z, ups), downs)
         == if ups == 0 || z.history == [] then z else z.(before := Shown(z), behind := "")
  {
    if ups == 0 {
      DownsOutside(z, downs);
    } else if z.history == [] {
      UpsWithoutHistory(z, ups);
      DownsOutside(z, downs);
    } else {
      UpsClimb(z, ups);
      DownsReturn(Ups(z, ups), downs);
    }
  }

  lemma {:induction false} UpsWithoutHistory(z: Zipper, k: nat)
    requires WellFormed(z) && z.history == []
    ensures Ups(z, k) == z
  {
    if k > 0 { UpsWithoutHistory(z, k - 1); }
  }

  /** From outside the history, Ups and then Downs show the input that many steps from the newest, not before the
      oldest, with the cursor behind it, until the Downs run out of inputs. */
  lemma RecalledInput(z: Zipper, ups: nat, downs: nat)
    requires WellFormed(z) && z.pos == -1 && ups > 0 && z.history != []
    ensures var n, r := |z.history|, Downs(Ups(z, ups), downs);
            var at := (if ups <= n then n - ups else 0) + downs;
            && r.history == z.history
            && (at < n ==> r.pos == at && r.before == z.history[at] && r.behind == "" && r.draft == Shown(z))
            && (at >= n ==> Shown(r) == Shown(z) && r.behind == "" && r.pos == -1)
  {
    UpsClimb(z, ups);
    UpsShow(z, ups);
    var at := Ups(z, ups).pos;
    if at + downs < |z.history| { DownsShow(Ups(z, ups), downs); } else { DownsReturn(Ups(z, ups), downs); }
  }

  lemma UpsShow(z: Zipper, ups: nat)
    requires WellFormed(z) && z.pos == -1 && ups > 0 && z.history != []
    ensures var r := Ups(z, ups); r.pos >= 0 && r.before == r.history[r.pos] && r.behind == ""
  {
    UpsClimb(z, ups);
    if ups > 1 { UpsClimb(z, ups - 1); }
  }

  lemma {:induction false} DownsShow(z: Zipper, downs: nat)
    requires WellFormed(z) && z.pos >= 0 && z.pos + downs < |z.history|
    requires z.before == z.history[z.pos] && z.behind == ""
    ensures Downs(z, downs) == z.(before := z.history[z.pos + downs], pos := z.pos + downs)
    decreases downs
  {
    if downs > 0 { DownsShow(Next(z), downs - 1); }
  }
}
