/** The Telegram bot's offset protocol: the server's queue, the offset in memory and on disk, the duplicate window,
    and crashes at any point (`run_telegram_loop`). */
module TelegramOffsets {
  import opened Wrappers
  import opened Dedup

  type UpdateId = nat

  /** An update; `wanted` tells whether it carries non-empty text from an allowed chat. */
  datatype Update = Update(id: UpdateId, wanted: bool)

  const TTL: nat := 300_000_000_000

  /** Between polls, or in the middle of a batch: what is left of it, and the offset it started from. */
  datatype Work = Idle | InBatch(batch: seq<Update>, done: nat, base: UpdateId)

  /** A running incarnation: its offset in memory, the calls its window has seen, and what it pushed, with times. */
  datatype Bot = Down | Up(last: UpdateId, calls: seq<Call<UpdateId>>, pushed: seq<Call<UpdateId>>, work: Work)

  /** Every update the server ever issued, those it has discarded, the offset on disk, the running incarnation, and
      the updates some incarnation has fully handled or pushed. */
  datatype State = State(issued: map<UpdateId, bool>, discarded: set<UpdateId>, disk: UpdateId, bot: Bot,
                         handled: set<UpdateId>, everPushed: set<UpdateId>)

  const INIT := State(map[], {}, 0, Down, {}, {})

  /** A poll, answered or lost, lets the server discard any updates below the offset it names. */
  datatype Step =
    | Issue(u: Update)
    | Start(loaded: UpdateId)
    | Poll(gone: set<UpdateId>, batch: Option<seq<Update>>)
    | Handle(now: int)
    | FinishBatch(saved: bool)
    | Crash

  /** What the server returns: updates not discarded and not below the offset, with no gap: nothing older that it
      still holds is left out. Order and repetition are free. */
  predicate ServedFrom(s: State, offset: UpdateId, batch: seq<Update>) {
    && (forall i | 0 <= i < |batch| ::
          && batch[i].id >= offset && batch[i].id in s.issued && batch[i].id !in s.discarded
          && s.issued[batch[i].id] == batch[i].wanted)
    && (forall id, i | id in s.issued && id !in s.discarded && offset <= id && 0 <= i < |batch| && id < batch[i].id ::
          exists k :: 0 <= k < |batch| && batch[k].id == id)
  }

  predicate Enabled(s: State, step: Step) {
    match step
    case Issue(u) => 0 < u.id && forall id | id in s.issued :: id < u.id
    case Start(loaded) => s.bot.Down? && (loaded == s.disk || loaded == 0)
    case Poll(gone, batch) =>
      && s.bot.Up? && s.bot.work.Idle?
      && gone <= (set id | id in s.issued && id < s.bot.last + 1)
      && (batch.Some? ==> ServedFrom(s, s.bot.last + 1, batch.value))
    case Handle(now) =>
      && s.bot.Up? && s.bot.work.InBatch? && s.bot.work.done < |s.bot.work.batch|
      && (s.bot.calls != [] ==> s.bot.calls[|s.bot.calls| - 1].now <= now)
    case FinishBatch(_) => s.bot.Up? && s.bot.work.InBatch? && s.bot.work.done >= |s.bot.work.batch|
    case Crash => s.bot.Up?
  }

  function Max(a: nat, b: nat): nat { if a < b then b else a }

  /** One turn of the loop over a batch. */
  function HandleOne(bot: Bot, u: Update, now: int): (r: Bot)
    requires bot.Up?
    ensures r.Up? && r.work == bot.work
  {
    var calls := bot.calls + [Call(u.id, now)];
    var duplicate := After(TTL, calls).1[|bot.calls|];
    bot.(last := Max(bot.last, u.id), calls := calls,
         pushed := if !duplicate && u.wanted then bot.pushed + [Call(u.id, now)] else bot.pushed)
  }

  function Apply(s: State, step: Step): State
    requires Enabled(s, step)
  {
    match step
    case Issue(u) => s.(issued := s.issued[u.id := u.wanted])
    case Start(loaded) => s.(bot := Up(loaded, [], [], Idle))
    case Poll(gone, batch) =>
      s.(discarded := s.discarded + gone,
         bot := if batch.None? then s.bot else s.bot.(work := InBatch(batch.value, 0, s.bot.last)))
    case Handle(now) =>
      var u := s.bot.work.batch[s.bot.work.done];
      var bot := HandleOne(s.bot, u, now);
      s.(bot := bot.(work := s.bot.work.(done := s.bot.work.done + 1)),
         handled := s.handled + {u.id},
         everPushed := s.everPushed + set i | 0 <= i < |bot.pushed| :: bot.pushed[i].id)
    case FinishBatch(saved) =>
      s.(disk := if saved && s.bot.work.batch != [] then s.bot.last else s.disk, bot := s.bot.(work := Idle))
    case Crash => s.(bot := Down)
  }

  // ── The loop as the program runs it ───────────────────────────

  class TelegramBot {
    var lastUpdateId: UpdateId
    const seen: DedupWindow<UpdateId>
    var pushed: seq<Call<UpdateId>>
    ghost var calls: seq<Call<UpdateId>>

    ghost predicate Valid()
      reads this, seen
    {
      seen.ttl == TTL && seen.seen == After(TTL, calls).0
    }

    ghost function Contents(work: Work): Bot
      reads this
    {
      Up(lastUpdateId, calls, pushed, work)
    }

    constructor (loaded: Option<UpdateId>)
      ensures Valid() && fresh(seen)
      ensures Contents(Idle) == Up(if loaded.Some? then loaded.value else 0, [], [], Idle)
    {
      lastUpdateId := if loaded.Some? then loaded.value else 0;
      seen := new DedupWindow(TTL);
      pushed, calls := [], [];
    }

    method HandleUpdate(update: Update, now: int, ghost work: Work)
      requires Valid()
      modifies this, seen
      ensures Valid()
      ensures Contents(work) == HandleOne(old(Contents(work)), update, now)
    {
      hide After;
      lastUpdateId := Max(lastUpdateId, update.id);
      ghost var before := calls;
      calls := calls + [Call(update.id, now)];
      AfterSnoc(before, Call(update.id, now));
      var duplicate := seen.IsDuplicate(update.id, now);
      if duplicate { return; }
      if update.wanted {
        pushed := pushed + [Call(update.id, now)];
      }
    }

    /** The loop over one batch; `times` are the clock readings, one an update. */
    method HandleBatch(batch: seq<Update>, times: seq<int>, ghost work: Work)
      requires Valid() && |times| == |batch|
      modifies this, seen
      ensures Valid()
      ensures Contents(work) == HandleAll(old(Contents(work)), batch, times)
    {
      hide After; hide HandleOne;
      for i := 0 to |batch|
        invariant Valid()
        invariant Contents(work) == HandleAll(old(Contents(work)), batch[..i], times[..i])
      {
        assert batch[..i + 1][..i] == batch[..i] && times[..i + 1][..i] == times[..i];
        HandleUpdate(batch[i], times[i], work);
      }
      assert batch[..|batch|] == batch && times[..|batch|] == times;
    }
  }

  lemma AfterSnoc(calls: seq<Call<UpdateId>>, call: Call<UpdateId>)
    ensures var seen, after := Prune(After(TTL, calls).0, TTL, call.now), After(TTL, calls + [call]);
            && after.1[|calls|] == (call.id in seen)
            && after.0 == if call.id in seen then seen else seen[call.id := call.now]
  {
    assert (calls + [call])[..|calls|] == calls;
  }

  function HandleAll(bot: Bot, batch: seq<Update>, times: seq<int>): (r: Bot)
    requires bot.Up? && |times| == |batch|
    ensures r.Up?
  {
    if batch == [] then bot
    else HandleOne(HandleAll(bot, batch[..|batch| - 1], times[..|batch| - 1]), batch[|batch| - 1], times[|batch| - 1])
  }

  // ── Nothing is lost ───────────────────────────────────────────

  /** Everything issued up to `offset`, itself an issued id or zero, has been handled. */
  ghost predicate Covered(s: State, offset: UpdateId) {
    (offset > 0 ==> offset in s.issued) && forall id | id in s.issued && id <= offset :: id in s.handled
  }

  ghost predicate Inv(s: State) {
    && s.discarded <= s.handled && s.handled <= s.issued.Keys && 0 !in s.issued
    && (forall id | id in s.handled && s.issued[id] :: id in s.everPushed)
    && Covered(s, s.disk)
    && (s.bot.Up? ==> BotInv(s, s.bot))
  }

  ghost predicate BotInv(s: State, bot: Bot)
    requires bot.Up?
  {
    && (forall i | 0 <= i < |bot.calls| :: bot.calls[i].id in s.handled)
    && match bot.work
       case Idle => Covered(s, bot.last)
       case InBatch(batch, done, base) => BatchInv(s, bot.last, batch, done, base)
  }

  /** Below `base` all is handled, the batch has no gaps above it, and what was done of it is handled. */
  ghost predicate BatchInv(s: State, last: UpdateId, batch: seq<Update>, done: nat, base: UpdateId) {
    && done <= |batch| && Covered(s, base)
    && (forall i | 0 <= i < |batch| :: batch[i].id in s.issued && s.issued[batch[i].id] == batch[i].wanted)
    && (forall i | 0 <= i < done :: batch[i].id in s.handled && batch[i].id <= last)
    && (forall id, i | id in s.issued && id !in s.discarded && base < id && 0 <= i < |batch| && id < batch[i].id ::
          exists k :: 0 <= k < |batch| && batch[k].id == id)
    && (last == base || exists k :: 0 <= k < done && batch[k].id == last)
  }

  /** A wanted update is pushed when it is handled, unless the window knows it, and then it was pushed before. */
  lemma HandledIsPushed(s: State, now: int)
    requires Inv(s) && Enabled(s, Handle(now))
    ensures var u := s.bot.work.batch[s.bot.work.done];
            u.wanted ==> u.id in Apply(s, Handle(now)).everPushed
  {
    var u := s.bot.work.batch[s.bot.work.done];
    var calls := s.bot.calls + [Call(u.id, now)];
    assert calls[..|s.bot.calls|] == s.bot.calls;
    assert u.id in s.issued && s.issued[u.id] == u.wanted;
    if u.wanted {
      if After(TTL, calls).1[|s.bot.calls|] {
        WindowNamesCalls(s.bot.calls, u.id, now);
      } else {
        assert Apply(s, Handle(now)).bot.pushed[|s.bot.pushed|].id == u.id;
      }
    }
  }

  lemma HandleKeepsBatch(s: State, s': State, last: UpdateId, batch: seq<Update>, done: nat, base: UpdateId)
    requires BatchInv(s, last, batch, done, base) && done < |batch|
    requires s'.issued == s.issued && s'.discarded == s.discarded && s'.handled == s.handled + {batch[done].id}
    ensures BatchInv(s', Max(last, batch[done].id), batch, done + 1, base)
  {
    if last != base {
      var k :| 0 <= k < done && batch[k].id == last;
      assert k < done + 1;
    }
    assert done < done + 1;
  }

  lemma HandleKeepsInv(s: State, now: int)
    requires Inv(s) && Enabled(s, Handle(now))
    ensures Inv(Apply(s, Handle(now)))
  {
    var s', work := Apply(s, Handle(now)), s.bot.work;
    HandledIsPushed(s, now);
    HandleKeepsBatch(s, s', s.bot.last, work.batch, work.done, work.base);
    hide BatchInv; hide After;
    assert Covered(s', s.disk);
    assert BotInv(s', s'.bot);
  }

  /** An id reported as duplicate was seen before by this incarnation. */
  lemma {:induction false} WindowNamesCalls(calls: seq<Call<UpdateId>>, id: UpdateId, now: int)
    requires id in Prune(After(TTL, calls).0, TTL, now)
    ensures exists i :: 0 <= i < |calls| && calls[i].id == id
    decreases |calls|
  {
    if calls != [] && calls[|calls| - 1].id != id {
      var before := calls[..|calls| - 1];
      assert id in Prune(After(TTL, before).0, TTL, calls[|calls| - 1].now);
      WindowNamesCalls(before, id, calls[|calls| - 1].now);
      var i :| 0 <= i < |before| && before[i].id == id;
      assert calls[i].id == id;
    }
  }

  lemma FinishKeepsInv(s: State, saved: bool)
    requires Inv(s) && Enabled(s, FinishBatch(saved))
    ensures Inv(Apply(s, FinishBatch(saved)))
  {
    var s', work := Apply(s, FinishBatch(saved)), s.bot.work;
    if s.bot.last != work.base {
      var k :| 0 <= k < work.done && work.batch[k].id == s.bot.last;
      forall id | id in s.issued && id <= s.bot.last ensures id in s.handled {
        if id !in s.discarded && work.base < id < work.batch[k].id {
          var j :| 0 <= j < |work.batch| && work.batch[j].id == id;
        }
      }
    }
    assert Covered(s', s.bot.last);
  }

  lemma PollKeepsInv(s: State, gone: set<UpdateId>, batch: Option<seq<Update>>)
    requires Inv(s) && Enabled(s, Poll(gone, batch))
    ensures Inv(Apply(s, Poll(gone, batch)))
  {
    var s' := Apply(s, Poll(gone, batch));
    assert Covered(s', s.disk) && Covered(s', s.bot.last);
    if batch.Some? {
      assert BatchInv(s', s.bot.last, batch.value, 0, s.bot.last);
    }
  }

  lemma IssueKeepsInv(s: State, u: Update)
    requires Inv(s) && Enabled(s, Issue(u))
    ensures Inv(Apply(s, Issue(u)))
  {
    var s' := Apply(s, Issue(u));
    forall offset | Covered(s, offset) ensures Covered(s', offset) {}
    if s.bot.Up? && s.bot.work.InBatch? {
      assert BatchInv(s', s.bot.last, s.bot.work.batch, s.bot.work.done, s.bot.work.base);
    }
  }

  lemma StepKeepsInv(s: State, step: Step)
    requires Inv(s) && Enabled(s, step)
    ensures Inv(Apply(s, step))
  {
    match step
    case Issue(u) => IssueKeepsInv(s, u);
    case Start(loaded) =>
      var s' := Apply(s, step);
      assert Covered(s', s.disk) && Covered(s', loaded);
    case Poll(gone, batch) => PollKeepsInv(s, gone, batch);
    case Handle(now) => HandleKeepsInv(s, now);
    case FinishBatch(saved) => FinishKeepsInv(s, saved);
    case Crash =>
      assert Covered(Apply(s, step), s.disk);
  }

  // ── Pushed at most once a window ──────────────────────────────

  /** The push is a call the window accepted. */
  ghost predicate FromWindow(calls: seq<Call<UpdateId>>, push: Call<UpdateId>) {
    exists c :: Accepted(TTL, calls, c, push.id) && calls[c].now == push.now
  }

  /** What an incarnation pushed are calls its window accepted, and those of one id are far enough apart. */
  ghost predicate PushedApart(calls: seq<Call<UpdateId>>, pushed: seq<Call<UpdateId>>) {
    && InOrder(calls)
    && (forall i | 0 <= i < |pushed| :: FromWindow(calls, pushed[i]))
    && (forall i, j | 0 <= i < j < |pushed| && pushed[i].id == pushed[j].id :: pushed[j].now - pushed[i].now >= TTL)
  }

  ghost predicate PushInv(bot: Bot) {
    bot.Up? ==> PushedApart(bot.calls, bot.pushed)
  }

  lemma FromLongerWindow(calls: seq<Call<UpdateId>>, call: Call<UpdateId>, push: Call<UpdateId>)
    requires InOrder(calls + [call]) && FromWindow(calls, push)
    ensures FromWindow(calls + [call], push)
    ensures !After(TTL, calls + [call]).1[|calls|] && push.id == call.id ==> call.now - push.now >= TTL
  {
    var c :| Accepted(TTL, calls, c, push.id) && calls[c].now == push.now;
    AcceptedSnoc(TTL, calls, call, c, push.id);
    if !After(TTL, calls + [call]).1[|calls|] && push.id == call.id {
      AcceptedApart(TTL, calls + [call], c, |calls|, call.id);
    }
  }

  lemma HandleKeepsPushInv(bot: Bot, u: Update, now: int)
    requires bot.Up? && PushInv(bot) && (bot.calls != [] ==> bot.calls[|bot.calls| - 1].now <= now)
    ensures PushInv(HandleOne(bot, u, now))
  {
    hide After; hide FromWindow;
    var bot', call := HandleOne(bot, u, now), Call(u.id, now);
    assert InOrder(bot'.calls);
    forall i | 0 <= i < |bot.pushed|
      ensures FromWindow(bot'.calls, bot.pushed[i])
      ensures |bot'.pushed| > |bot.pushed| && bot.pushed[i].id == u.id ==> now - bot.pushed[i].now >= TTL
    {
      FromLongerWindow(bot.calls, call, bot.pushed[i]);
    }
    if |bot'.pushed| > |bot.pushed| { NewestFromWindow(bot'.calls, |bot.calls|); }
  }

  lemma NewestFromWindow(calls: seq<Call<UpdateId>>, n: nat)
    requires n < |calls| && !After(TTL, calls).1[n]
    ensures FromWindow(calls, calls[n])
  {
    hide After;
    assert Accepted(TTL, calls, n, calls[n].id);
  }

  lemma StepKeepsPushInv(s: State, step: Step)
    requires PushInv(s.bot) && Enabled(s, step)
    ensures PushInv(Apply(s, step).bot)
  {
    match step
    case Handle(now) =>
      hide HandleOne; hide PushInv;
      var u := s.bot.work.batch[s.bot.work.done];
      HandleKeepsPushInv(s.bot, u, now);
      OtherWork(HandleOne(s.bot, u, now), s.bot.work.(done := s.bot.work.done + 1));
    case _ =>
  }

  lemma OtherWork(bot: Bot, work: Work)
    requires PushInv(bot) && bot.Up?
    ensures PushInv(bot.(work := work))
  {
  }

  // ── Every run ─────────────────────────────────────────────────

  function Execute(s: State, steps: seq<Step>): Option<State>
    decreases |steps|
  {
    if steps == [] then Some(s)
    else if Enabled(s, steps[0]) then Execute(Apply(s, steps[0]), steps[1..])
    else None
  }

  lemma {:induction false} RunsKeepInv(s: State, steps: seq<Step>)
    requires Inv(s) && PushInv(s.bot) && Execute(s, steps).Some?
    ensures Inv(Execute(s, steps).value) && PushInv(Execute(s, steps).value.bot)
    decreases |steps|
  {
    hide Inv; hide PushInv; hide Enabled; hide Apply;
    if steps != [] {
      StepKeepsInv(s, steps[0]);
      StepKeepsPushInv(s, steps[0]);
      RunsKeepInv(Apply(s, steps[0]), steps[1..]);
    }
  }

  /** With crashes at any point and saves and loads that may fail, the server discards an update only after some
      incarnation has handled it, which for a wanted one means pushed. */
  lemma NothingIsLost(steps: seq<Step>)
    requires Execute(INIT, steps).Some?
    ensures var s := Execute(INIT, steps).value;
            && s.discarded <= s.handled && s.handled <= s.issued.Keys
            && forall id | id in s.discarded && s.issued[id] :: id in s.everPushed
  {
    assert Covered(INIT, 0);
    RunsKeepInv(INIT, steps);
  }

  /** Within one incarnation no update is pushed twice less than 300 seconds apart. */
  lemma PushesAreApart(steps: seq<Step>)
    requires Execute(INIT, steps).Some?
    ensures var bot := Execute(INIT, steps).value.bot;
            bot.Up? ==> forall i, j | 0 <= i < j < |bot.pushed| && bot.pushed[i].id == bot.pushed[j].id ::
              bot.pushed[j].now - bot.pushed[i].now >= TTL
  {
    assert Covered(INIT, 0);
    RunsKeepInv(INIT, steps);
  }

  // ── Exactly what is pushed ────────────────────────────────────

  /** The call at `i` comes less than 300 seconds after an accepted one of its id. */
  ghost predicate Repeated(calls: seq<Call<UpdateId>>, i: nat)
    requires i < |calls|
  {
    exists j :: 0 <= j < i && Accepted(TTL, calls, j, calls[i].id) && calls[i].now - calls[j].now < TTL
  }

  /** The calls of wanted updates that do not repeat an accepted one. */
  ghost function PushedOf(issued: map<UpdateId, bool>, calls: seq<Call<UpdateId>>): seq<Call<UpdateId>> {
    if calls == [] then []
    else
      var n := |calls| - 1;
      PushedOf(issued, calls[..n])
      + if calls[n].id in issued && issued[calls[n].id] && !Repeated(calls, n) then [calls[n]] else []
  }

  /** The ids of the updates that `steps` handle. */
  ghost function HandledBy(s: State, steps: seq<Step>): set<UpdateId>
    requires Execute(s, steps).Some?
    decreases |steps|
  {
    if steps == [] then {}
    else
      (if steps[0].Handle? then {s.bot.work.batch[s.bot.work.done].id} else {})
      + HandledBy(Apply(s, steps[0]), steps[1..])
  }

  /** What the last incarnation handled, in order and with times: `calls` so far, then by `steps`. */
  ghost function Trace(s: State, steps: seq<Step>, calls: seq<Call<UpdateId>>): seq<Call<UpdateId>>
    requires Execute(s, steps).Some?
    decreases |steps|
  {
    if steps == [] then calls
    else
      var calls' := if steps[0].Start? then []
                    else if steps[0].Handle? then
                      calls + [Call(s.bot.work.batch[s.bot.work.done].id, steps[0].now)]
                    else calls;
      Trace(Apply(s, steps[0]), steps[1..], calls')
  }

  ghost predicate ExactInv(s: State) {
    && s.everPushed == (set id | id in s.handled && id in s.issued && s.issued[id])
    && (s.bot.Up? ==> s.bot.pushed == PushedOf(s.issued, s.bot.calls))
  }

  lemma {:induction false} PushedOfMore(issued: map<UpdateId, bool>, u: Update, calls: seq<Call<UpdateId>>)
    requires u.id !in issued && forall i | 0 <= i < |calls| :: calls[i].id in issued
    ensures PushedOf(issued[u.id := u.wanted], calls) == PushedOf(issued, calls)
    decreases |calls|
  {
    if calls != [] { PushedOfMore(issued, u, calls[..|calls| - 1]); }
  }

  lemma {:induction false} PushedOfIds(issued: map<UpdateId, bool>, calls: seq<Call<UpdateId>>)
    ensures forall push | push in PushedOf(issued, calls) :: push in calls && push.id in issued && issued[push.id]
    decreases |calls|
  {
    if calls != [] { PushedOfIds(issued, calls[..|calls| - 1]); }
  }

  lemma HandlePushes(issued: map<UpdateId, bool>, bot: Bot, u: Update, now: int)
    requires bot.Up? && InOrder(bot.calls + [Call(u.id, now)])
    requires bot.pushed == PushedOf(issued, bot.calls) && u.id in issued && issued[u.id] == u.wanted
    ensures var bot' := HandleOne(bot, u, now);
            bot'.calls == bot.calls + [Call(u.id, now)] && bot'.pushed == PushedOf(issued, bot'.calls)
  {
    hide After; hide Repeated; hide InOrder;
    var calls' := bot.calls + [Call(u.id, now)];
    assert calls'[..|bot.calls|] == bot.calls && calls'[|bot.calls|].id == u.id;
    DuplicateIsRepeated(calls', |bot.calls|);
  }

  lemma DuplicateIsRepeated(calls: seq<Call<UpdateId>>, i: nat)
    requires InOrder(calls) && i < |calls|
    ensures After(TTL, calls).1[i] <==> Repeated(calls, i)
  {
    DuplicateIffRecent(TTL, calls, i);
    hide After; hide Accepted; hide InOrder;
  }

  lemma HandleIsExact(s: State, now: int)
    requires Inv(s) && PushInv(s.bot) && ExactInv(s) && Enabled(s, Handle(now))
    ensures ExactInv(Apply(s, Handle(now)))
  {
    hide HandleOne; hide Inv; hide PushInv; hide PushedOf; hide InOrder;
    var s', u := Apply(s, Handle(now)), s.bot.work.batch[s.bot.work.done];
    HandledIsPushed(s, now);
    HandledIsIssued(s, now);
    HandlePushes(s.issued, s.bot, u, now);
    PushedOfIds(s.issued, s'.bot.calls);
  }

  lemma HandledIsIssued(s: State, now: int)
    requires Inv(s) && PushInv(s.bot) && Enabled(s, Handle(now))
    ensures var u := s.bot.work.batch[s.bot.work.done];
            && u.id in s.issued && s.issued[u.id] == u.wanted && InOrder(s.bot.calls + [Call(u.id, now)])
            && forall call | call in HandleOne(s.bot, u, now).calls :: call.id in s.handled + {u.id}
  {
    hide After; hide FromWindow;
  }

  lemma StepIsExact(s: State, step: Step)
    requires Inv(s) && PushInv(s.bot) && ExactInv(s) && Enabled(s, step)
    ensures ExactInv(Apply(s, step))
    ensures Apply(s, step).handled
         == s.handled + if step.Handle? then {s.bot.work.batch[s.bot.work.done].id} else {}
  {
    if step.Handle? {
      HandleIsExact(s, step.now);
    } else if step.Issue? && s.bot.Up? {
      PushedOfMore(s.issued, step.u, s.bot.calls);
    }
  }

  lemma {:induction false} RunIsExact(s: State, steps: seq<Step>, calls: seq<Call<UpdateId>>)
    requires Inv(s) && PushInv(s.bot) && ExactInv(s) && Execute(s, steps).Some?
    requires s.bot.Up? ==> s.bot.calls == calls
    ensures var end := Execute(s, steps).value;
            && ExactInv(end) && end.handled == s.handled + HandledBy(s, steps)
            && (end.bot.Up? ==> end.bot.calls == Trace(s, steps, calls))
    decreases |steps|
  {
    hide Inv; hide PushInv; hide ExactInv;
    if steps != [] {
      StepKeepsInv(s, steps[0]);
      StepKeepsPushInv(s, steps[0]);
      StepIsExact(s, steps[0]);
      var calls' := if steps[0].Start? then []
                    else if steps[0].Handle? then
                      calls + [Call(s.bot.work.batch[s.bot.work.done].id, steps[0].now)]
                    else calls;
      RunIsExact(Apply(s, steps[0]), steps[1..], calls');
    }
  }

  /** Whatever crashes and fails: the updates ever pushed are the handled ones that are wanted, and the running
      incarnation has pushed, in the order handled, exactly the wanted ones that do not repeat an id it had accepted
      less than 300 seconds before. */
  lemma PushesAreExact(steps: seq<Step>)
    requires Execute(INIT, steps).Some?
    ensures var s, handled := Execute(INIT, steps).value, HandledBy(INIT, steps);
            && s.handled == handled
            && s.everPushed == (set id | id in handled && id in s.issued && s.issued[id])
            && (s.bot.Up? ==> s.bot.pushed == PushedOf(s.issued, Trace(INIT, steps, [])))
  {
    assert Covered(INIT, 0);
    RunIsExact(INIT, steps, []);
  }

  /** Everything still to be handled lies above `floor`. */
  ghost predicate Above(s: State, floor: UpdateId) {
    && floor <= s.disk
    && (s.bot.Up? ==> floor <= s.bot.last)
    && (s.bot.Up? && s.bot.work.InBatch? ==>
          forall i | 0 <= i < |s.bot.work.batch| :: floor < s.bot.work.batch[i].id)
  }

  /** Once the offset of a batch is saved, nothing up to it is handled again, over any number of crashes, as long as
      every restart can load the offset. */
  lemma {:induction false} SavedIsNotRepeated(s: State, steps: seq<Step>, floor: UpdateId)
    requires Above(s, floor) && Execute(s, steps).Some?
    requires forall step | step in steps && step.Start? :: step.loaded != 0
    ensures forall id | id in HandledBy(s, steps) :: floor < id
    decreases |steps|
  {
    if steps != [] {
      assert steps[0] in steps;
      StepStaysAbove(s, steps[0], floor);
      hide Apply; hide Enabled;
      SavedIsNotRepeated(Apply(s, steps[0]), steps[1..], floor);
    }
  }

  lemma StepStaysAbove(s: State, step: Step, floor: UpdateId)
    requires Above(s, floor) && Enabled(s, step) && (step.Start? ==> step.loaded != 0)
    ensures Above(Apply(s, step), floor)
    ensures step.Handle? ==> floor < s.bot.work.batch[s.bot.work.done].id
  {
  }

  /** Finishing a batch with its save sets such a floor: the highest id the incarnation has handled. */
  lemma SaveSetsFloor(s: State)
    requires Inv(s) && Enabled(s, FinishBatch(true)) && s.bot.work.batch != []
    ensures Above(Apply(s, FinishBatch(true)), s.bot.last)
    ensures forall i | 0 <= i < |s.bot.work.batch| :: s.bot.work.batch[i].id <= s.bot.last
  {
  }
}
