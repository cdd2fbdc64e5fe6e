/** Agent runs of one session, started over the socket, over HTTP or by an I/O channel, and the
    tables they share: the session locks, the cancellation tokens and the stored histories.
    Every step below is one stretch of code that no other task can interrupt. */
module SessionRuns {
  import opened Wrappers

  type SessionId = string
  type RunId = nat
  type LockId = nat

  datatype Client = Socket | Http | Io

  /** One run's `version`-th save: the run's own function, whichever it is, applied to the history before the entry.
      What histories stand for is said by `Denote`. */
  datatype Entry = Entry(run: RunId, version: nat)

  type History = seq<Entry>

  /** Where a run stands. It keeps its handle on the session lock from `Waiting` to `Leaving`
      and holds the mutex itself while `Holding` or `Running`. */
  datatype Phase =
    | Registered
    | Waiting(lock: LockId)
    | Holding(lock: LockId)
    | Running(lock: LockId, loaded: History, at: nat)
    | Leaving(lock: LockId)
    | Finished
  {
    predicate HasHandle() { !Registered? && !Finished? }

    predicate Inside() { Holding? || Running? }

    /** The turn at the lock has begun with a load, or is over. */
    predicate Past() { Running? || Leaving? || Finished? }
  }

  datatype Run = Run(client: Client, sid: SessionId, isNew: bool, phase: Phase, saves: nat)

  /** The journal of a session: the runs that loaded its history, in lock order, and the deletions of the stored row
      and saves that landed late, as far as no save under the lock has written over them since. */
  datatype Event = Ran(run: RunId) | Wiped | Late(run: RunId, history: History)

  datatype State = State(
    runs: map<RunId, Run>,
    locks: map<SessionId, LockId>,
    nextLock: LockId,
    holder: map<LockId, RunId>,
    tokens: map<SessionId, RunId>,
    cancelled: set<RunId>,
    stored: map<SessionId, History>,
    journal: map<SessionId, seq<Event>>,
    pending: map<RunId, History>)

  const INIT := State(map[], map[], 0, map[], map[], {}, map[], map[], map[])

  /** An I/O run that times out while a save is handed to a blocking thread gives up the lock first (`TimeOut`), and the
      save lands later (`LateSave`). */
  datatype Step =
    | Start(r: RunId, client: Client, sid: SessionId, isNew: bool)
    | TakeHandle(r: RunId)
    | BailOut(r: RunId)
    | Acquire(r: RunId)
    | Recheck(r: RunId)
    | Load(r: RunId)
    | Save(r: RunId)
    | Release(r: RunId)
    | TimeOut(r: RunId)
    | LateSave(r: RunId)
    | DropHandle(r: RunId)
    | Cancel(sid: SessionId)
    | Disconnect(r: RunId)
    | Delete(sid: SessionId)

  // ── The shared tables ─────────────────────────────────────────

  /** Entry of `sid` in the lock table after dropping every lock no run has a handle on. */
  function TakeLock(table: map<SessionId, LockId>, next: LockId, live: set<LockId>, sid: SessionId)
    : (map<SessionId, LockId>, LockId, LockId)
  {
    var kept := map k | k in table && table[k] in live :: table[k];
    if sid in kept then (kept, next, kept[sid]) else (kept[sid := next], next + 1, next)
  }

  /** `SessionBus.session_locks`. A lock is its identity; `live` holds those with a strong count above one. */
  class SessionLocks {
    var table: map<SessionId, LockId>
    var next: LockId

    constructor ()
      ensures table == map[] && next == 0
    {
      table, next := map[], 0;
    }

    method Take(live: set<LockId>, sid: SessionId) returns (lock: LockId)
      modifies this
      ensures (table, next, lock) == TakeLock(old(table), old(next), live, sid)
    {
      table := map k | k in table && table[k] in live :: table[k];
      if sid !in table {
        table := table[sid := next];
        next := next + 1;
      }
      lock := table[sid];
    }
  }

  /** `SessionTokens`: the token of a session's latest registration. */
  class SessionTokens {
    var tokens: map<SessionId, RunId>
    var cancelled: set<RunId>

    constructor ()
      ensures tokens == map[] && cancelled == {}
    {
      tokens, cancelled := map[], {};
    }

    method Register(sid: SessionId, token: RunId)
      modifies this
      ensures tokens == RegisterToken(old(tokens), sid, token) && cancelled == old(cancelled)
    {
      tokens := tokens[sid := token];
    }

    method Cancel(sid: SessionId)
      modifies this
      ensures (tokens, cancelled) == CancelToken(old(tokens), old(cancelled), sid)
    {
      if sid in tokens {
        cancelled := cancelled + {tokens[sid]};
        tokens := tokens - {sid};
      }
    }

    method Remove(sid: SessionId)
      modifies this
      ensures tokens == ForgetToken(old(tokens), sid) && cancelled == old(cancelled)
    {
      tokens := tokens - {sid};
    }
  }

  function RegisterToken(tokens: map<SessionId, RunId>, sid: SessionId, r: RunId): map<SessionId, RunId> {
    tokens[sid := r]
  }

  function ForgetToken(tokens: map<SessionId, RunId>, sid: SessionId): map<SessionId, RunId> {
    tokens - {sid}
  }

  function CancelToken(tokens: map<SessionId, RunId>, cancelled: set<RunId>, sid: SessionId)
    : (map<SessionId, RunId>, set<RunId>)
  {
    if sid in tokens then (tokens - {sid}, cancelled + {tokens[sid]}) else (tokens, cancelled)
  }

  // ── Steps ─────────────────────────────────────────────────────

  function Stored(s: State, sid: SessionId): History {
    if sid in s.stored then s.stored[sid] else []
  }

  function Journal(s: State, sid: SessionId): seq<Event> {
    if sid in s.journal then s.journal[sid] else []
  }

  function LiveLocks(s: State): set<LockId> {
    set r | r in s.runs && s.runs[r].phase.HasHandle() :: s.runs[r].phase.lock
  }

  predicate Enabled(s: State, step: Step) {
    match step
    case Start(r, _, sid, isNew) =>
      r !in s.runs && (isNew ==> sid !in s.stored && forall q | q in s.runs :: s.runs[q].sid != sid)
    case TakeHandle(r) => r in s.runs && s.runs[r].phase.Registered?
    case BailOut(r) => r in s.runs && s.runs[r].phase.Waiting? && r in s.cancelled
    case Acquire(r) => r in s.runs && s.runs[r].phase.Waiting? && s.runs[r].phase.lock !in s.holder
    case Recheck(r) => r in s.runs && s.runs[r].phase.Holding? && s.runs[r].client.Socket? && r in s.cancelled
    case Load(r) => r in s.runs && s.runs[r].phase.Holding?
    case Save(r) => r in s.runs && s.runs[r].phase.Running?
    case Release(r) => r in s.runs && s.runs[r].phase.Inside()
    case TimeOut(r) => r in s.runs && s.runs[r].phase.Running? && s.runs[r].client.Io?
    case LateSave(r) => r in s.pending && r in s.runs
    case DropHandle(r) => r in s.runs && s.runs[r].phase.Leaving?
    case Cancel(_) => true
    case Disconnect(r) => r in s.runs && s.runs[r].client.Http?
    case Delete(_) => true
  }

  function SetPhase(s: State, r: RunId, phase: Phase): State
    requires r in s.runs
  {
    s.(runs := s.runs[r := s.runs[r].(phase := phase)])
  }

  /** The session row is deleted; the deletion is entered in the journal. */
  function Wipe(s: State, sid: SessionId): State {
    s.(stored := s.stored - {sid}, journal := s.journal[sid := Journal(s, sid) + [Wiped]])
  }

  /** The row is written over without the lock; so the journal says. */
  function Overwrite(s: State, sid: SessionId, r: RunId, h: History): State {
    s.(stored := s.stored[sid := h], journal := s.journal[sid := Journal(s, sid) + [Late(r, h)]])
  }

  /** The HTTP run removes the session's token as it ends, the socket run's guard when it is dropped. */
  function RemoveToken(s: State, r: RunId, client: Client): State
    requires r in s.runs
  {
    if s.runs[r].client == client then s.(tokens := ForgetToken(s.tokens, s.runs[r].sid)) else s
  }

  function Unlock(s: State, r: RunId): State
    requires r in s.runs && s.runs[r].phase.Inside()
  {
    var lock := s.runs[r].phase.lock;
    RemoveToken(SetPhase(s, r, Leaving(lock)).(holder := s.holder - {lock}), r, Http)
  }

  function Apply(s: State, step: Step): State
    requires Enabled(s, step)
  {
    match step
    case Start(r, client, sid, isNew) =>
      s.(runs := s.runs[r := Run(client, sid, isNew, Registered, 0)],
         tokens := if client.Io? then s.tokens else RegisterToken(s.tokens, sid, r))
    case TakeHandle(r) =>
      var (locks, next, lock) := TakeLock(s.locks, s.nextLock, LiveLocks(s), s.runs[r].sid);
      SetPhase(s, r, Waiting(lock)).(locks := locks, nextLock := next)
    case BailOut(r) =>
      var run := s.runs[r];
      var left := RemoveToken(SetPhase(s, r, Leaving(run.phase.lock)), r, Http);
      if run.client.Socket? && run.isNew then Wipe(left, run.sid) else left
    case Acquire(r) =>
      var lock := s.runs[r].phase.lock;
      SetPhase(s, r, Holding(lock)).(holder := s.holder[lock := r])
    case Recheck(r) => Unlock(s, r)
    case Load(r) =>
      var run := s.runs[r];
      var events := Journal(s, run.sid);
      SetPhase(s, r, Running(run.phase.lock, Stored(s, run.sid), |events|))
        .(journal := s.journal[run.sid := events + [Ran(r)]])
    case Save(r) =>
      var run := s.runs[r];
      var events := Journal(s, run.sid);
      s.(runs := s.runs[r := run.(saves := run.saves + 1)],
         stored := s.stored[run.sid := run.phase.loaded + [Entry(r, run.saves + 1)]],
         journal := s.journal[run.sid := if run.phase.at < |events| then events[..run.phase.at + 1] else events])
    case Release(r) => Unlock(s, r)
    case TimeOut(r) =>
      var run := s.runs[r];
      Unlock(s, r).(pending := s.pending[r := run.phase.loaded + [Entry(r, run.saves + 1)]])
    case LateSave(r) => Overwrite(s, s.runs[r].sid, r, s.pending[r]).(pending := s.pending - {r})
    case DropHandle(r) => RemoveToken(SetPhase(s, r, Finished), r, Socket)
    case Cancel(sid) =>
      var (tokens, cancelled) := CancelToken(s.tokens, s.cancelled, sid);
      s.(tokens := tokens, cancelled := cancelled)
    case Disconnect(r) => s.(cancelled := s.cancelled + {r})
    case Delete(sid) => Wipe(s, sid)
  }

  /** The state after the steps, if each is possible when its turn comes. */
  function Execute(s: State, steps: seq<Step>): Option<State>
    decreases |steps|
  {
    if steps == [] then Some(s)
    else if Enabled(s, steps[0]) then Execute(Apply(s, steps[0]), steps[1..])
    else None
  }

  ghost predicate Reachable(s: State) {
    exists steps :: Execute(INIT, steps) == Some(s)
  }

  // ── Locks ─────────────────────────────────────────────────────

  /** Every handle is on the lock the table names for the session, and only its holder is past a lock. */
  ghost predicate LockInv(s: State) {
    && (forall r | r in s.runs && s.runs[r].phase.HasHandle() ::
          s.runs[r].sid in s.locks && s.locks[s.runs[r].sid] == s.runs[r].phase.lock)
    && (forall a, b | a in s.locks && b in s.locks && s.locks[a] == s.locks[b] :: a == b)
    && (forall a | a in s.locks :: s.locks[a] < s.nextLock)
    && (forall r | r in s.runs && s.runs[r].phase.Inside() ::
          s.runs[r].phase.lock in s.holder && s.holder[s.runs[r].phase.lock] == r)
    && (forall l | l in s.holder ::
          s.holder[l] in s.runs && s.runs[s.holder[l]].phase.Inside() && s.runs[s.holder[l]].phase.lock == l)
  }

  lemma TakeHandleKeepsLocks(s: State, r: RunId)
    requires LockInv(s) && Enabled(s, TakeHandle(r))
    ensures LockInv(Apply(s, TakeHandle(r)))
  {
    var s' := Apply(s, TakeHandle(r));
    forall q | q in s'.runs && s'.runs[q].phase.HasHandle()
      ensures s'.runs[q].sid in s'.locks && s'.locks[s'.runs[q].sid] == s'.runs[q].phase.lock
    {
      if q != r { assert s.runs[q].phase.lock in LiveLocks(s); }
    }
  }

  /** Steps that leave the lock table and the mutexes alone: no run gains a handle or moves past a lock. */
  lemma QuietLocks(s: State, s': State)
    requires LockInv(s) && s'.locks == s.locks && s'.nextLock == s.nextLock && s'.holder == s.holder
    requires forall r | r in s.runs && s.runs[r].phase.Inside() :: r in s'.runs && s'.runs[r].phase.Inside()
    requires forall r | r in s'.runs && s'.runs[r].phase.HasHandle() ::
      && r in s.runs && s.runs[r].phase.HasHandle() && s.runs[r].sid == s'.runs[r].sid
      && s'.runs[r].phase.lock == s.runs[r].phase.lock
      && (s'.runs[r].phase.Inside() ==> s.runs[r].phase.Inside())
    ensures LockInv(s')
  {
  }

  lemma AcquireKeepsLocks(s: State, r: RunId)
    requires LockInv(s) && Enabled(s, Acquire(r))
    ensures LockInv(Apply(s, Acquire(r)))
  {
  }

  lemma UnlockKeepsLocks(s: State, r: RunId)
    requires LockInv(s) && r in s.runs && s.runs[r].phase.Inside()
    ensures LockInv(Unlock(s, r))
  {
    hide LockInv;
    var lock := s.runs[r].phase.lock;
    var s' := s.(runs := s.runs[r := s.runs[r].(phase := Leaving(lock))], holder := s.holder - {lock});
    LeftKeepsLocks(s, s', r, lock);
    SameLocks(s', Unlock(s, r));
  }

  lemma SameLocks(s: State, s': State)
    requires LockInv(s)
    requires s'.locks == s.locks && s'.nextLock == s.nextLock && s'.holder == s.holder && s'.runs == s.runs
    ensures LockInv(s')
  {
  }

  lemma StartKeepsLocks(s: State, s': State, r: RunId, run: Run)
    requires LockInv(s) && s'.locks == s.locks && s'.nextLock == s.nextLock && s'.holder == s.holder
    requires r !in s.runs && s'.runs == s.runs[r := run] && run.phase.Registered?
    ensures LockInv(s')
  {
  }

  lemma LeftKeepsLocks(s: State, s': State, r: RunId, lock: LockId)
    requires LockInv(s) && r in s.runs && s.runs[r].phase.Inside() && lock == s.runs[r].phase.lock
    requires s' == s.(runs := s.runs[r := s.runs[r].(phase := Leaving(lock))], holder := s.holder - {lock})
    ensures LockInv(s')
  {
    forall q | q in s'.runs && s'.runs[q].phase.Inside()
      ensures s'.runs[q].phase.lock in s'.holder && s'.holder[s'.runs[q].phase.lock] == q
    {
      assert s.holder[s.runs[q].phase.lock] == q && s.holder[lock] == r;
    }
  }

  lemma BailOutKeepsLocks(s: State, r: RunId)
    requires LockInv(s) && Enabled(s, BailOut(r))
    ensures LockInv(Apply(s, BailOut(r)))
  {
    hide LockInv; hide Journal;
    var left := SetPhase(s, r, Leaving(s.runs[r].phase.lock));
    OneRunQuiet(s, left, r, left.runs[r]);
    SameLocks(left, Apply(s, BailOut(r)));
  }

  lemma TurnKeepsLocks(s: State, step: Step)
    requires LockInv(s) && Enabled(s, step) && (step.Load? || step.Save?)
    ensures LockInv(Apply(s, step))
  {
    hide LockInv; hide Stored; hide Journal;
    OneRunQuiet(s, Apply(s, step), step.r, Apply(s, step).runs[step.r]);
  }

  lemma DropHandleKeepsLocks(s: State, r: RunId)
    requires LockInv(s) && Enabled(s, DropHandle(r))
    ensures LockInv(Apply(s, DropHandle(r)))
  {
    hide LockInv;
    OneRunQuiet(s, Apply(s, DropHandle(r)), r, Apply(s, DropHandle(r)).runs[r]);
  }

  lemma StepKeepsLocks(s: State, step: Step)
    requires LockInv(s) && Enabled(s, step)
    ensures LockInv(Apply(s, step))
  {
    hide LockInv; hide TakeLock; hide LiveLocks; hide Stored; hide Journal; hide CancelToken; hide Unlock;
    match step
    case TakeHandle(r) => TakeHandleKeepsLocks(s, r);
    case Acquire(r) => AcquireKeepsLocks(s, r);
    case Recheck(r) => UnlockKeepsLocks(s, r);
    case Release(r) => UnlockKeepsLocks(s, r);
    case TimeOut(r) =>
      UnlockKeepsLocks(s, r);
      SameLocks(Unlock(s, r), Apply(s, step));
    case LateSave(_) => SameLocks(s, Apply(s, step));
    case Start(r, _, _, _) => StartKeepsLocks(s, Apply(s, step), r, Apply(s, step).runs[r]);
    case Cancel(_) => SameLocks(s, Apply(s, step));
    case Disconnect(_) => SameLocks(s, Apply(s, step));
    case Delete(_) => SameLocks(s, Apply(s, step));
    case BailOut(r) => BailOutKeepsLocks(s, r);
    case Load(_) => TurnKeepsLocks(s, step);
    case Save(_) => TurnKeepsLocks(s, step);
    case DropHandle(r) => DropHandleKeepsLocks(s, r);
  }

  lemma OneRunQuiet(s: State, s': State, r: RunId, run: Run)
    requires LockInv(s) && s'.locks == s.locks && s'.nextLock == s.nextLock && s'.holder == s.holder
    requires r in s.runs && s'.runs == s.runs[r := run] && run.sid == s.runs[r].sid
    requires run.phase.Inside() == s.runs[r].phase.Inside()
    requires run.phase.HasHandle() ==> s.runs[r].phase.HasHandle() && run.phase.lock == s.runs[r].phase.lock
    ensures LockInv(s')
  {
    QuietLocks(s, s');
  }

  // ── Histories ─────────────────────────────────────────────────

  function Saves(runs: map<RunId, Run>, r: RunId): nat {
    if r in runs then runs[r].saves else 0
  }

  /** What a run adds to a history: nothing until it has saved. */
  function Trace(runs: map<RunId, Run>, r: RunId): History {
    if Saves(runs, r) > 0 then [Entry(r, Saves(runs, r))] else []
  }

  /** The history that a journal stands for. */
  function Replay(runs: map<RunId, Run>, events: seq<Event>): History {
    if events == [] then []
    else
      match events[|events| - 1]
      case Wiped => []
      case Late(_, h) => h
      case Ran(r) => Replay(runs, events[..|events| - 1]) + Trace(runs, r)
  }

  /** What the runs saved under the lock, in lock order. */
  function Serial(runs: map<RunId, Run>, events: seq<Event>): History {
    if events == [] then []
    else
      var before := Serial(runs, events[..|events| - 1]);
      match events[|events| - 1]
      case Ran(r) => before + Trace(runs, r)
      case _ => before
  }

  /** The stored history is what the journal stands for; the journal names runs of this session that have loaded. */
  ghost predicate Consistent(runs: map<RunId, Run>, sid: SessionId, stored: History, events: seq<Event>) {
    && stored == Replay(runs, events)
    && forall i | 0 <= i < |events| && events[i].Ran? ::
         var r := events[i].run;
         r in runs && runs[r].sid == sid && runs[r].phase.Past()
  }

  /** A running run loaded what the journal stood for just before it; no other run has loaded since. */
  ghost predicate Ongoing(runs: map<RunId, Run>, r: RunId, loaded: History, at: nat, events: seq<Event>) {
    && at < |events| && events[at] == Ran(r)
    && (forall i | 0 <= i < at :: events[i] != Ran(r))
    && (forall i | at < i < |events| :: !events[i].Ran?)
    && loaded == Replay(runs, events[..at])
  }

  ghost predicate HistoryInv(s: State) {
    && (forall sid :: Consistent(s.runs, sid, Stored(s, sid), Journal(s, sid)))
    && (forall r | r in s.runs && s.runs[r].phase.Running? ::
          Ongoing(s.runs, r, s.runs[r].phase.loaded, s.runs[r].phase.at, Journal(s, s.runs[r].sid)))
    && (forall r | r in s.runs && s.runs[r].saves > 0 :: s.runs[r].phase.Past())
  }

  lemma {:induction false} ReplayFrame(runs: map<RunId, Run>, runs': map<RunId, Run>, events: seq<Event>)
    requires forall i | 0 <= i < |events| && events[i].Ran? :: Saves(runs, events[i].run) == Saves(runs', events[i].run)
    ensures Replay(runs, events) == Replay(runs', events)
  {
    if events != [] {
      ReplayFrame(runs, runs', events[..|events| - 1]);
    }
  }

  /** No run takes back its turn or changes its session, and only `except` changes its save count. */
  ghost predicate Onward(runs: map<RunId, Run>, runs': map<RunId, Run>, except: set<RunId>) {
    && (forall r | r in runs ::
          && r in runs' && runs'[r].sid == runs[r].sid
          && (runs[r].phase.Past() ==> runs'[r].phase.Past()))
    && (forall r | r !in except :: Saves(runs, r) == Saves(runs', r))
  }

  lemma ConsistentFrame(runs: map<RunId, Run>, runs': map<RunId, Run>, except: set<RunId>,
                        sid: SessionId, stored: History, events: seq<Event>)
    requires Consistent(runs, sid, stored, events) && Onward(runs, runs', except)
    requires forall r | r in except :: r in runs && runs[r].sid != sid
    ensures Consistent(runs', sid, stored, events)
  {
    ReplayFrame(runs, runs', events);
  }

  lemma OngoingFrame(runs: map<RunId, Run>, runs': map<RunId, Run>, except: set<RunId>,
                     r: RunId, loaded: History, at: nat, events: seq<Event>)
    requires Ongoing(runs, r, loaded, at, events) && Onward(runs, runs', except)
    requires forall q | q in except :: forall i | 0 <= i < |events| :: events[i] != Ran(q)
    ensures Ongoing(runs', r, loaded, at, events)
  {
    ReplayFrame(runs, runs', events[..at]);
  }

  /** Steps that touch no journal, no stored row and no save count, and start no run's turn. */
  lemma QuietStep(s: State, s': State)
    requires HistoryInv(s) && s'.stored == s.stored && s'.journal == s.journal
    requires Onward(s.runs, s'.runs, {})
    requires forall r | r in s'.runs && s'.runs[r].phase.Running? :: r in s.runs && s'.runs[r].phase == s.runs[r].phase
    ensures HistoryInv(s')
  {
    forall sid ensures Consistent(s'.runs, sid, Stored(s', sid), Journal(s', sid)) {
      ConsistentFrame(s.runs, s'.runs, {}, sid, Stored(s, sid), Journal(s, sid));
    }
    forall r | r in s'.runs && s'.runs[r].phase.Running?
      ensures Ongoing(s'.runs, r, s'.runs[r].phase.loaded, s'.runs[r].phase.at, Journal(s', s'.runs[r].sid))
    {
      OngoingFrame(s.runs, s'.runs, {}, r, s.runs[r].phase.loaded, s.runs[r].phase.at, Journal(s, s.runs[r].sid));
    }
    forall r | r in s'.runs && s'.runs[r].saves > 0 ensures s'.runs[r].phase.Past() {
      assert Saves(s.runs, r) == Saves(s'.runs, r);
    }
  }

  lemma ReplayOne(runs: map<RunId, Run>, events: seq<Event>, e: Event)
    ensures Replay(runs, events + [e])
         == if e.Wiped? then [] else if e.Late? then e.history else Replay(runs, events) + Trace(runs, e.run)
  {
    assert (events + [e])[..|events|] == events;
  }

  /** A deletion empties the row and is journalled; a run in the middle still saves over it later. */
  lemma WipeKeepsHistory(s: State, sid: SessionId)
    requires HistoryInv(s)
    ensures HistoryInv(Wipe(s, sid))
  {
    ConsistentAt(s, sid);
    var s', events := Wipe(s, sid), Journal(s, sid);
    WipedIsConsistent(s.runs, sid, Stored(s, sid), events);
    hide Consistent;
    forall t ensures Consistent(s'.runs, t, Stored(s', t), Journal(s', t)) {
      if t != sid { ConsistentAt(s, t); }
    }
    forall r | r in s'.runs && s'.runs[r].phase.Running?
      ensures Ongoing(s'.runs, r, s'.runs[r].phase.loaded, s'.runs[r].phase.at, Journal(s', s'.runs[r].sid))
    {
      var at := s.runs[r].phase.at;
      assert Ongoing(s.runs, r, s.runs[r].phase.loaded, at, Journal(s, s.runs[r].sid));
      assert Journal(s', s.runs[r].sid)[..at] == Journal(s, s.runs[r].sid)[..at];
    }
  }

  lemma WipedIsConsistent(runs: map<RunId, Run>, sid: SessionId, stored: History, events: seq<Event>)
    requires Consistent(runs, sid, stored, events)
    ensures Consistent(runs, sid, [], events + [Wiped])
  {
    ReplayOne(runs, events, Wiped);
  }

  /** So is what lands late, and written over later by a run in the middle. */
  lemma OverwriteKeepsHistory(s: State, sid: SessionId, q: RunId, h: History)
    requires HistoryInv(s)
    ensures HistoryInv(Overwrite(s, sid, q, h))
  {
    ConsistentAt(s, sid);
    var s', events := Overwrite(s, sid, q, h), Journal(s, sid);
    OverwrittenIsConsistent(s.runs, sid, Stored(s, sid), events, q, h);
    hide Consistent;
    forall t ensures Consistent(s'.runs, t, Stored(s', t), Journal(s', t)) {
      if t != sid { ConsistentAt(s, t); }
    }
    forall r | r in s'.runs && s'.runs[r].phase.Running?
      ensures Ongoing(s'.runs, r, s'.runs[r].phase.loaded, s'.runs[r].phase.at, Journal(s', s'.runs[r].sid))
    {
      var at := s.runs[r].phase.at;
      assert Ongoing(s.runs, r, s.runs[r].phase.loaded, at, Journal(s, s.runs[r].sid));
      assert Journal(s', s.runs[r].sid)[..at] == Journal(s, s.runs[r].sid)[..at];
    }
  }

  lemma OverwrittenIsConsistent(runs: map<RunId, Run>, sid: SessionId, stored: History, events: seq<Event>, q: RunId,
                                h: History)
    requires Consistent(runs, sid, stored, events)
    ensures Consistent(runs, sid, h, events + [Late(q, h)])
  {
    ReplayOne(runs, events, Late(q, h));
  }

  lemma SameHistory(s: State, s': State)
    requires HistoryInv(s) && s'.runs == s.runs && s'.stored == s.stored && s'.journal == s.journal
    ensures HistoryInv(s')
  {
    QuietStep(s, s');
  }

  /** Mutual exclusion: of two runs of one session at most one is past the lock. */
  lemma OneInside(s: State, q: RunId, r: RunId)
    requires LockInv(s) && q in s.runs && r in s.runs && q != r
    requires s.runs[q].phase.Inside() && s.runs[r].phase.Inside()
    ensures s.runs[q].sid != s.runs[r].sid
  {
    assert s.holder[s.runs[q].phase.lock] == q && s.holder[s.runs[r].phase.lock] == r;
  }

  /** A load enters the run at the end of the journal; what it loads is what the journal stood for. */
  lemma LoadedIsConsistent(runs: map<RunId, Run>, runs': map<RunId, Run>, r: RunId, sid: SessionId,
                           stored: History, events: seq<Event>)
    requires r in runs && !runs[r].phase.Past() && runs[r].sid == sid && runs[r].saves == 0
    requires r in runs' && runs' == runs[r := runs'[r]]
    requires runs'[r].phase.Past() && runs'[r].sid == sid && runs'[r].saves == 0
    requires Consistent(runs, sid, stored, events)
    ensures Consistent(runs', sid, stored, events + [Ran(r)])
    ensures Ongoing(runs', r, stored, |events|, events + [Ran(r)])
  {
    assert (events + [Ran(r)])[..|events|] == events;
    ReplayFrame(runs, runs', events);
    ReplayOne(runs', events, Ran(r));
  }

  lemma LoadIsConsistent(s: State, r: RunId)
    requires HistoryInv(s) && Enabled(s, Load(r))
    ensures var s', sid, events := Apply(s, Load(r)), s.runs[r].sid, Journal(s, s.runs[r].sid);
            && Journal(s', sid) == events + [Ran(r)]
            && Consistent(s'.runs, sid, Stored(s', sid), events + [Ran(r)])
            && Ongoing(s'.runs, r, Stored(s, sid), |events|, events + [Ran(r)])
  {
    hide Consistent; hide Ongoing;
    var s', sid := Apply(s, Load(r)), s.runs[r].sid;
    LoadedIsConsistent(s.runs, s'.runs, r, sid, Stored(s, sid), Journal(s, sid));
  }

  lemma LoadKeepsHistory(s: State, r: RunId)
    requires LockInv(s) && HistoryInv(s) && Enabled(s, Load(r))
    ensures HistoryInv(Apply(s, Load(r)))
  {
    hide LockInv; hide Consistent; hide Ongoing;
    var s', sid := Apply(s, Load(r)), s.runs[r].sid;
    LoadIsConsistent(s, r);
    assert Onward(s.runs, s'.runs, {});
    forall t ensures Consistent(s'.runs, t, Stored(s', t), Journal(s', t)) {
      if t != sid { ConsistentFrame(s.runs, s'.runs, {}, t, Stored(s, t), Journal(s, t)); }
    }
    forall q | q in s'.runs && s'.runs[q].phase.Running?
      ensures Ongoing(s'.runs, q, s'.runs[q].phase.loaded, s'.runs[q].phase.at, Journal(s', s'.runs[q].sid))
    {
      if q != r {
        OneInside(s, q, r);
        OngoingFrame(s.runs, s'.runs, {}, q, s.runs[q].phase.loaded, s.runs[q].phase.at, Journal(s, s.runs[q].sid));
      }
    }
  }

  lemma NotInOthersJournal(s: State, r: RunId, sid: SessionId)
    requires HistoryInv(s) && r in s.runs && s.runs[r].sid != sid
    ensures forall i | 0 <= i < |Journal(s, sid)| :: Journal(s, sid)[i] != Ran(r)
  {
    assert Consistent(s.runs, sid, Stored(s, sid), Journal(s, sid));
  }

  /** A save writes the history loaded plus this run's own part: what the journal up to the run stands for. */
  lemma SavedIsConsistent(runs: map<RunId, Run>, runs': map<RunId, Run>, r: RunId, sid: SessionId,
                          stored: History, loaded: History, at: nat, events: seq<Event>)
    requires r in runs && runs' == runs[r := runs[r].(saves := runs[r].saves + 1)]
    requires Consistent(runs, sid, stored, events) && Ongoing(runs, r, loaded, at, events)
    ensures Consistent(runs', sid, loaded + [Entry(r, runs[r].saves + 1)], events[..at + 1])
    ensures Ongoing(runs', r, loaded, at, events[..at + 1])
  {
    var kept := events[..at + 1];
    assert kept == events[..at] + [Ran(r)] && kept[..at] == events[..at];
    ReplayFrame(runs, runs', events[..at]);
    ReplayOne(runs', events[..at], Ran(r));
  }

  lemma SaveIsConsistent(s: State, r: RunId)
    requires HistoryInv(s) && Enabled(s, Save(r))
    ensures var s', sid := Apply(s, Save(r)), s.runs[r].sid;
            && Consistent(s'.runs, sid, Stored(s', sid), Journal(s', sid))
            && Ongoing(s'.runs, r, s.runs[r].phase.loaded, s.runs[r].phase.at, Journal(s', sid))
  {
    var s', run := Apply(s, Save(r)), s.runs[r];
    var events, at := Journal(s, run.sid), run.phase.at;
    assert Ongoing(s.runs, r, run.phase.loaded, at, events);
    assert at < |events|;
    hide Consistent; hide Ongoing;
    SavedIsConsistent(s.runs, s'.runs, r, run.sid, Stored(s, run.sid), run.phase.loaded, at, events);
  }

  lemma SaveKeepsHistory(s: State, r: RunId)
    requires LockInv(s) && HistoryInv(s) && Enabled(s, Save(r))
    ensures HistoryInv(Apply(s, Save(r)))
  {
    hide LockInv; hide Consistent; hide Ongoing;
    var s', sid := Apply(s, Save(r)), s.runs[r].sid;
    SaveIsConsistent(s, r);
    assert Onward(s.runs, s'.runs, {r});
    forall t ensures Consistent(s'.runs, t, Stored(s', t), Journal(s', t)) {
      if t != sid { ConsistentFrame(s.runs, s'.runs, {r}, t, Stored(s, t), Journal(s, t)); }
    }
    forall q | q in s'.runs && s'.runs[q].phase.Running? && q != r
      ensures Ongoing(s'.runs, q, s'.runs[q].phase.loaded, s'.runs[q].phase.at, Journal(s', s'.runs[q].sid))
    {
      OneInside(s, q, r);
      NotInOthersJournal(s, r, s.runs[q].sid);
      OngoingFrame(s.runs, s'.runs, {r}, q, s.runs[q].phase.loaded, s.runs[q].phase.at, Journal(s, s.runs[q].sid));
    }
  }

  lemma UnlockKeepsHistory(s: State, r: RunId)
    requires HistoryInv(s) && r in s.runs && s.runs[r].phase.Inside()
    ensures HistoryInv(Unlock(s, r))
  {
    hide HistoryInv;
    MoveIsQuiet(s, Unlock(s, r), r);
  }

  lemma BailOutKeepsHistory(s: State, r: RunId)
    requires HistoryInv(s) && Enabled(s, BailOut(r))
    ensures HistoryInv(Apply(s, BailOut(r)))
  {
    hide HistoryInv; hide Wipe;
    var left := RemoveToken(SetPhase(s, r, Leaving(s.runs[r].phase.lock)), r, Http);
    MoveIsQuiet(s, left, r);
    WipeKeepsHistory(left, s.runs[r].sid);
  }

  lemma StepKeepsHistory(s: State, step: Step)
    requires LockInv(s) && HistoryInv(s) && Enabled(s, step)
    ensures HistoryInv(Apply(s, step))
  {
    hide LockInv; hide HistoryInv; hide TakeLock; hide LiveLocks; hide Stored; hide Journal; hide CancelToken;
    hide Unlock;
    match step
    case Load(r) => LoadKeepsHistory(s, r);
    case Save(r) => SaveKeepsHistory(s, r);
    case Delete(sid) => WipeKeepsHistory(s, sid);
    case BailOut(r) => BailOutKeepsHistory(s, r);
    case TakeHandle(r) => MoveIsQuiet(s, Apply(s, step), r);
    case Acquire(r) => MoveIsQuiet(s, Apply(s, step), r);
    case Recheck(r) => UnlockKeepsHistory(s, r);
    case Release(r) => UnlockKeepsHistory(s, r);
    case TimeOut(r) =>
      UnlockKeepsHistory(s, r);
      SameHistory(Unlock(s, r), Apply(s, step));
    case LateSave(r) =>
      OverwriteKeepsHistory(s, s.runs[r].sid, r, s.pending[r]);
      SameHistory(Overwrite(s, s.runs[r].sid, r, s.pending[r]), Apply(s, step));
    case DropHandle(r) => MoveIsQuiet(s, Apply(s, step), r);
    case Start(r, _, _, _) => QuietStep(s, Apply(s, step));
    case Cancel(_) => QuietStep(s, Apply(s, step));
    case Disconnect(_) => QuietStep(s, Apply(s, step));
  }

  /** One run changes its phase, not to `Running` and not back before its turn. */
  lemma MoveIsQuiet(s: State, s': State, r: RunId)
    requires HistoryInv(s) && s'.stored == s.stored && s'.journal == s.journal && r in s.runs
    requires exists phase: Phase :: s'.runs == s.runs[r := s.runs[r].(phase := phase)]
                                    && !phase.Running? && (s.runs[r].phase.Past() ==> phase.Past())
    ensures HistoryInv(s')
  {
    QuietStep(s, s');
  }

  lemma {:induction false} RunsKeepInvariants(s: State, steps: seq<Step>)
    requires LockInv(s) && HistoryInv(s) && Execute(s, steps).Some?
    ensures LockInv(Execute(s, steps).value) && HistoryInv(Execute(s, steps).value)
    decreases |steps|
  {
    hide LockInv; hide HistoryInv;
    if steps != [] {
      StepKeepsLocks(s, steps[0]);
      StepKeepsHistory(s, steps[0]);
      RunsKeepInvariants(Apply(s, steps[0]), steps[1..]);
    }
  }

  lemma {:induction false} ExecuteMore(s: State, steps: seq<Step>, step: Step)
    requires Execute(s, steps).Some? && Enabled(Execute(s, steps).value, step)
    ensures Execute(s, steps + [step]) == Some(Apply(Execute(s, steps).value, step))
    decreases |steps|
  {
    hide Enabled; hide Apply;
    if steps == [] {
      ExecuteOne(s, step);
    } else {
      assert (steps + [step])[1..] == steps[1..] + [step];
      ExecuteMore(Apply(s, steps[0]), steps[1..], step);
    }
  }

  lemma ExecuteOne(s: State, step: Step)
    requires Enabled(s, step)
    ensures Execute(s, [] + [step]) == Some(Apply(s, step))
  {
    hide Enabled; hide Apply;
    assert [] + [step] == [step] && [step][1..] == [];
    assert Execute(Apply(s, step), []) == Some(Apply(s, step));
  }

  // ── What holds in every reachable state ───────────────────────

  /** In every interleaving, each live handle is on the very lock the table names for its session: pruning
      never drops a lock in use. So at most one run per session is past the lock. */
  lemma LocksAreShared(s: State)
    requires Reachable(s)
    ensures forall r | r in s.runs && s.runs[r].phase.HasHandle() ::
      s.runs[r].sid in s.locks && s.locks[s.runs[r].sid] == s.runs[r].phase.lock
    ensures forall q, r | q in s.runs && r in s.runs && s.runs[q].sid == s.runs[r].sid
                          && s.runs[q].phase.Inside() && s.runs[r].phase.Inside() :: q == r
  {
    var steps :| Execute(INIT, steps) == Some(s);
    RunsKeepInvariants(INIT, steps);
    forall q, r | q in s.runs && r in s.runs && s.runs[q].sid == s.runs[r].sid
                  && s.runs[q].phase.Inside() && s.runs[r].phase.Inside()
      ensures q == r
    {
      if q != r { OneInside(s, q, r); }
    }
  }

  /** In every interleaving, the stored history of a session is its journal replayed: the saves of its runs,
      one after another in lock order, from the last deletion on that no save has written over. */
  lemma StoredIsReplay(s: State, sid: SessionId)
    requires Reachable(s)
    ensures Stored(s, sid) == Replay(s.runs, Journal(s, sid))
  {
    var steps :| Execute(INIT, steps) == Some(s);
    RunsKeepInvariants(INIT, steps);
    assert Consistent(s.runs, sid, Stored(s, sid), Journal(s, sid));
  }

  /** After taking a handle the table holds that session's lock and, of the others, exactly those that some run has a
      handle on, each as it was; a session whose lock nobody else uses may get a new one. */
  lemma TableHoldsLiveLocks(s: State, r: RunId)
    requires LockInv(s) && Enabled(s, TakeHandle(r))
    ensures var s', sid := Apply(s, TakeHandle(r)), s.runs[r].sid;
            && (forall t | t != sid :: t in s'.locks <==>
                  t in s.locks && exists q :: q in s.runs && s.runs[q].phase.HasHandle() && s.runs[q].sid == t)
            && (forall t | t != sid && t in s'.locks :: s'.locks[t] == s.locks[t])
            && s'.runs[r].phase == Waiting(s'.locks[sid])
            && ((sid in s.locks && s'.locks[sid] == s.locks[sid]) || s'.locks[sid] == s.nextLock)
  {
    LiveLocksAre(s);
    hide LiveLocks; hide LockInv;
  }

  lemma LiveLocksAre(s: State)
    requires LockInv(s)
    ensures forall t | t in s.locks :: s.locks[t] in LiveLocks(s)
              <==> exists q :: q in s.runs && s.runs[q].phase.HasHandle() && s.runs[q].sid == t
  {
    forall t | t in s.locks
      ensures s.locks[t] in LiveLocks(s)
         <==> exists q :: q in s.runs && s.runs[q].phase.HasHandle() && s.runs[q].sid == t
    {
      if q :| q in s.runs && s.runs[q].phase.HasHandle() && s.runs[q].sid == t {
        assert s.runs[q].phase.lock in LiveLocks(s);
      }
    }
  }

  /** What a step does to the stored row of a session: a deletion empties it, and so does a cancelled new socket run
      that gives up waiting; a save under the lock writes what the run loaded and its own part; a late save lands;
      every other step leaves it. */
  lemma RowAfterStep(s: State, step: Step, sid: SessionId)
    requires Enabled(s, step)
    ensures var row := Stored(Apply(s, step), sid);
            if step.Delete? then row == if step.sid == sid then [] else Stored(s, sid)
            else if step.BailOut? then
              var run := s.runs[step.r];
              row == if run.sid == sid && run.client.Socket? && run.isNew then [] else Stored(s, sid)
            else if step.Save? then
              var run := s.runs[step.r];
              row == if run.sid == sid then run.phase.loaded + [Entry(step.r, run.saves + 1)] else Stored(s, sid)
            else if step.LateSave? then
              row == if s.runs[step.r].sid == sid then s.pending[step.r] else Stored(s, sid)
            else row == Stored(s, sid)
  {
    hide Journal; hide RemoveToken;
    if step.BailOut? {
      RemoveTokenEffect(SetPhase(s, step.r, Leaving(s.runs[step.r].phase.lock)), step.r, Http);
    } else if !step.Delete? && !step.Save? && !step.LateSave? {
      OtherRows(s, step);
      hide Apply;
    }
  }

  lemma OtherRows(s: State, step: Step)
    requires Enabled(s, step) && !step.Delete? && !step.BailOut? && !step.Save? && !step.LateSave?
    ensures Apply(s, step).stored == s.stored
  {
    hide TakeLock; hide LiveLocks; hide Journal; hide RegisterToken; hide ForgetToken; hide CancelToken;
  }

  // ── The journal is complete ───────────────────────────────────

  /** A journal names no run twice. */
  ghost predicate NoRepeats(events: seq<Event>) {
    forall i, j | 0 <= i < j < |events| && events[i].Ran? :: events[i] != events[j]
  }

  /** Every run in the middle of its turn, and every run that saved, is in its session's journal. */
  ghost predicate Complete(s: State) {
    && (forall r | r in s.runs && (s.runs[r].phase.Running? || s.runs[r].saves > 0) ::
        Ran(r) in Journal(s, s.runs[r].sid))
    && (forall sid :: NoRepeats(Journal(s, sid)))
  }

  lemma QuietComplete(s: State, s': State)
    requires Complete(s) && s'.journal == s.journal
    requires forall r | r in s'.runs && (s'.runs[r].phase.Running? || s'.runs[r].saves > 0) ::
      r in s.runs && s'.runs[r].sid == s.runs[r].sid && (s.runs[r].phase.Running? || s.runs[r].saves > 0)
    ensures Complete(s')
  {
    forall sid ensures NoRepeats(Journal(s', sid)) {
      assert NoRepeats(Journal(s, sid)) && Journal(s', sid) == Journal(s, sid);
    }
    forall r | r in s'.runs && (s'.runs[r].phase.Running? || s'.runs[r].saves > 0)
      ensures Ran(r) in Journal(s', s'.runs[r].sid)
    {
      assert Ran(r) in Journal(s, s.runs[r].sid);
    }
  }

  lemma WipeComplete(s: State, sid: SessionId)
    requires Complete(s)
    ensures Complete(Wipe(s, sid))
  {
    forall t ensures NoRepeats(Journal(Wipe(s, sid), t)) {
      assert NoRepeats(Journal(s, t));
    }
  }

  lemma OverwriteComplete(s: State, sid: SessionId, q: RunId, h: History)
    requires Complete(s)
    ensures Complete(Overwrite(s, sid, q, h))
  {
    forall t ensures NoRepeats(Journal(Overwrite(s, sid, q, h), t)) {
      assert NoRepeats(Journal(s, t));
    }
  }

  lemma LoadComplete(s: State, r: RunId)
    requires HistoryInv(s) && Complete(s) && Enabled(s, Load(r))
    ensures Complete(Apply(s, Load(r)))
  {
    var s', own := Apply(s, Load(r)), s.runs[r].sid;
    assert Ran(r) !in Journal(s, own) by { ConsistentAt(s, own); }
    hide HistoryInv; hide Consistent; hide Stored;
    assert Journal(s', own) == Journal(s, own) + [Ran(r)];
    NoRepeatsSnoc(Journal(s, own), Ran(r));
    hide NoRepeats;
    forall t ensures NoRepeats(Journal(s', t)) {
      if t != own { assert NoRepeats(Journal(s, t)) && Journal(s', t) == Journal(s, t); }
    }
    forall q | q in s'.runs && (s'.runs[q].phase.Running? || s'.runs[q].saves > 0)
      ensures Ran(q) in Journal(s', s'.runs[q].sid)
    {
      if q != r { assert Ran(q) in Journal(s, s.runs[q].sid); }
    }
  }

  lemma NoRepeatsSnoc(events: seq<Event>, e: Event)
    requires NoRepeats(events) && e !in events
    ensures NoRepeats(events + [e])
  {
  }

  /** A save drops from the journal what follows its run, which are no runs. */
  lemma SaveComplete(s: State, r: RunId)
    requires HistoryInv(s) && Complete(s) && Enabled(s, Save(r))
    ensures Complete(Apply(s, Save(r)))
  {
    hide Consistent;
    var s', own, at := Apply(s, Save(r)), s.runs[r].sid, s.runs[r].phase.at;
    var events := Journal(s, own);
    assert Ongoing(s.runs, r, s.runs[r].phase.loaded, at, events);
    assert Journal(s', own) == events[..at + 1] && events[..at + 1][at] == Ran(r);
    forall t ensures NoRepeats(Journal(s', t)) {
      assert NoRepeats(Journal(s, t));
    }
    forall q | q in s'.runs && (s'.runs[q].phase.Running? || s'.runs[q].saves > 0)
      ensures Ran(q) in Journal(s', s'.runs[q].sid)
    {
      if q != r {
        assert Ran(q) in Journal(s, s.runs[q].sid);
        if s.runs[q].sid == own {
          var i :| 0 <= i < |events| && events[i] == Ran(q);
          assert events[..at + 1][i] == Ran(q);
        }
      }
    }
  }

  lemma BailOutComplete(s: State, r: RunId)
    requires Complete(s) && Enabled(s, BailOut(r))
    ensures Complete(Apply(s, BailOut(r)))
  {
    hide Complete; hide Wipe;
    var left := RemoveToken(SetPhase(s, r, Leaving(s.runs[r].phase.lock)), r, Http);
    QuietComplete(s, left);
    WipeComplete(left, s.runs[r].sid);
  }

  lemma UnlockComplete(s: State, r: RunId)
    requires Complete(s) && r in s.runs && s.runs[r].phase.Inside()
    ensures Complete(Unlock(s, r))
  {
    hide Complete;
    QuietComplete(s, Unlock(s, r));
  }

  lemma MoveComplete(s: State, step: Step)
    requires Complete(s) && Enabled(s, step) && (step.TakeHandle? || step.Acquire? || step.DropHandle?)
    ensures Complete(Apply(s, step))
  {
    hide Complete; hide TakeLock; hide LiveLocks;
    QuietComplete(s, Apply(s, step));
  }

  lemma StepKeepsComplete(s: State, step: Step)
    requires HistoryInv(s) && Complete(s) && Enabled(s, step)
    ensures Complete(Apply(s, step))
  {
    hide HistoryInv; hide Complete; hide TakeLock; hide LiveLocks; hide CancelToken; hide Journal; hide Stored;
    hide Unlock;
    match step
    case Recheck(r) => UnlockComplete(s, r);
    case Release(r) => UnlockComplete(s, r);
    case TimeOut(r) =>
      UnlockComplete(s, r);
      QuietComplete(Unlock(s, r), Apply(s, step));
    case LateSave(r) =>
      OverwriteComplete(s, s.runs[r].sid, r, s.pending[r]);
      QuietComplete(Overwrite(s, s.runs[r].sid, r, s.pending[r]), Apply(s, step));
    case Load(r) => LoadComplete(s, r);
    case Save(r) => SaveComplete(s, r);
    case BailOut(r) => BailOutComplete(s, r);
    case Delete(sid) => WipeComplete(s, sid);
    case TakeHandle(_) => MoveComplete(s, step);
    case Acquire(_) => MoveComplete(s, step);
    case DropHandle(_) => MoveComplete(s, step);
    case _ => QuietComplete(s, Apply(s, step));
  }

  lemma {:induction false} RunsKeepComplete(s: State, steps: seq<Step>)
    requires LockInv(s) && HistoryInv(s) && Complete(s) && Execute(s, steps).Some?
    ensures Complete(Execute(s, steps).value)
    decreases |steps|
  {
    hide LockInv; hide HistoryInv; hide Complete; hide Enabled; hide Apply;
    if steps != [] {
      StepKeepsLocks(s, steps[0]);
      StepKeepsHistory(s, steps[0]);
      StepKeepsComplete(s, steps[0]);
      RunsKeepComplete(Apply(s, steps[0]), steps[1..]);
    }
  }

  /** In every reachable state, every run that saved is in its session's journal, and no run is in one twice:
      what the histories are compared with leaves nobody out. */
  lemma JournalIsComplete(s: State)
    requires Reachable(s)
    ensures forall r | r in s.runs && s.runs[r].saves > 0 :: Ran(r) in Journal(s, s.runs[r].sid)
    ensures forall sid :: NoRepeats(Journal(s, sid))
  {
    var steps :| Execute(INIT, steps) == Some(s);
    RunsKeepComplete(INIT, steps);
  }

  // ── Saves that land late ──────────────────────────────────────

  /** The run is over, and the history holds a version of it beyond those it saved under the lock. */
  predicate BeyondSaves(runs: map<RunId, Run>, r: RunId, h: History) {
    r in runs && (runs[r].phase.Leaving? || runs[r].phase.Finished?) && Entry(r, runs[r].saves + 1) in h
  }

  ghost predicate LatesBeyond(runs: map<RunId, Run>, events: seq<Event>) {
    forall i | 0 <= i < |events| && events[i].Late? :: BeyondSaves(runs, events[i].run, events[i].history)
  }

  ghost predicate LateInv(s: State) {
    && (forall r | r in s.pending :: BeyondSaves(s.runs, r, s.pending[r]))
    && (forall sid :: LatesBeyond(s.runs, Journal(s, sid)))
  }

  /** Runs that are over stay over and save nothing more. */
  ghost predicate OverStaysOver(runs: map<RunId, Run>, runs': map<RunId, Run>) {
    forall r | r in runs && (runs[r].phase.Leaving? || runs[r].phase.Finished?) ::
      r in runs' && runs'[r].saves == runs[r].saves && (runs'[r].phase.Leaving? || runs'[r].phase.Finished?)
  }

  lemma LateFrame(s: State, s': State)
    requires LateInv(s) && OverStaysOver(s.runs, s'.runs) && s'.pending == s.pending
    requires forall sid, i | 0 <= i < |Journal(s', sid)| && Journal(s', sid)[i].Late? ::
      Journal(s', sid)[i] in Journal(s, sid)
    ensures LateInv(s')
  {
    forall sid ensures LatesBeyond(s'.runs, Journal(s', sid)) {
      assert LatesBeyond(s.runs, Journal(s, sid));
    }
  }

  lemma SameJournalsLate(s: State, s': State)
    requires LateInv(s) && OverStaysOver(s.runs, s'.runs) && s'.pending == s.pending && s'.journal == s.journal
    ensures LateInv(s')
  {
    LateFrame(s, s');
  }

  lemma WipeKeepsLate(s: State, sid: SessionId)
    requires LateInv(s)
    ensures LateInv(Wipe(s, sid))
  {
    LateFrame(s, Wipe(s, sid));
  }

  lemma TurnKeepsLate(s: State, step: Step)
    requires LateInv(s) && Enabled(s, step) && (step.Load? || step.Save?)
    ensures LateInv(Apply(s, step))
  {
    hide Stored;
    LateFrame(s, Apply(s, step));
  }

  lemma TimeOutKeepsLate(s: State, r: RunId)
    requires LateInv(s) && Enabled(s, TimeOut(r))
    ensures LateInv(Apply(s, TimeOut(r)))
  {
    var unlocked, s' := Unlock(s, r), Apply(s, TimeOut(r));
    SameJournalsLate(s, unlocked);
    var h, e := s.runs[r].phase.loaded, Entry(r, s.runs[r].saves + 1);
    assert (h + [e])[|h|] == e;
    assert BeyondSaves(s'.runs, r, h + [e]);
    hide BeyondSaves; hide Unlock;
    forall sid ensures LatesBeyond(s'.runs, Journal(s', sid)) {
      assert LatesBeyond(unlocked.runs, Journal(unlocked, sid));
    }
  }

  lemma LateSaveKeepsLate(s: State, r: RunId)
    requires LateInv(s) && Enabled(s, LateSave(r))
    ensures LateInv(Apply(s, LateSave(r)))
  {
    hide BeyondSaves;
    var s' := Apply(s, LateSave(r));
    forall sid ensures LatesBeyond(s'.runs, Journal(s', sid)) {
      assert LatesBeyond(s.runs, Journal(s, sid));
    }
  }

  lemma BailOutKeepsLate(s: State, r: RunId)
    requires LateInv(s) && Enabled(s, BailOut(r))
    ensures LateInv(Apply(s, BailOut(r)))
  {
    hide LateInv; hide Wipe;
    var left := RemoveToken(SetPhase(s, r, Leaving(s.runs[r].phase.lock)), r, Http);
    SameJournalsLate(s, left);
    WipeKeepsLate(left, s.runs[r].sid);
  }

  lemma UnlockKeepsLate(s: State, r: RunId)
    requires LateInv(s) && r in s.runs && s.runs[r].phase.Inside()
    ensures LateInv(Unlock(s, r))
  {
    hide LateInv;
    SameJournalsLate(s, Unlock(s, r));
  }

  lemma MoveKeepsLate(s: State, step: Step)
    requires LateInv(s) && Enabled(s, step) && (step.TakeHandle? || step.Acquire? || step.DropHandle?)
    ensures LateInv(Apply(s, step))
  {
    hide LateInv; hide TakeLock; hide LiveLocks;
    SameJournalsLate(s, Apply(s, step));
  }

  lemma StepKeepsLate(s: State, step: Step)
    requires LateInv(s) && Enabled(s, step)
    ensures LateInv(Apply(s, step))
  {
    hide LateInv; hide TakeLock; hide LiveLocks; hide CancelToken; hide Journal; hide Stored; hide Unlock;
    match step
    case Load(_) => TurnKeepsLate(s, step);
    case Save(_) => TurnKeepsLate(s, step);
    case Recheck(r) => UnlockKeepsLate(s, r);
    case Release(r) => UnlockKeepsLate(s, r);
    case TimeOut(r) => TimeOutKeepsLate(s, r);
    case LateSave(r) => LateSaveKeepsLate(s, r);
    case BailOut(r) => BailOutKeepsLate(s, r);
    case Delete(sid) => WipeKeepsLate(s, sid);
    case TakeHandle(_) => MoveKeepsLate(s, step);
    case Acquire(_) => MoveKeepsLate(s, step);
    case DropHandle(_) => MoveKeepsLate(s, step);
    case _ => SameJournalsLate(s, Apply(s, step));
  }

  lemma {:induction false} RunsKeepLate(s: State, steps: seq<Step>)
    requires LateInv(s) && Execute(s, steps).Some?
    ensures LateInv(Execute(s, steps).value)
    decreases |steps|
  {
    hide LateInv; hide Enabled; hide Apply;
    if steps != [] {
      StepKeepsLate(s, steps[0]);
      RunsKeepLate(Apply(s, steps[0]), steps[1..]);
    }
  }

  // ── When the stored history is serial ─────────────────────────

  /** No run that saved stands in the journal in front of a deletion, and what landed late has been deleted. */
  ghost predicate NothingLost(runs: map<RunId, Run>, events: seq<Event>) {
    && NoneWiped(runs, events)
    && forall i | 0 <= i < |events| && events[i].Late? :: exists j | i < j < |events| :: events[j] == Wiped
  }

  ghost predicate NoneWiped(runs: map<RunId, Run>, events: seq<Event>) {
    forall i, j | 0 <= i < j < |events| && events[i].Ran? && Saves(runs, events[i].run) > 0 :: events[j] != Wiped
  }

  /** The serial history is empty if and only if none of its runs saved; it holds their last saves. */
  lemma {:induction false} SerialEntries(runs: map<RunId, Run>, events: seq<Event>)
    ensures Serial(runs, events) == []
       <==> forall i | 0 <= i < |events| && events[i].Ran? :: Saves(runs, events[i].run) == 0
    ensures forall e | e in Serial(runs, events) :: e.version == Saves(runs, e.run)
  {
    if events != [] {
      var before, last := events[..|events| - 1], events[|events| - 1];
      SerialEntries(runs, before);
      assert events == before + [last];
      if Serial(runs, before) != [] {
        var i :| 0 <= i < |before| && before[i].Ran? && Saves(runs, before[i].run) != 0;
        assert events[i] == before[i];
      }
    }
  }

  lemma NoneWipedRan(runs: map<RunId, Run>, before: seq<Event>, r: RunId)
    ensures NoneWiped(runs, before + [Ran(r)]) <==> NoneWiped(runs, before)
  {
    var events := before + [Ran(r)];
    if NoneWiped(runs, events) {
      forall i, j | 0 <= i < j < |before| && before[i].Ran? && Saves(runs, before[i].run) > 0
        ensures before[j] != Wiped
      {
        assert events[i] == before[i] && events[j] == before[j];
      }
    }
  }

  lemma NothingLostRan(runs: map<RunId, Run>, before: seq<Event>, r: RunId)
    ensures NothingLost(runs, before + [Ran(r)]) <==> NothingLost(runs, before)
  {
    var events := before + [Ran(r)];
    NoneWipedRan(runs, before, r);
    hide NoneWiped;
    if NothingLost(runs, before) {
      forall i | 0 <= i < |events| && events[i].Late? ensures exists j | i < j < |events| :: events[j] == Wiped {
        var j :| i < j < |before| && before[j] == Wiped;
        assert events[j] == Wiped;
      }
    }
    if NothingLost(runs, events) {
      forall i | 0 <= i < |before| && before[i].Late? ensures exists j | i < j < |before| :: before[j] == Wiped {
        assert events[i] == before[i];
        var j :| i < j < |events| && events[j] == Wiped;
        assert before[j] == Wiped;
      }
    }
  }

  lemma NothingLostWiped(runs: map<RunId, Run>, before: seq<Event>)
    ensures NothingLost(runs, before + [Wiped])
       <==> forall i | 0 <= i < |before| && before[i].Ran? :: Saves(runs, before[i].run) == 0
  {
    var events := before + [Wiped];
    assert events[|before|] == Wiped;
    if NothingLost(runs, events) {
      forall i | 0 <= i < |before| && before[i].Ran? ensures Saves(runs, before[i].run) == 0 {
        assert events[i] == before[i];
      }
    }
  }

  lemma {:induction false} ReplayVersusSerial(runs: map<RunId, Run>, events: seq<Event>)
    requires LatesBeyond(runs, events)
    ensures Replay(runs, events) == Serial(runs, events) <==> NothingLost(runs, events)
  {
    hide NothingLost;
    if events == [] {
      assert NothingLost(runs, []) by { NothingLostInNone(runs); }
    } else {
      var before, last := events[..|events| - 1], events[|events| - 1];
      assert events == before + [last];
      ReplayVersusSerial(runs, before);
      SerialEntries(runs, before);
      match last
      case Ran(r) =>
        NothingLostRan(runs, before, r);
        CancelRight(Replay(runs, before), Serial(runs, before), Trace(runs, r));
      case Wiped => NothingLostWiped(runs, before);
      case Late(r, h) =>
        assert BeyondSaves(runs, r, h);
        assert Entry(r, runs[r].saves + 1) !in Serial(runs, before);
        LateIsLeft(runs, events);
    }
  }

  lemma NothingLostInNone(runs: map<RunId, Run>)
    ensures NothingLost(runs, [])
  {
  }

  lemma LateIsLeft(runs: map<RunId, Run>, events: seq<Event>)
    requires events != [] && events[|events| - 1].Late?
    ensures !NothingLost(runs, events)
  {
  }

  lemma CancelRight(a: History, b: History, c: History)
    ensures a + c == b + c <==> a == b
  {
    if a + c == b + c {
      assert |a| == |b|;
      assert a == (a + c)[..|a|] && b == (b + c)[..|b|];
    }
  }

  /** The stored history is what all runs saved under the lock, in lock order, if and only if no run that saved
      stands in front of a deletion, and nothing that landed late is left. */
  lemma SerialIffNothingLost(s: State, sid: SessionId)
    requires Reachable(s)
    ensures Stored(s, sid) == Serial(s.runs, Journal(s, sid)) <==> NothingLost(s.runs, Journal(s, sid))
  {
    StoredIsReplay(s, sid);
    var steps :| Execute(INIT, steps) == Some(s);
    RunsKeepLate(INIT, steps);
    ReplayVersusSerial(s.runs, Journal(s, sid));
  }

  /** The session whose row a step deletes, if any. */
  function Deleted(s: State, step: Step): Option<SessionId> {
    match step
    case Delete(sid) => Some(sid)
    case BailOut(r) =>
      if r in s.runs && s.runs[r].client.Socket? && s.runs[r].isNew then Some(s.runs[r].sid) else None
    case _ => None
  }

  /** Rows are deleted only while they hold no history, and no save lands late. */
  predicate Orderly(s: State, steps: seq<Step>)
    decreases |steps|
  {
    steps == [] ||
    (&& Enabled(s, steps[0]) && !steps[0].LateSave?
     && (Deleted(s, steps[0]).Some? ==> Stored(s, Deleted(s, steps[0]).value) == [])
     && Orderly(Apply(s, steps[0]), steps[1..]))
  }

  ghost predicate NeverLost(s: State) {
    forall sid :: Calm(s.runs, Journal(s, sid))
  }

  ghost predicate Calm(runs: map<RunId, Run>, events: seq<Event>) {
    NoneWiped(runs, events) && forall i | 0 <= i < |events| :: !events[i].Late?
  }

  lemma SaveLosesNothing(s: State, r: RunId)
    requires HistoryInv(s) && NeverLost(s) && Enabled(s, Save(r))
    ensures NeverLost(Apply(s, Save(r)))
  {
    var s', own := Apply(s, Save(r)), s.runs[r].sid;
    assert Ongoing(s.runs, r, s.runs[r].phase.loaded, s.runs[r].phase.at, Journal(s, own));
    forall sid ensures Calm(s'.runs, Journal(s', sid)) {
      assert Calm(s.runs, Journal(s, sid));
      if sid != own { NotInOthersJournal(s, r, sid); }
    }
  }

  lemma CalmIsSerial(runs: map<RunId, Run>, events: seq<Event>)
    requires Calm(runs, events)
    ensures Replay(runs, events) == Serial(runs, events)
  {
    ReplayVersusSerial(runs, events);
  }

  lemma WipeLosesNothing(s: State, sid: SessionId)
    requires NeverLost(s) && Stored(s, sid) == []
    requires Consistent(s.runs, sid, Stored(s, sid), Journal(s, sid))
    ensures NeverLost(Wipe(s, sid))
  {
    var s' := Wipe(s, sid);
    CalmIsSerial(s.runs, Journal(s, sid));
    SerialEntries(s.runs, Journal(s, sid));
    forall t ensures Calm(s'.runs, Journal(s', t)) {
      assert Calm(s.runs, Journal(s, t));
    }
  }

  /** Journals grow by loads at most, and save counts stay. */
  lemma QuietLosesNothing(s: State, s': State)
    requires NeverLost(s) && forall r :: Saves(s.runs, r) == Saves(s'.runs, r)
    requires forall sid :: Journal(s', sid) == Journal(s, sid)
                           || exists r :: Journal(s', sid) == Journal(s, sid) + [Ran(r)]
    ensures NeverLost(s')
  {
    forall sid ensures Calm(s'.runs, Journal(s', sid)) {
      assert Calm(s.runs, Journal(s, sid));
    }
  }

  lemma SameJournalsLoseNothing(s: State, s': State)
    requires NeverLost(s) && s'.journal == s.journal && forall r :: Saves(s.runs, r) == Saves(s'.runs, r)
    ensures NeverLost(s')
  {
    QuietLosesNothing(s, s');
  }

  lemma LoadLosesNothing(s: State, r: RunId)
    requires NeverLost(s) && Enabled(s, Load(r))
    ensures NeverLost(Apply(s, Load(r)))
  {
    var s' := Apply(s, Load(r));
    assert Journal(s', s.runs[r].sid) == Journal(s, s.runs[r].sid) + [Ran(r)];
    QuietLosesNothing(s, s');
  }

  lemma UnlockLosesNothing(s: State, r: RunId)
    requires NeverLost(s) && r in s.runs && s.runs[r].phase.Inside()
    ensures NeverLost(Unlock(s, r))
  {
    hide NeverLost;
    SameJournalsLoseNothing(s, Unlock(s, r));
  }

  lemma BailOutLosesNothing(s: State, r: RunId)
    requires HistoryInv(s) && NeverLost(s) && Enabled(s, BailOut(r))
    requires Deleted(s, BailOut(r)).Some? ==> Stored(s, s.runs[r].sid) == []
    ensures NeverLost(Apply(s, BailOut(r)))
  {
    hide HistoryInv; hide NeverLost; hide Wipe;
    var left := RemoveToken(SetPhase(s, r, Leaving(s.runs[r].phase.lock)), r, Http);
    QuietLosesNothing(s, left);
    MoveIsQuiet(s, left, r);
    ConsistentAt(left, s.runs[r].sid);
    if Deleted(s, BailOut(r)).Some? { WipeLosesNothing(left, s.runs[r].sid); }
  }

  lemma StepLosesNothing(s: State, step: Step)
    requires HistoryInv(s) && NeverLost(s) && Enabled(s, step) && !step.LateSave?
    requires Deleted(s, step).Some? ==> Stored(s, Deleted(s, step).value) == []
    ensures NeverLost(Apply(s, step))
  {
    hide HistoryInv; hide NeverLost; hide TakeLock; hide LiveLocks; hide CancelToken; hide Journal; hide Stored;
    hide Unlock;
    match step
    case Recheck(r) => UnlockLosesNothing(s, r);
    case Release(r) => UnlockLosesNothing(s, r);
    case TimeOut(r) =>
      UnlockLosesNothing(s, r);
      SameJournalsLoseNothing(Unlock(s, r), Apply(s, step));
    case Save(r) => SaveLosesNothing(s, r);
    case Delete(sid) =>
      ConsistentAt(s, sid);
      WipeLosesNothing(s, sid);
    case BailOut(r) => BailOutLosesNothing(s, r);
    case Load(r) => LoadLosesNothing(s, r);
    case LateSave(_) =>
    case _ => SameJournalsLoseNothing(s, Apply(s, step));
  }

  lemma ConsistentAt(s: State, sid: SessionId)
    requires HistoryInv(s)
    ensures Consistent(s.runs, sid, Stored(s, sid), Journal(s, sid))
  {
  }

  lemma {:induction false} RunsLoseNothing(s: State, steps: seq<Step>)
    requires LockInv(s) && HistoryInv(s) && NeverLost(s) && Orderly(s, steps)
    ensures Execute(s, steps).Some? && NeverLost(Execute(s, steps).value)
    decreases |steps|
  {
    hide LockInv; hide HistoryInv; hide NeverLost; hide Enabled; hide Apply; hide Deleted; hide Stored;
    if steps != [] {
      StepKeepsLocks(s, steps[0]);
      StepKeepsHistory(s, steps[0]);
      StepLosesNothing(s, steps[0]);
      RunsLoseNothing(Apply(s, steps[0]), steps[1..]);
    }
  }

  /** As long as only empty rows are deleted and no save lands late, the stored history is all saved runs, one after
      another in lock order. */
  lemma SerialHistories(steps: seq<Step>, sid: SessionId)
    requires Orderly(INIT, steps)
    ensures Execute(INIT, steps).Some?
    ensures var s := Execute(INIT, steps).value; Stored(s, sid) == Serial(s.runs, Journal(s, sid))
  {
    RunsLoseNothing(INIT, steps);
    RunsKeepInvariants(INIT, steps);
    var s := Execute(INIT, steps).value;
    assert Consistent(s.runs, sid, Stored(s, sid), Journal(s, sid));
    CalmIsSerial(s.runs, Journal(s, sid));
  }

  /** The program does delete a row that holds history: a cancelled run that was the first of its session
      deletes the row without the lock, even after a later run of the session has finished and saved. */
  lemma LateBailOutLosesHistory(sid: SessionId) returns (steps: seq<Step>, s: State)
    ensures Execute(INIT, steps) == Some(s) && forall t :: Delete(t) !in steps
    ensures 1 in s.runs && s.runs[1].sid == sid && s.runs[1].phase.Finished? && s.runs[1].saves == 1
    ensures Stored(s, sid) == [] && Serial(s.runs, Journal(s, sid)) == [Entry(1, 1)]
  {
    hide Serial; hide Execute; hide TakeLock; hide LiveLocks;
    steps, s := TwoWaiting(sid);
    steps, s := Turn(steps, s, 1);
    assert Journal(s, sid) == [Ran(1)];
    s := Perform(s, BailOut(0), steps);
    steps := steps + [BailOut(0)];
    assert Journal(s, sid) == [Ran(1), Wiped];
    SerialOfLost(s.runs);
  }

  /** Nor need the last save win: what a timed-out run had under way lands behind the lock, over the history that a
      later run has saved meanwhile. */
  lemma LateSaveLosesHistory(sid: SessionId) returns (steps: seq<Step>, s: State)
    ensures Execute(INIT, steps) == Some(s) && forall t :: Delete(t) !in steps
    ensures 1 in s.runs && s.runs[1].sid == sid && s.runs[1].phase.Finished? && s.runs[1].saves == 1
    ensures Stored(s, sid) == [Entry(0, 1)] && Serial(s.runs, Journal(s, sid)) == [Entry(1, 1)]
  {
    hide Serial; hide Execute;
    steps, s := TimedOut(sid);
    steps, s := Turn(steps, s, 1);
    assert Journal(s, sid) == [Ran(0), Ran(1)];
    s := Perform(s, LateSave(0), steps);
    steps := steps + [LateSave(0)];
    assert Journal(s, sid) == [Ran(0), Ran(1), Late(0, [Entry(0, 1)])];
    SerialOfOverwritten(s.runs);
  }

  /** A run has timed out with a save under way, and another one of its session waits. */
  lemma TimedOut(sid: SessionId) returns (steps: seq<Step>, s: State)
    ensures Execute(INIT, steps) == Some(s) && forall t :: Delete(t) !in steps
    ensures s.runs == map[0 := Run(Io, sid, false, Leaving(0), 0), 1 := Run(Io, sid, false, Waiting(0), 0)]
    ensures s.pending == map[0 := [Entry(0, 1)]] && s.holder == map[] && Journal(s, sid) == [Ran(0)]
  {
    hide Execute; hide Stored;
    steps, s := LoadedIo(sid);
    s := Perform(s, TimeOut(0), steps);
    steps := steps + [TimeOut(0)];
    assert [] + [Entry(0, 1)] == [Entry(0, 1)];
    assert s.runs == map[0 := Run(Io, sid, false, Leaving(0), 0)] && s.locks == map[sid := 0];
    assert s.pending == map[0 := [Entry(0, 1)]] && s.holder == map[];
    s := Perform(s, Start(1, Io, sid, false), steps);
    steps := steps + [Start(1, Io, sid, false)];
    assert s.runs[0].phase.HasHandle();
    assert 0 in LiveLocks(s);
    s := Perform(s, TakeHandle(1), steps);
    steps := steps + [TakeHandle(1)];
  }

  lemma LoadedIo(sid: SessionId) returns (steps: seq<Step>, s: State)
    ensures Execute(INIT, steps) == Some(s) && forall t :: Delete(t) !in steps
    ensures s.runs == map[0 := Run(Io, sid, false, Running(0, [], 0), 0)] && s.locks == map[sid := 0]
    ensures s.pending == map[] && s.holder == map[0 := 0] && Journal(s, sid) == [Ran(0)]
  {
    hide Execute;
    ExecuteNone(INIT);
    s := Perform(INIT, Start(0, Io, sid, false), []);
    steps := [] + [Start(0, Io, sid, false)];
    s := Perform(s, TakeHandle(0), steps);
    steps := steps + [TakeHandle(0)];
    assert s.runs == map[0 := Run(Io, sid, false, Waiting(0), 0)] && s.locks == map[sid := 0];
    s := Perform(s, Acquire(0), steps);
    steps := steps + [Acquire(0)];
    s := Perform(s, Load(0), steps);
    steps := steps + [Load(0)];
  }

  lemma SerialOfOverwritten(runs: map<RunId, Run>)
    requires Saves(runs, 0) == 0 && Saves(runs, 1) == 1
    ensures Serial(runs, [Ran(0), Ran(1), Late(0, [Entry(0, 1)])]) == [Entry(1, 1)]
  {
    var a, b, c := [Ran(0)], [Ran(0), Ran(1)], [Ran(0), Ran(1), Late(0, [Entry(0, 1)])];
    assert c[..2] == b && b[..1] == a && a[..0] == [];
    assert Serial(runs, a) == [] + Trace(runs, 0) == [];
    assert Serial(runs, b) == [] + Trace(runs, 1);
  }

  /** A first run is cancelled before it gets the lock. */
  lemma OneWaiting(sid: SessionId) returns (steps: seq<Step>, s: State)
    ensures Execute(INIT, steps) == Some(s) && forall t :: Delete(t) !in steps
    ensures s.runs == map[0 := Run(Socket, sid, true, Waiting(0), 0)] && s.locks == map[sid := 0]
    ensures s.cancelled == {0} && s.holder == map[] && s.stored == map[] && s.journal == map[]
  {
    hide Execute;
    ExecuteNone(INIT);
    s := Perform(INIT, Start(0, Socket, sid, true), []);
    steps := [] + [Start(0, Socket, sid, true)];
    s := Perform(s, TakeHandle(0), steps);
    steps := steps + [TakeHandle(0)];
    s := Perform(s, Cancel(sid), steps);
    steps := steps + [Cancel(sid)];
  }

  /** A second run of the same session queues behind it. */
  lemma TwoWaiting(sid: SessionId) returns (steps: seq<Step>, s: State)
    ensures Execute(INIT, steps) == Some(s) && forall t :: Delete(t) !in steps
    ensures s.runs == map[0 := Run(Socket, sid, true, Waiting(0), 0), 1 := Run(Socket, sid, false, Waiting(0), 0)]
    ensures s.cancelled == {0} && s.holder == map[] && s.stored == map[] && s.journal == map[]
  {
    hide Execute;
    steps, s := OneWaiting(sid);
    s := Perform(s, Start(1, Socket, sid, false), steps);
    steps := steps + [Start(1, Socket, sid, false)];
    assert s.runs[0].phase.HasHandle();
    assert 0 in LiveLocks(s);
    s := Perform(s, TakeHandle(1), steps);
    steps := steps + [TakeHandle(1)];
  }

  /** A waiting run has its turn undisturbed: it loads, saves once and ends. */
  lemma Turn(before: seq<Step>, s0: State, r: RunId) returns (steps: seq<Step>, s: State)
    requires Execute(INIT, before) == Some(s0) && forall t :: Delete(t) !in before
    requires Enabled(s0, Acquire(r)) && s0.runs[r].saves == 0
    ensures Execute(INIT, steps) == Some(s) && forall t :: Delete(t) !in steps
    ensures s.runs == s0.runs[r := s0.runs[r].(phase := Finished, saves := 1)]
    ensures s.cancelled == s0.cancelled && s.pending == s0.pending
    ensures Journal(s, s0.runs[r].sid) == Journal(s0, s0.runs[r].sid) + [Ran(r)]
  {
    hide Execute; hide Enabled; hide Journal; hide Stored;
    steps, s := BeginTurn(before, s0, r);
    var begun := s;
    steps, s := EndTurn(steps, s, r);
    assert s.runs == s0.runs[r := begun.runs[r]][r := begun.runs[r].(phase := Finished, saves := 1)];
  }

  lemma BeginTurn(before: seq<Step>, s0: State, r: RunId) returns (steps: seq<Step>, s: State)
    requires Execute(INIT, before) == Some(s0) && forall t :: Delete(t) !in before
    requires Enabled(s0, Acquire(r))
    ensures Execute(INIT, steps) == Some(s) && forall t :: Delete(t) !in steps
    ensures var run, events := s0.runs[r], Journal(s0, s0.runs[r].sid);
            && s.runs == s0.runs[r := run.(phase := Running(run.phase.lock, Stored(s0, run.sid), |events|))]
            && s.cancelled == s0.cancelled && s.tokens == s0.tokens && s.pending == s0.pending
            && Journal(s, run.sid) == events + [Ran(r)]
            && Enabled(s, Save(r)) && Enabled(s, Release(r))
  {
    hide Execute; hide TakeLock; hide LiveLocks; hide CancelToken; hide Wipe;
    s := Perform(s0, Acquire(r), before);
    assert s.runs == s0.runs[r := s0.runs[r].(phase := Holding(s0.runs[r].phase.lock))];
    s := Perform(s, Load(r), before + [Acquire(r)]);
    steps := before + [Acquire(r)] + [Load(r)];
  }

  lemma EndTurn(before: seq<Step>, s0: State, r: RunId) returns (steps: seq<Step>, s: State)
    requires Execute(INIT, before) == Some(s0) && forall t :: Delete(t) !in before
    requires Enabled(s0, Save(r)) && s0.runs[r].phase.at + 1 == |Journal(s0, s0.runs[r].sid)|
    ensures Execute(INIT, steps) == Some(s) && forall t :: Delete(t) !in steps
    ensures s.runs == s0.runs[r := s0.runs[r].(phase := Finished, saves := s0.runs[r].saves + 1)]
    ensures s.cancelled == s0.cancelled && s.pending == s0.pending
    ensures Journal(s, s0.runs[r].sid) == Journal(s0, s0.runs[r].sid)
  {
    hide Execute; hide TakeLock; hide LiveLocks; hide CancelToken; hide Wipe;
    s := Perform(s0, Save(r), before);
    assert Journal(s, s0.runs[r].sid) == Journal(s0, s0.runs[r].sid) && s.cancelled == s0.cancelled;
    steps, s := Leave(before + [Save(r)], s, r);
  }

  /** A running run gives up the lock and its handle. */
  lemma Leave(before: seq<Step>, s0: State, r: RunId) returns (steps: seq<Step>, s: State)
    requires Execute(INIT, before) == Some(s0) && forall t :: Delete(t) !in before
    requires Enabled(s0, Release(r))
    ensures Execute(INIT, steps) == Some(s) && forall t :: Delete(t) !in steps
    ensures s.runs == s0.runs[r := s0.runs[r].(phase := Finished)]
    ensures s.cancelled == s0.cancelled && s.journal == s0.journal && s.pending == s0.pending
    ensures s0.runs[r].client.Socket? ==> s.tokens == s0.tokens - {s0.runs[r].sid}
  {
    hide Execute; hide Unlock; hide RemoveToken;
    UnlockEffect(s0, r);
    s := Perform(s0, Release(r), before);
    var run := s0.runs[r].(phase := Leaving(s0.runs[r].phase.lock));
    assert s.runs == s0.runs[r := run];
    RemoveTokenEffect(SetPhase(s, r, Finished), r, Socket);
    s := Perform(s, DropHandle(r), before + [Release(r)]);
    assert s.runs == s0.runs[r := run][r := run.(phase := Finished)];
    steps := before + [Release(r)] + [DropHandle(r)];
  }

  lemma RemoveTokenEffect(s: State, r: RunId, client: Client)
    requires r in s.runs
    ensures RemoveToken(s, r, client) == s.(tokens := RemoveToken(s, r, client).tokens)
    ensures s.runs[r].client == client ==> RemoveToken(s, r, client).tokens == s.tokens - {s.runs[r].sid}
  {
  }

  lemma UnlockEffect(s: State, r: RunId)
    requires r in s.runs && s.runs[r].phase.Inside()
    ensures var s', lock := Unlock(s, r), s.runs[r].phase.lock;
            && s' == SetPhase(s, r, Leaving(lock)).(holder := s.holder - {lock}, tokens := s'.tokens)
            && (s.runs[r].client.Socket? ==> s'.tokens == s.tokens)
  {
  }

  lemma ExecuteNone(s: State)
    ensures Execute(s, []) == Some(s)
  {
  }

  lemma Perform(s: State, step: Step, steps: seq<Step>) returns (s': State)
    requires Execute(INIT, steps) == Some(s) && Enabled(s, step)
    ensures s' == Apply(s, step) && Execute(INIT, steps + [step]) == Some(s')
  {
    ExecuteMore(INIT, steps, step);
    s' := Apply(s, step);
  }

  lemma SerialOfLost(runs: map<RunId, Run>)
    requires Saves(runs, 1) == 1
    ensures Serial(runs, [Ran(1), Wiped]) == [Entry(1, 1)]
  {
    assert [Ran(1), Wiped][..1] == [Ran(1)] && [Ran(1)][..0] == [];
    assert Serial(runs, [Ran(1)]) == Serial(runs, []) + Trace(runs, 1);
  }

  // ── What the entries stand for ────────────────────────────────

  /** What a run stores with its `version`-th save, given the history it loaded: any function at all. */
  type Agent<!T> = (RunId, nat, T) -> T

  /** The contents a symbolic history stands for: each entry is its run's function applied to those before it. */
  function Denote<T>(agent: Agent<T>, empty: T, h: History): T {
    if h == [] then empty
    else agent(h[|h| - 1].run, h[|h| - 1].version, Denote(agent, empty, h[..|h| - 1]))
  }

  /** The contents of the stored rows, what the running runs have loaded, and what is yet to land. */
  datatype Contents<T> = Contents(rows: map<SessionId, T>, loaded: map<RunId, T>, late: map<RunId, T>)

  function Row<T>(c: Contents<T>, sid: SessionId, empty: T): T {
    if sid in c.rows then c.rows[sid] else empty
  }

  function Write<T>(agent: Agent<T>, empty: T, s: State, c: Contents<T>, step: Step): Contents<T>
    requires Enabled(s, step)
  {
    match step
    case Load(r) => c.(loaded := c.loaded[r := Row(c, s.runs[r].sid, empty)])
    case Save(r) =>
      var loaded := if r in c.loaded then c.loaded[r] else empty;
      c.(rows := c.rows[s.runs[r].sid := agent(r, s.runs[r].saves + 1, loaded)])
    case BailOut(r) => if Deleted(s, step).Some? then c.(rows := c.rows - {s.runs[r].sid}) else c
    case Delete(sid) => c.(rows := c.rows - {sid})
    case TimeOut(r) =>
      var loaded := if r in c.loaded then c.loaded[r] else empty;
      c.(late := c.late[r := agent(r, s.runs[r].saves + 1, loaded)])
    case LateSave(r) =>
      c.(rows := c.rows[s.runs[r].sid := if r in c.late then c.late[r] else empty], late := c.late - {r})
    case _ => c
  }

  function WriteAll<T>(agent: Agent<T>, empty: T, s: State, c: Contents<T>, steps: seq<Step>): Contents<T>
    requires Execute(s, steps).Some?
    decreases |steps|
  {
    if steps == [] then c
    else WriteAll(agent, empty, Apply(s, steps[0]), Write(agent, empty, s, c, steps[0]), steps[1..])
  }

  /** The contents are those that the symbolic histories stand for. */
  ghost predicate Denoted<T>(agent: Agent<T>, empty: T, s: State, c: Contents<T>) {
    && c.rows.Keys == s.stored.Keys
    && (forall sid | sid in s.stored :: c.rows[sid] == Denote(agent, empty, s.stored[sid]))
    && (forall r | r in s.runs && s.runs[r].phase.Running? ::
          r in c.loaded && c.loaded[r] == Denote(agent, empty, s.runs[r].phase.loaded))
    && (forall r | r in s.pending :: r in c.late && c.late[r] == Denote(agent, empty, s.pending[r]))
  }

  lemma QuietDenotes<T>(agent: Agent<T>, empty: T, s: State, s': State, c: Contents<T>)
    requires Denoted(agent, empty, s, c) && s'.stored == s.stored && s'.pending == s.pending
    requires forall r | r in s'.runs && s'.runs[r].phase.Running? :: r in s.runs && s'.runs[r].phase == s.runs[r].phase
    ensures Denoted(agent, empty, s', c)
  {
  }

  lemma WipeDenotes<T>(agent: Agent<T>, empty: T, s: State, c: Contents<T>, sid: SessionId)
    requires Denoted(agent, empty, s, c)
    ensures Denoted(agent, empty, Wipe(s, sid), c.(rows := c.rows - {sid}))
  {
    assert (c.rows - {sid}).Keys == (s.stored - {sid}).Keys;
  }

  lemma LoadDenotes<T>(agent: Agent<T>, empty: T, s: State, c: Contents<T>, r: RunId)
    requires Denoted(agent, empty, s, c) && Enabled(s, Load(r))
    ensures Denoted(agent, empty, Apply(s, Load(r)), Write(agent, empty, s, c, Load(r)))
  {
    assert Row(c, s.runs[r].sid, empty) == Denote(agent, empty, Stored(s, s.runs[r].sid));
    hide Denote; hide Stored; hide Journal; hide Row;
  }

  lemma SaveDenotes<T>(agent: Agent<T>, empty: T, s: State, c: Contents<T>, r: RunId)
    requires Denoted(agent, empty, s, c) && Enabled(s, Save(r))
    ensures Denoted(agent, empty, Apply(s, Save(r)), Write(agent, empty, s, c, Save(r)))
  {
    var h, e := s.runs[r].phase.loaded, Entry(r, s.runs[r].saves + 1);
    assert (h + [e])[..|h|] == h;
    assert Denote(agent, empty, h + [e]) == agent(r, s.runs[r].saves + 1, Denote(agent, empty, h));
    hide Denote; hide Journal;
  }

  lemma UnlockDenotes<T>(agent: Agent<T>, empty: T, s: State, c: Contents<T>, r: RunId)
    requires Denoted(agent, empty, s, c) && r in s.runs && s.runs[r].phase.Inside()
    ensures Denoted(agent, empty, Unlock(s, r), c)
  {
    hide Denoted;
    QuietDenotes(agent, empty, s, Unlock(s, r), c);
  }

  lemma TimeOutDenotes<T>(agent: Agent<T>, empty: T, s: State, c: Contents<T>, r: RunId)
    requires Denoted(agent, empty, s, c) && Enabled(s, TimeOut(r))
    ensures Denoted(agent, empty, Apply(s, TimeOut(r)), Write(agent, empty, s, c, TimeOut(r)))
  {
    var h, e := s.runs[r].phase.loaded, Entry(r, s.runs[r].saves + 1);
    assert (h + [e])[..|h|] == h;
    assert Denote(agent, empty, h + [e]) == agent(r, s.runs[r].saves + 1, Denote(agent, empty, h));
    hide Denote; hide Journal;
  }

  lemma LateSaveDenotes<T>(agent: Agent<T>, empty: T, s: State, c: Contents<T>, r: RunId)
    requires Denoted(agent, empty, s, c) && Enabled(s, LateSave(r))
    ensures Denoted(agent, empty, Apply(s, LateSave(r)), Write(agent, empty, s, c, LateSave(r)))
  {
    hide Denote; hide Journal;
  }

  lemma BailOutDenotes<T>(agent: Agent<T>, empty: T, s: State, c: Contents<T>, r: RunId)
    requires Denoted(agent, empty, s, c) && Enabled(s, BailOut(r))
    ensures Denoted(agent, empty, Apply(s, BailOut(r)), Write(agent, empty, s, c, BailOut(r)))
  {
    hide Denoted; hide Wipe;
    var left := RemoveToken(SetPhase(s, r, Leaving(s.runs[r].phase.lock)), r, Http);
    QuietDenotes(agent, empty, s, left, c);
    WipeDenotes(agent, empty, left, c, s.runs[r].sid);
  }

  lemma StepDenotes<T>(agent: Agent<T>, empty: T, s: State, c: Contents<T>, step: Step)
    requires Denoted(agent, empty, s, c) && Enabled(s, step)
    ensures Denoted(agent, empty, Apply(s, step), Write(agent, empty, s, c, step))
  {
    hide Denoted; hide TakeLock; hide LiveLocks; hide CancelToken; hide Journal; hide Stored; hide Row; hide Unlock;
    match step
    case Recheck(r) => UnlockDenotes(agent, empty, s, c, r);
    case Release(r) => UnlockDenotes(agent, empty, s, c, r);
    case Load(r) => LoadDenotes(agent, empty, s, c, r);
    case Save(r) => SaveDenotes(agent, empty, s, c, r);
    case Delete(sid) => WipeDenotes(agent, empty, s, c, sid);
    case BailOut(r) => BailOutDenotes(agent, empty, s, c, r);
    case TimeOut(r) => TimeOutDenotes(agent, empty, s, c, r);
    case LateSave(r) => LateSaveDenotes(agent, empty, s, c, r);
    case _ => QuietDenotes(agent, empty, s, Apply(s, step), c);
  }

  lemma {:induction false} RunDenotes<T>(agent: Agent<T>, empty: T, s: State, c: Contents<T>, steps: seq<Step>)
    requires Denoted(agent, empty, s, c) && Execute(s, steps).Some?
    ensures Denoted(agent, empty, Execute(s, steps).value, WriteAll(agent, empty, s, c, steps))
    decreases |steps|
  {
    hide Denoted; hide Enabled; hide Apply; hide Write;
    if steps != [] {
      StepDenotes(agent, empty, s, c, steps[0]);
      RunDenotes(agent, empty, Apply(s, steps[0]), Write(agent, empty, s, c, steps[0]), steps[1..]);
    }
  }

  /** Each run that saved is applied to what the runs before it left, in the order of the journal. */
  function ApplyRuns<T>(agent: Agent<T>, empty: T, runs: map<RunId, Run>, events: seq<Event>): T {
    if events == [] then empty
    else
      var before := ApplyRuns(agent, empty, runs, events[..|events| - 1]);
      match events[|events| - 1]
      case Ran(r) => if Saves(runs, r) > 0 then agent(r, Saves(runs, r), before) else before
      case _ => before
  }

  lemma {:induction false} SerialDenotes<T>(agent: Agent<T>, empty: T, runs: map<RunId, Run>, events: seq<Event>)
    ensures Denote(agent, empty, Serial(runs, events)) == ApplyRuns(agent, empty, runs, events)
  {
    if events != [] {
      var before, last := events[..|events| - 1], events[|events| - 1];
      SerialDenotes(agent, empty, runs, before);
      var h := Serial(runs, before);
      if last.Ran? {
        assert Serial(runs, events) == h + Trace(runs, last.run);
        if Saves(runs, last.run) > 0 {
          assert (h + Trace(runs, last.run))[..|h|] == h;
        } else {
          assert h + Trace(runs, last.run) == h;
        }
      }
    }
  }

  /** Whatever functions from history to history the runs are: as long as no run that saved precedes a surviving
      deletion and nothing that landed late is left, a session's row holds the effect of all runs that saved,
      applied one after another in lock order. */
  lemma RunsApplyInLockOrder<T>(agent: Agent<T>, empty: T, steps: seq<Step>, sid: SessionId)
    requires Execute(INIT, steps).Some?
    ensures var s := Execute(INIT, steps).value;
            NothingLost(s.runs, Journal(s, sid)) ==>
              Row(WriteAll(agent, empty, INIT, Contents(map[], map[], map[]), steps), sid, empty)
              == ApplyRuns(agent, empty, s.runs, Journal(s, sid))
  {
    var s := Execute(INIT, steps).value;
    RunDenotes(agent, empty, INIT, Contents(map[], map[], map[]), steps);
    SerialIffNothingLost(s, sid);
    SerialDenotes(agent, empty, s.runs, Journal(s, sid));
  }

  // ── Cancellation ──────────────────────────────────────────────

  /** A run that a cancel request for its session is meant to stop. */
  predicate Cancellable(run: Run) {
    !run.client.Io? && !run.phase.Finished? && !(run.client.Http? && run.phase.Leaving?)
  }

  /** The step registers, cancels or removes the token of the session, whichever run it belongs to. */
  predicate TouchesToken(s: State, step: Step, sid: SessionId) {
    match step
    case Start(_, client, sid', _) => !client.Io? && sid' == sid
    case BailOut(r) => RunIs(s, r, Http, sid)
    case Recheck(r) => RunIs(s, r, Http, sid)
    case Release(r) => RunIs(s, r, Http, sid)
    case DropHandle(r) => RunIs(s, r, Socket, sid)
    case Cancel(sid') => sid' == sid
    case _ => false
  }

  predicate RunIs(s: State, r: RunId, client: Client, sid: SessionId) {
    r in s.runs && s.runs[r].client == client && s.runs[r].sid == sid
  }

  predicate Untouched(s: State, steps: seq<Step>, sid: SessionId)
    decreases |steps|
  {
    steps == [] ||
    (Enabled(s, steps[0]) && !TouchesToken(s, steps[0], sid) && Untouched(Apply(s, steps[0]), steps[1..], sid))
  }

  predicate Registers(step: Step, r: RunId, sid: SessionId) {
    step.Start? && step.r == r && step.sid == sid && !step.client.Io?
  }

  /** The run starts, and no later step touches its session's token. */
  predicate KeepsToken(s: State, steps: seq<Step>, r: RunId, sid: SessionId)
    decreases |steps|
  {
    steps != [] && Enabled(s, steps[0]) &&
    (|| (Registers(steps[0], r, sid) && Untouched(Apply(s, steps[0]), steps[1..], sid))
     || KeepsToken(Apply(s, steps[0]), steps[1..], r, sid))
  }

  predicate HasToken(s: State, r: RunId, sid: SessionId) { sid in s.tokens && s.tokens[sid] == r }

  function TokensAfter(s: State, step: Step): map<SessionId, RunId> {
    match step
    case Start(r, client, sid, _) => if client.Io? then s.tokens else RegisterToken(s.tokens, sid, r)
    case Cancel(sid) => CancelToken(s.tokens, s.cancelled, sid).0
    case BailOut(r) => ForgottenBy(s, r, Http)
    case Recheck(r) => ForgottenBy(s, r, Http)
    case Release(r) => ForgottenBy(s, r, Http)
    case DropHandle(r) => ForgottenBy(s, r, Socket)
    case _ => s.tokens
  }

  function ForgottenBy(s: State, r: RunId, client: Client): map<SessionId, RunId> {
    if r in s.runs && s.runs[r].client == client then ForgetToken(s.tokens, s.runs[r].sid) else s.tokens
  }

  /** The protocol's steps do to the token table what the methods of `SessionTokens` do. */
  lemma TokenTable(s: State, step: Step)
    requires Enabled(s, step)
    ensures Apply(s, step).tokens == TokensAfter(s, step)
  {
    hide TakeLock; hide LiveLocks; hide Journal; hide Stored; hide RegisterToken; hide ForgetToken; hide CancelToken;
  }

  lemma TokenAfterStep(s: State, step: Step, r: RunId, sid: SessionId)
    requires Enabled(s, step)
    ensures HasToken(Apply(s, step), r, sid)
       <==> Registers(step, r, sid) || (HasToken(s, r, sid) && !TouchesToken(s, step, sid))
  {
    TokenTable(s, step);
    hide Apply;
  }

  lemma {:induction false} TokenAfterRun(s: State, steps: seq<Step>, r: RunId, sid: SessionId)
    requires Execute(s, steps).Some?
    ensures HasToken(Execute(s, steps).value, r, sid)
       <==> KeepsToken(s, steps, r, sid) || (HasToken(s, r, sid) && Untouched(s, steps, sid))
    decreases |steps|
  {
    hide Enabled; hide Apply; hide HasToken; hide Registers; hide TouchesToken;
    if steps != [] {
      TokenAfterStep(s, steps[0], r, sid);
      TokenAfterRun(Apply(s, steps[0]), steps[1..], r, sid);
    }
  }

  /** Over any run of events, cancelling a session reaches a run if and only if the run is cancelled already, or its
      start is followed by no step that registers, cancels or removes the session's token. */
  lemma CancelReachesIffTokenKept(steps: seq<Step>, r: RunId, sid: SessionId)
    requires Execute(INIT, steps).Some?
    ensures var end := Execute(INIT, steps).value;
            r in Apply(end, Cancel(sid)).cancelled <==> r in end.cancelled || KeepsToken(INIT, steps, r, sid)
  {
    TokenAfterRun(INIT, steps, r, sid);
  }

  /** A dropped HTTP connection cancels its run, a cancel the run whose token the session has, and nothing else does. */
  lemma CancelledByStep(s: State, step: Step)
    requires Enabled(s, step)
    ensures forall r :: r in Apply(s, step).cancelled
                   <==> r in s.cancelled || step == Disconnect(r) || (step.Cancel? && HasToken(s, r, step.sid))
  {
    hide TakeLock; hide LiveLocks; hide Journal; hide Stored; hide RegisterToken; hide ForgetToken;
  }

  lemma {:induction false} ExecuteFront(s: State, steps: seq<Step>)
    requires steps != [] && Execute(s, steps).Some?
    ensures var before := Execute(s, steps[..|steps| - 1]);
            && before.Some? && Enabled(before.value, steps[|steps| - 1])
            && Execute(s, steps) == Some(Apply(before.value, steps[|steps| - 1]))
    decreases |steps|
  {
    hide Enabled; hide Apply;
    if |steps| == 1 {
      assert steps[1..] == [] && steps[..0] == [];
    } else {
      ExecuteFront(Apply(s, steps[0]), steps[1..]);
      assert steps[1..][..|steps| - 2] == steps[..|steps| - 1][1..];
    }
  }

  /** The step at `k` cancels the run: its connection is dropped, or its session is cancelled while it has the token. */
  ghost predicate CancelsAt(steps: seq<Step>, k: nat, r: RunId)
    requires k < |steps|
  {
    steps[k] == Disconnect(r) || (steps[k].Cancel? && KeepsToken(INIT, steps[..k], r, steps[k].sid))
  }

  /** Over any run of events, a run is cancelled if and only if its connection was dropped, or its session cancelled at
      a time when no step since its start had registered, cancelled or removed the session's token. */
  lemma {:induction false} CancelledIff(steps: seq<Step>, r: RunId)
    requires Execute(INIT, steps).Some?
    ensures r in Execute(INIT, steps).value.cancelled <==> exists k :: 0 <= k < |steps| && CancelsAt(steps, k, r)
    decreases |steps|
  {
    hide Enabled; hide Apply; hide KeepsToken; hide HasToken; hide Execute;
    if steps == [] {
      NothingExecuted();
    } else {
      var n := |steps| - 1;
      ExecuteFront(INIT, steps);
      CancelledIff(steps[..n], r);
      var before := Execute(INIT, steps[..n]).value;
      CancelledByStep(before, steps[n]);
      if steps[n].Cancel? {
        TokenAfterRun(INIT, steps[..n], r, steps[n].sid);
        NoTokenAtFirst(r, steps[n].sid);
      }
      forall k | 0 <= k < n ensures steps[..n][..k] == steps[..k] && steps[..n][k] == steps[k] {}
      assert forall k | 0 <= k < n :: CancelsAt(steps[..n], k, r) <==> CancelsAt(steps, k, r);
      assert CancelsAt(steps, n, r) <==>
        steps[n] == Disconnect(r) || (steps[n].Cancel? && HasToken(before, r, steps[n].sid));
    }
  }

  lemma NothingExecuted()
    ensures Execute(INIT, []) == Some(INIT)
  {
  }

  lemma NoTokenAtFirst(r: RunId, sid: SessionId)
    ensures !HasToken(INIT, r, sid)
  {
  }

  /** No run of the session is started while another one of it is unfinished; other sessions are free to. */
  predicate OneAtATime(s: State, steps: seq<Step>, sid: SessionId)
    decreases |steps|
  {
    steps == [] ||
    (&& Enabled(s, steps[0])
     && (steps[0].Start? && steps[0].sid == sid ==> AllFinished(s, sid))
     && OneAtATime(Apply(s, steps[0]), steps[1..], sid))
  }

  predicate AllFinished(s: State, sid: SessionId) {
    forall q | q in s.runs && s.runs[q].sid == sid :: s.runs[q].phase.Finished?
  }

  ghost predicate TokenInv(s: State, sid: SessionId) {
    && (forall q, r | q in s.runs && r in s.runs && s.runs[q].sid == sid && s.runs[r].sid == sid
                      && !s.runs[q].phase.Finished? && !s.runs[r].phase.Finished? :: q == r)
    && (forall r | r in s.runs && s.runs[r].sid == sid && Cancellable(s.runs[r]) ::
        r in s.cancelled || HasToken(s, r, sid))
  }

  /** One unfinished run moves on; its session's token goes only once no cancel is meant for it any more. */
  lemma MoveKeepsTokens(s: State, s': State, r: RunId, run: Run, sid: SessionId)
    requires TokenInv(s, sid) && r in s.runs && !s.runs[r].phase.Finished?
    requires s'.runs == s.runs[r := run] && run.sid == s.runs[r].sid && s'.cancelled == s.cancelled
    requires Cancellable(run) ==> Cancellable(s.runs[r]) && s'.tokens == s.tokens
    requires s'.tokens == s.tokens || s'.tokens == s.tokens - {run.sid}
    ensures TokenInv(s', sid)
  {
  }

  lemma StartKeepsTokens(s: State, step: Step, sid: SessionId)
    requires TokenInv(s, sid) && Enabled(s, step) && step.Start?
    requires step.sid == sid ==> AllFinished(s, sid)
    ensures TokenInv(Apply(s, step), sid)
  {
  }

  lemma OutsideKeepsTokens(s: State, step: Step, sid: SessionId)
    requires TokenInv(s, sid) && Enabled(s, step)
    requires step.Cancel? || step.Disconnect? || step.Delete? || step.LateSave?
    ensures TokenInv(Apply(s, step), sid)
  {
  }

  lemma SameTokens(s: State, s': State, sid: SessionId)
    requires TokenInv(s, sid) && s'.runs == s.runs && s'.tokens == s.tokens && s'.cancelled == s.cancelled
    ensures TokenInv(s', sid)
  {
  }

  lemma BailOutKeepsTokens(s: State, r: RunId, sid: SessionId)
    requires TokenInv(s, sid) && Enabled(s, BailOut(r))
    ensures TokenInv(Apply(s, BailOut(r)), sid)
  {
    hide TokenInv; hide Journal;
    var left := RemoveToken(SetPhase(s, r, Leaving(s.runs[r].phase.lock)), r, Http);
    MoveKeepsTokens(s, left, r, left.runs[r], sid);
    SameTokens(left, Apply(s, BailOut(r)), sid);
  }

  lemma UnlockKeepsTokens(s: State, r: RunId, sid: SessionId)
    requires TokenInv(s, sid) && r in s.runs && s.runs[r].phase.Inside()
    ensures TokenInv(Unlock(s, r), sid)
  {
    hide TokenInv;
    MoveKeepsTokens(s, Unlock(s, r), r, Unlock(s, r).runs[r], sid);
  }

  lemma DropHandleKeepsTokens(s: State, r: RunId, sid: SessionId)
    requires TokenInv(s, sid) && Enabled(s, DropHandle(r))
    ensures TokenInv(Apply(s, DropHandle(r)), sid)
  {
    hide TokenInv;
    MoveKeepsTokens(s, Apply(s, DropHandle(r)), r, Apply(s, DropHandle(r)).runs[r], sid);
  }

  /** The steps in which a run ends its turn or leaves. */
  lemma LeavingKeepsTokens(s: State, step: Step, sid: SessionId)
    requires TokenInv(s, sid) && Enabled(s, step)
    requires step.BailOut? || step.Recheck? || step.Release? || step.TimeOut? || step.DropHandle?
    ensures TokenInv(Apply(s, step), sid)
  {
    hide TokenInv; hide Unlock; hide RemoveToken;
    match step
    case BailOut(r) => BailOutKeepsTokens(s, r, sid);
    case DropHandle(r) => DropHandleKeepsTokens(s, r, sid);
    case Recheck(r) => UnlockKeepsTokens(s, r, sid);
    case Release(r) => UnlockKeepsTokens(s, r, sid);
    case TimeOut(r) =>
      UnlockKeepsTokens(s, r, sid);
      SameTokens(Unlock(s, r), Apply(s, step), sid);
  }

  lemma TurnKeepsTokens(s: State, step: Step, sid: SessionId)
    requires TokenInv(s, sid) && Enabled(s, step)
    requires step.TakeHandle? || step.Acquire? || step.Load? || step.Save?
    ensures TokenInv(Apply(s, step), sid)
  {
    hide TokenInv; hide TakeLock; hide LiveLocks; hide Journal; hide Stored;
    MoveKeepsTokens(s, Apply(s, step), step.r, Apply(s, step).runs[step.r], sid);
  }

  lemma StepKeepsTokens(s: State, step: Step, sid: SessionId)
    requires TokenInv(s, sid) && Enabled(s, step)
    requires step.Start? && step.sid == sid ==> AllFinished(s, sid)
    ensures TokenInv(Apply(s, step), sid)
  {
    hide TokenInv; hide Apply;
    if step.Start? {
      StartKeepsTokens(s, step, sid);
    } else if step.Cancel? || step.Disconnect? || step.Delete? || step.LateSave? {
      OutsideKeepsTokens(s, step, sid);
    } else if step.TakeHandle? || step.Acquire? || step.Load? || step.Save? {
      TurnKeepsTokens(s, step, sid);
    } else {
      LeavingKeepsTokens(s, step, sid);
    }
  }

  lemma {:induction false} RunsKeepTokens(s: State, steps: seq<Step>, sid: SessionId)
    requires TokenInv(s, sid) && OneAtATime(s, steps, sid)
    ensures Execute(s, steps).Some? && TokenInv(Execute(s, steps).value, sid)
    decreases |steps|
  {
    hide TokenInv; hide Enabled; hide Apply;
    if steps != [] {
      StepKeepsTokens(s, steps[0], sid);
      RunsKeepTokens(Apply(s, steps[0]), steps[1..], sid);
    }
  }

  /** With the runs of a session one at a time, cancelling it stops its unfinished run. */
  lemma CancelReachesTheRun(steps: seq<Step>, r: RunId, sid: SessionId)
    requires Execute(INIT, steps).Some? && OneAtATime(INIT, steps, sid)
    ensures var s := Execute(INIT, steps).value;
            r in s.runs && s.runs[r].sid == sid && Cancellable(s.runs[r]) ==> r in Apply(s, Cancel(sid)).cancelled
  {
    RunsKeepTokens(INIT, steps, sid);
  }

  /** With two unfinished runs of one session it need not reach the earlier: the table knows the latest only. */
  lemma CancelMissesTheEarlierRun(sid: SessionId)
    ensures var s := Execute(INIT, [Start(0, Socket, sid, true), Start(1, Socket, sid, false)]);
            && s.Some? && 0 in s.value.runs && Cancellable(s.value.runs[0])
            && 0 !in Apply(s.value, Cancel(sid)).cancelled
  {
    var s1 := Apply(INIT, Start(0, Socket, sid, true));
    var s2 := Apply(s1, Start(1, Socket, sid, false));
    ExecuteNone(s2);
    assert Execute(s1, [Start(1, Socket, sid, false)]) == Some(s2) by { ExecuteOne(s1, Start(1, Socket, sid, false)); }
  }

  /** Nor need it reach the only unfinished run: the guard of an earlier run has removed the token registered since. */
  lemma CancelMissesTheOnlyRun(sid: SessionId) returns (steps: seq<Step>, s: State)
    ensures Execute(INIT, steps) == Some(s)
    ensures s.runs == map[0 := Run(Socket, sid, true, Finished, 0), 1 := Run(Socket, sid, false, Registered, 0)]
    ensures Cancellable(s.runs[1]) && 1 !in Apply(s, Cancel(sid)).cancelled
  {
    hide Execute; hide TakeLock; hide LiveLocks;
    steps, s := RegisteredBehind(sid);
    steps, s := BeginTurn(steps, s, 0);
    steps, s := Leave(steps, s, 0);
  }

  /** A run waits for the lock; another one of its session is registered behind it. */
  lemma RegisteredBehind(sid: SessionId) returns (steps: seq<Step>, s: State)
    ensures Execute(INIT, steps) == Some(s) && forall t :: Delete(t) !in steps
    ensures s.runs == map[0 := Run(Socket, sid, true, Waiting(0), 0), 1 := Run(Socket, sid, false, Registered, 0)]
    ensures s.tokens == map[sid := 1] && s.cancelled == {} && s.holder == map[]
  {
    hide Execute;
    ExecuteNone(INIT);
    s := Perform(INIT, Start(0, Socket, sid, true), []);
    steps := [] + [Start(0, Socket, sid, true)];
    s := Perform(s, TakeHandle(0), steps);
    steps := steps + [TakeHandle(0)];
    s := Perform(s, Start(1, Socket, sid, false), steps);
    steps := steps + [Start(1, Socket, sid, false)];
  }
}
