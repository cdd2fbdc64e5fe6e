/** Questions and confirmations that wait for the user: one table of senders each, answered over HTTP or
    over the socket, swept when a connection ends, and given up on by a timeout or a cancellation. The socket
    handler keeps the table locked until it has sent; the HTTP handler only takes the entry under the lock, so
    between its two steps anything else may happen. */
module PendingReplies {
  import opened Wrappers
  import opened Sets

  /** A table entry: it owns the sending half of the waiter's channel. */
  datatype Entry = Entry(token: string, session: string, createdAt: int)

  /** What became of a waiter: still blocked, gone by itself, answered, or woken by its sender being dropped. */
  datatype Fate<V> = Blocked | GaveUp | Answered(value: V) | Closed

  datatype Ask<V> = Ask(token: string, session: string, fate: Fate<V>)

  /** A value sent to a waiter that was listening. */
  datatype Delivery<V> = Delivery(id: string, token: string, value: V)

  /** An HTTP handler between its steps: it owns the sender taken, and has yet to compare the tokens. */
  datatype Flight<V> = Flight(own: string, given: string, value: V)

  datatype Book<V(==)> = Book(
    entries: map<string, Entry>,
    asks: map<string, Ask<V>>,
    flights: map<string, Flight<V>>,
    delivered: multiset<Delivery<V>>)

  datatype Reply = Resolved | TokenMismatch | NotFound

  datatype Step<V> =
    | Insert(id: string, token: string, session: string, now: int, staleCutoff: Option<int>)
    | Socket(id: string, token: string, value: V)
    | HttpTake(id: string, token: string, value: V)
    | HttpSend(id: string)
    | GiveUp(id: string)
    | CleanUp(id: string)
    | Sweep(sids: seq<string>)

  /** Entries that `gone` selects are dropped with their senders: whoever was blocked on one wakes up. */
  function Drop<V(==)>(b: Book<V>, gone: set<string>): Book<V> {
    b.(entries := b.entries - gone,
       asks := map id | id in b.asks ::
         if id in gone && id in b.entries && b.asks[id].fate == Blocked then b.asks[id].(fate := Closed)
         else b.asks[id])
  }

  /** A value is sent on the waiter's channel; it arrives if the waiter still listens. */
  function Send<V(==)>(b: Book<V>, d: Delivery<V>): Book<V> {
    if d.id in b.asks && b.asks[d.id].fate == Blocked
    then b.(asks := b.asks[d.id := b.asks[d.id].(fate := Answered(d.value))], delivered := b.delivered + multiset{d})
    else b
  }

  /** The waiter's sender is dropped unused. */
  function HangUp<V(==)>(b: Book<V>, id: string): Book<V> {
    if id in b.asks && b.asks[id].fate == Blocked then b.(asks := b.asks[id := b.asks[id].(fate := Closed)]) else b
  }

  predicate Enabled<V(==)>(b: Book<V>, step: Step<V>) {
    match step
    case Insert(id, _, _, _, _) => id != "" && id !in b.asks
    case HttpSend(id) => id in b.flights
    case GiveUp(id) => id in b.asks && b.asks[id].fate == Blocked
    case CleanUp(id) => id in b.asks && (b.asks[id].fate == GaveUp || b.asks[id].fate == Closed)
    case _ => true
  }

  function Apply<V(==)>(b: Book<V>, step: Step<V>): Book<V>
    requires Enabled(b, step)
  {
    match step
    case Insert(id, token, session, now, cutoff) =>
      var kept := if cutoff.None? then b else Drop(b, Stale(b, cutoff.value));
      kept.(entries := kept.entries[id := Entry(token, session, now)],
            asks := kept.asks[id := Ask(token, session, Blocked)])
    case Socket(id, token, value) =>
      if id == "" || id !in b.entries then b
      else
        var taken := b.(entries := b.entries - {id});
        if b.entries[id].token == token then Send(taken, Delivery(id, token, value)) else HangUp(taken, id)
    case HttpTake(id, token, value) =>
      if id !in b.entries then b
      else b.(entries := b.entries - {id}, flights := b.flights[id := Flight(b.entries[id].token, token, value)])
    case HttpSend(id) =>
      var f, landed := b.flights[id], b.(flights := b.flights - {id});
      if f.own == f.given then Send(landed, Delivery(id, f.given, f.value)) else HangUp(landed, id)
    case GiveUp(id) => b.(asks := b.asks[id := b.asks[id].(fate := GaveUp)])
    case CleanUp(id) => Drop(b, {id})
    case Sweep(sids) => Drop(b, OfSessions(b, sids))
  }

  function Stale<V(==)>(b: Book<V>, cutoff: int): set<string> {
    set id | id in b.entries && b.entries[id].createdAt <= cutoff
  }

  function OfSessions<V(==)>(b: Book<V>, sids: seq<string>): set<string> {
    set id | id in b.entries && b.entries[id].session in sids
  }

  // ── The tables as the program keeps them ──────────────────────

  class PendingTable<V(==)> {
    var book: Book<V>

    constructor ()
      ensures book == Book(map[], map[], map[], multiset{})
    {
      book := Book(map[], map[], map[], multiset{});
    }

    /** `ask_user` (no cutoff) and `request_confirmation`, which first prunes entries past the cutoff. */
    method Add(id: string, token: string, session: string, now: int, staleCutoff: Option<int>)
      requires Enabled(book, Insert(id, token, session, now, staleCutoff))
      modifies this
      ensures book == Apply(old(book), Insert(id, token, session, now, staleCutoff))
    {
      if staleCutoff.Some? {
        book := Drop(book, set i | i in book.entries && book.entries[i].createdAt <= staleCutoff.value);
      }
      book := book.(entries := book.entries[id := Entry(token, session, now)],
                    asks := book.asks[id := Ask(token, session, Blocked)]);
    }

    /** The locked part of `handle_confirm` and `handle_answer`: the entry goes whatever the token says. */
    method TakeForHttp(id: string, token: string, value: V) returns (pending: Option<Entry>)
      modifies this
      ensures book == Apply(old(book), HttpTake(id, token, value))
      ensures pending == if id in old(book).entries then Some(old(book).entries[id]) else None
    {
      if id !in book.entries { return None; }
      pending := Some(book.entries[id]);
      book := book.(entries := book.entries - {id},
                    flights := book.flights[id := Flight(pending.value.token, token, value)]);
    }

    /** Their other part, after the lock is released: compare, send or drop the sender, and reply. */
    method ReplyToHttp(id: string, pending: Option<Entry>, token: string, value: V) returns (reply: Reply)
      requires pending.Some? ==> id in book.flights && book.flights[id] == Flight(pending.value.token, token, value)
      modifies this
      ensures book == if pending.Some? then Apply(old(book), HttpSend(id)) else old(book)
      ensures reply == if pending.None? then NotFound
                       else if pending.value.token == token then Resolved else TokenMismatch
    {
      if pending.None? { return NotFound; }
      var listening := id in book.asks && book.asks[id].fate == Blocked;
      book := book.(flights := book.flights - {id});
      if pending.value.token == token {
        if listening {
          book := book.(asks := book.asks[id := book.asks[id].(fate := Answered(value))],
                        delivered := book.delivered + multiset{Delivery(id, token, value)});
        }
        reply := Resolved;
      } else {
        if listening { book := book.(asks := book.asks[id := book.asks[id].(fate := Closed)]); }
        reply := TokenMismatch;
      }
    }

    /** The socket's "confirm" and "answer" messages, in one locked step; an empty id is skipped without a reply. */
    method HandleSocket(id: string, token: string, value: V) returns (resolved: Option<bool>)
      modifies this
      ensures book == Apply(old(book), Socket(id, token, value))
      ensures resolved == if id == "" then None
                          else Some(id in old(book).entries && old(book).entries[id].token == token)
    {
      if id == "" { return None; }
      if id in book.entries {
        var p := book.entries[id];
        var listening := id in book.asks && book.asks[id].fate == Blocked;
        book := book.(entries := book.entries - {id});
        if p.token == token {
          if listening {
            book := book.(asks := book.asks[id := book.asks[id].(fate := Answered(value))],
                          delivered := book.delivered + multiset{Delivery(id, token, value)});
          }
          resolved := Some(true);
        } else {
          if listening { book := book.(asks := book.asks[id := book.asks[id].(fate := Closed)]); }
          resolved := Some(false);
        }
      } else {
        resolved := Some(false);
      }
    }

    method Retain(sids: seq<string>) returns (removed: nat)
      modifies this
      ensures book == Apply(old(book), Sweep(sids))
      ensures removed == |old(book.entries)| - |book.entries|
    {
      var gone := set i | i in book.entries && book.entries[i].session in sids;
      DropShrinks(book, gone);
      removed := |book.entries|;
      book := Drop(book, gone);
      removed := removed - |book.entries|;
    }
  }

  /** The session tables a disconnect sweeps, and the steer queues, which it leaves for the next run. */
  class SessionBus {
    const questions: PendingTable<string>
    const confirmations: PendingTable<bool>
    var modes: map<string, string>
    var approvals: map<string, set<string>>
    var criteria: map<string, seq<string>>
    var checklists: map<string, bool>
    var steerQueues: map<string, seq<string>>

    constructor (q: PendingTable<string>, c: PendingTable<bool>)
      ensures questions == q && confirmations == c
    {
      questions, confirmations := q, c;
      modes, approvals, criteria, checklists, steerQueues := map[], map[], map[], map[], map[];
    }

    /** `sweep_pending_for_sessions`. */
    method SweepPendingForSessions(sids: seq<string>)
      requires questions as object != confirmations
      modifies this, questions, confirmations
      ensures questions.book == Apply(old(questions.book), Sweep(sids))
      ensures confirmations.book == Apply(old(confirmations.book), Sweep(sids))
      ensures modes == old(modes) - SetOf(sids)
      ensures approvals == old(approvals) - SetOf(sids)
      ensures criteria == old(criteria) - SetOf(sids)
      ensures checklists == old(checklists) - SetOf(sids)
      ensures steerQueues == old(steerQueues)
    {
      hide Apply; hide SetOf;
      NoneOf<string>();
      if sids == [] {
        SweepOfNothing(questions.book);
        SweepOfNothing(confirmations.book);
        return;
      }
      var removedQuestions := questions.Retain(sids);
      var removedConfirmations := confirmations.Retain(sids);
      modes := modes - SetOf(sids);
      SweepGrants(sids);
    }

    /** The loop over the swept sessions: their approvals, criteria and checklist buckets go. */
    method SweepGrants(sids: seq<string>)
      modifies `approvals, `criteria, `checklists
      ensures approvals == old(approvals) - SetOf(sids)
      ensures criteria == old(criteria) - SetOf(sids)
      ensures checklists == old(checklists) - SetOf(sids)
    {
      hide SetOf;
      NoneOf<string>();
      for i := 0 to |sids|
        invariant approvals == old(approvals) - SetOf(sids[..i])
        invariant criteria == old(criteria) - SetOf(sids[..i])
        invariant checklists == old(checklists) - SetOf(sids[..i])
      {
        SetOfPrefix(sids, i);
        approvals := approvals - {sids[i]};
        criteria := criteria - {sids[i]};
        checklists := checklists - {sids[i]};
      }
      assert sids[..|sids|] == sids;
    }
  }

  lemma SweepOfNothing<V>(b: Book<V>)
    ensures Apply(b, Sweep([])) == b
  {
    assert OfSessions(b, []) == {};
    assert Drop(b, {}).entries == b.entries && Drop(b, {}).asks == b.asks;
  }

  lemma DropShrinks<V>(b: Book<V>, gone: set<string>)
    ensures |Drop(b, gone).entries| <= |b.entries|
  {
    var kept := Drop(b, gone).entries;
    assert kept.Keys <= b.entries.Keys;
    SubmapSize(kept, b.entries);
  }

  // ── What every run of the tables keeps ────────────────────────

  /** A waiter whose sender is out: it is blocked or has given up. */
  predicate Open<V(==)>(b: Book<V>, id: string) {
    id in b.asks && (b.asks[id].fate == Blocked || b.asks[id].fate == GaveUp)
  }

  /** Whoever is blocked has its sender in the table or with one handler in flight; a delivery is the one answer of an
      ask, under the asker's own token. */
  ghost predicate Inv<V(!new)>(b: Book<V>) {
    && SendersHeld(b)
    && (forall d | d in b.delivered :: b.delivered[d] == 1 && IsAnswer(b, d))
  }

  ghost predicate SendersHeld<V(!new)>(b: Book<V>) {
    && "" !in b.asks
    && (forall id | id in b.entries ::
          && Open(b, id) && id !in b.flights
          && b.entries[id].token == b.asks[id].token && b.entries[id].session == b.asks[id].session)
    && (forall id | id in b.flights :: Open(b, id) && b.flights[id].own == b.asks[id].token)
    && (forall id | id in b.asks && b.asks[id].fate == Blocked :: id in b.entries || id in b.flights)
  }

  predicate IsAnswer<V(==)>(b: Book<V>, d: Delivery<V>) {
    d.id in b.asks && b.asks[d.id].token == d.token && b.asks[d.id].fate == Answered(d.value)
  }

  lemma EmptyKeepsInv<V(!new)>()
    ensures Inv<V>(Book(map[], map[], map[], multiset{}))
  {
  }

  lemma DropKeepsInv<V(!new)>(b: Book<V>, gone: set<string>)
    requires Inv(b)
    ensures Inv(Drop(b, gone))
  {
    forall d | d in b.delivered ensures IsAnswer(Drop(b, gone), d) {
      assert IsAnswer(b, d);
    }
  }

  lemma InsertKeepsInv<V(!new)>(b: Book<V>, id: string, token: string, session: string, now: int)
    requires Inv(b) && id != "" && id !in b.asks
    ensures Inv(b.(entries := b.entries[id := Entry(token, session, now)],
                   asks := b.asks[id := Ask(token, session, Blocked)]))
  {
  }

  /** A sender that has left the table or a handler is dropped. */
  lemma HangUpKeepsInv<V(!new)>(b: Book<V>, b': Book<V>, id: string)
    requires Inv(b) && (id in b.entries || id in b.flights)
    requires b'.entries == b.entries - {id} && b'.flights == b.flights - {id}
    requires b'.asks == b.asks && b'.delivered == b.delivered
    ensures Inv(HangUp(b', id))
  {
    var after := HangUp(b', id);
    assert after.asks == b.asks[id := after.asks[id]];
    SettleHolds(b, after, id);
    hide SendersHeld;
    forall d | d in b.delivered ensures IsAnswer(after, d) {
      assert IsAnswer(b, d);
    }
  }

  /** Or it is used. */
  lemma SendKeepsInv<V(!new)>(b: Book<V>, b': Book<V>, d: Delivery<V>)
    requires Inv(b) && (d.id in b.entries || d.id in b.flights) && d.token == b.asks[d.id].token
    requires b'.entries == b.entries - {d.id} && b'.flights == b.flights - {d.id}
    requires b'.asks == b.asks && b'.delivered == b.delivered
    ensures Inv(Send(b', d))
  {
    var after := Send(b', d);
    assert after.asks == b.asks[d.id := after.asks[d.id]];
    SettleHolds(b, after, d.id);
    hide SendersHeld;
    forall e | e in b.delivered ensures e != d && IsAnswer(after, e) {
      assert IsAnswer(b, e);
    }
    forall e | e in after.delivered ensures after.delivered[e] == 1 && IsAnswer(after, e) {
      assert e == d || e in b.delivered;
    }
  }

  lemma SettleHolds<V(!new)>(b: Book<V>, after: Book<V>, id: string)
    requires SendersHeld(b) && (id in b.entries || id in b.flights)
    requires after.entries == b.entries - {id} && after.flights == b.flights - {id}
    requires id in after.asks && after.asks == b.asks[id := after.asks[id]] && after.asks[id].fate != Blocked
    ensures SendersHeld(after)
  {
  }

  lemma TakeKeepsInv<V(!new)>(b: Book<V>, id: string, token: string, value: V)
    requires Inv(b) && id in b.entries
    ensures Inv(Apply(b, HttpTake(id, token, value)))
  {
  }

  lemma GiveUpKeepsInv<V(!new)>(b: Book<V>, id: string)
    requires Inv(b) && Enabled(b, GiveUp(id))
    ensures Inv(Apply(b, GiveUp(id)))
  {
    GiveUpHolds(b, id);
    hide SendersHeld;
    forall d | d in b.delivered ensures IsAnswer(Apply(b, GiveUp(id)), d) {
      assert IsAnswer(b, d);
    }
  }

  lemma GiveUpHolds<V(!new)>(b: Book<V>, id: string)
    requires SendersHeld(b) && Enabled(b, GiveUp(id))
    ensures SendersHeld(Apply(b, GiveUp(id)))
  {
  }

  lemma StepKeepsInv<V(!new)>(b: Book<V>, step: Step<V>)
    requires Inv(b) && Enabled(b, step)
    ensures Inv(Apply(b, step))
  {
    match step
    case Insert(id, token, session, now, cutoff) =>
      hide Inv;
      var kept := b;
      if cutoff.Some? {
        DropKeepsInv(b, Stale(b, cutoff.value));
        kept := Drop(b, Stale(b, cutoff.value));
      }
      InsertKeepsInv(kept, id, token, session, now);
    case Socket(id, token, value) =>
      if id in b.entries {
        assert id !in b.flights && b.flights - {id} == b.flights && b.entries[id].token == b.asks[id].token;
        hide Inv;
        var taken := b.(entries := b.entries - {id});
        HangUpKeepsInv(b, taken, id);
        if token == b.asks[id].token { SendKeepsInv(b, taken, Delivery(id, token, value)); }
      }
    case HttpTake(id, token, value) =>
      if id in b.entries { TakeKeepsInv(b, id, token, value); }
    case HttpSend(id) =>
      var f := b.flights[id];
      assert id !in b.entries && b.entries - {id} == b.entries && f.own == b.asks[id].token;
      hide Inv;
      var landed := b.(flights := b.flights - {id});
      HangUpKeepsInv(b, landed, id);
      if f.own == f.given { SendKeepsInv(b, landed, Delivery(id, f.given, f.value)); }
    case GiveUp(id) => GiveUpKeepsInv(b, id);
    case CleanUp(id) => DropKeepsInv(b, {id});
    case Sweep(sids) => DropKeepsInv(b, OfSessions(b, sids));
  }

  ghost predicate Runs<V(!new)>(b: Book<V>, steps: seq<Step<V>>, end: Book<V>)
    decreases |steps|
  {
    if steps == [] then b == end
    else Enabled(b, steps[0]) && Runs(Apply(b, steps[0]), steps[1..], end)
  }

  /** `d` was sent by a message with its id, token and value. */
  predicate Sends<V(==)>(step: Step<V>, d: Delivery<V>) {
    step == Socket(d.id, d.token, d.value) || step == HttpTake(d.id, d.token, d.value)
  }

  predicate Carries<V(==)>(b: Book<V>, d: Delivery<V>) {
    d.id in b.flights && b.flights[d.id].given == d.token && b.flights[d.id].value == d.value
  }

  lemma StepDelivers<V(!new)>(b: Book<V>, step: Step<V>, d: Delivery<V>)
    requires Enabled(b, step)
    ensures b.delivered <= Apply(b, step).delivered
    ensures d in Apply(b, step).delivered && d !in b.delivered ==> Sends(step, d) || Carries(b, d)
    ensures Carries(Apply(b, step), d) ==> Carries(b, d) || Sends(step, d)
  {
  }

  lemma {:induction false} DeliveriesAreSent<V(!new)>(b: Book<V>, steps: seq<Step<V>>, end: Book<V>, d: Delivery<V>)
    requires Inv(b) && Runs(b, steps, end)
    ensures Inv(end)
    ensures d in end.delivered && d !in b.delivered ==>
              Carries(b, d) || exists k | 0 <= k < |steps| :: Sends(steps[k], d)
    decreases |steps|
  {
    hide Inv; hide Apply; hide Sends; hide Carries;
    if steps != [] {
      var next, rest := Apply(b, steps[0]), steps[1..];
      StepKeepsInv(b, steps[0]);
      StepDelivers(b, steps[0], d);
      DeliveriesAreSent(next, rest, end, d);
      if k :| 0 <= k < |rest| && Sends(rest[k], d) { assert steps[k + 1] == rest[k]; }
    }
  }

  /** In every run, an id is delivered at most once and only by a message of that run with its token, and nobody is
      blocked whose sender is neither in the table nor with a handler in flight. */
  lemma DeliveredOnceUnderOwnToken<V(!new)>(steps: seq<Step<V>>, end: Book<V>)
    requires Runs(Book(map[], map[], map[], multiset{}), steps, end)
    ensures forall d | d in end.delivered ::
      && end.delivered[d] == 1 && d.id in end.asks && end.asks[d.id].token == d.token
      && exists k | 0 <= k < |steps| :: Sends(steps[k], d)
    ensures forall d, e | d in end.delivered && e in end.delivered && d.id == e.id :: d == e
    ensures forall id | id in end.asks && end.asks[id].fate == Blocked :: id in end.entries || id in end.flights
  {
    hide Sends;
    var start: Book<V> := Book(map[], map[], map[], multiset{});
    EmptyKeepsInv<V>();
    forall d | d in end.delivered
      ensures Inv(end) && exists k | 0 <= k < |steps| :: Sends(steps[k], d)
    {
      DeliveriesAreSent(start, steps, end, d);
    }
    forall id | id in end.asks && end.asks[id].fate == Blocked ensures id in end.entries || id in end.flights {
      RunKeepsInv(start, steps, end);
    }
  }

  lemma {:induction false} RunKeepsInv<V(!new)>(b: Book<V>, steps: seq<Step<V>>, end: Book<V>)
    requires Inv(b) && Runs(b, steps, end)
    ensures Inv(end)
    decreases |steps|
  {
    hide Inv; hide Apply;
    if steps != [] {
      StepKeepsInv(b, steps[0]);
      RunKeepsInv(Apply(b, steps[0]), steps[1..], end);
    }
  }

  /** A message for a blocked waiter in the table settles it: the right token answers it, any other wakes it
      empty-handed; no other waiter is touched, and the id is unknown from then on. */
  lemma ReplySettlesTheWaiter<V(!new)>(b: Book<V>, id: string, token: string, value: V)
    requires Inv(b) && id in b.entries && b.asks[id].fate == Blocked
    ensures var after := Apply(b, Socket(id, token, value));
            && after.asks[id].fate == (if token == b.asks[id].token then Answered(value) else Closed)
            && after.entries == b.entries - {id} && after.flights == b.flights
            && (forall other | other in b.asks && other != id :: after.asks[other] == b.asks[other])
            && (forall t, v :: Apply(after, Socket(id, t, v)) == after && Apply(after, HttpTake(id, t, v)) == after)
  {
  }

  /** Whatever happened since it was taken, a sender in flight settles its waiter if that is still blocked. */
  lemma LandingSettlesTheWaiter<V(!new)>(b: Book<V>, id: string)
    requires Inv(b) && id in b.flights
    ensures var after, f := Apply(b, HttpSend(id)), b.flights[id];
            && after.asks[id].fate == (if b.asks[id].fate == GaveUp then GaveUp
                                       else if f.given == b.asks[id].token then Answered(f.value) else Closed)
            && after.entries == b.entries && after.flights == b.flights - {id}
            && (forall other | other in b.asks && other != id :: after.asks[other] == b.asks[other])
  {
    assert Open(b, id) && b.flights[id].own == b.asks[id].token;
    hide Inv;
  }

  /** A sweep removes the entries of the named sessions and no others, and wakes exactly the waiters blocked on them;
      one whose sender is in flight is left to the handler. */
  lemma SweepIsExact<V(!new)>(b: Book<V>, sids: seq<string>)
    requires Inv(b)
    ensures var after := Apply(b, Sweep(sids));
            && (forall id :: id in after.entries <==> id in b.entries && b.entries[id].session !in sids)
            && (forall id | id in after.entries :: after.entries[id] == b.entries[id])
            && after.asks.Keys == b.asks.Keys && after.delivered == b.delivered && after.flights == b.flights
            && (forall id | id in b.asks ::
                  after.asks[id].fate == if b.asks[id].fate == Blocked && b.asks[id].session in sids && id !in b.flights
                                         then Closed else b.asks[id].fate)
  {
  }

  /** A new question or confirmation blocks under its own token, session and time. Every entry created after the cutoff
      stays, with its waiter as it was, and all do if there is no cutoff; those created at or before it go, and whoever
      was blocked on one of them wakes up. */
  lemma InsertIsExact<V(!new)>(b: Book<V>, id: string, token: string, session: string, now: int, cutoff: Option<int>)
    requires id != "" && id !in b.asks && Inv(b)
    ensures var after := Apply(b, Insert(id, token, session, now, cutoff));
            && after.entries.Keys == {id} + set i | i in b.entries
                                              && (cutoff.None? || b.entries[i].createdAt > cutoff.value)
            && after.entries[id] == Entry(token, session, now)
            && (forall i | i in after.entries && i != id :: after.entries[i] == b.entries[i])
            && after.asks.Keys == b.asks.Keys + {id} && after.asks[id] == Ask(token, session, Blocked)
            && (forall i | i in b.asks :: after.asks[i] ==
                  if b.asks[i].fate == Blocked && i in b.entries && i !in after.entries
                  then Ask(b.asks[i].token, b.asks[i].session, Closed) else b.asks[i])
            && after.flights == b.flights && after.delivered == b.delivered
  {
    hide Inv;
    NoStrayEntry(b, id);
    if cutoff.Some? {
      DropIsExact(b, Stale(b, cutoff.value));
      StaleIsOld(b, cutoff.value);
    }
    InsertAdds(b, id, token, session, now, cutoff);
    hide Drop; hide Stale; hide Apply;
  }

  lemma InsertAdds<V(!new)>(b: Book<V>, id: string, token: string, session: string, now: int, cutoff: Option<int>)
    requires id != "" && id !in b.asks
    ensures var kept := if cutoff.None? then b else Drop(b, Stale(b, cutoff.value));
            Apply(b, Insert(id, token, session, now, cutoff)) ==
              Book(kept.entries[id := Entry(token, session, now)], kept.asks[id := Ask(token, session, Blocked)],
                   b.flights, b.delivered)
  {
    hide Drop; hide Stale;
    if cutoff.Some? { DropIsExact(b, Stale(b, cutoff.value)); }
  }

  lemma NoStrayEntry<V(!new)>(b: Book<V>, id: string)
    requires Inv(b) && id !in b.asks
    ensures id !in b.entries
  {
  }

  lemma StaleIsOld<V(!new)>(b: Book<V>, cutoff: int)
    ensures forall i | i in b.entries :: i in Stale(b, cutoff) <==> !(b.entries[i].createdAt > cutoff)
  {
  }

  lemma DropIsExact<V(!new)>(b: Book<V>, gone: set<string>)
    ensures var after := Drop(b, gone);
            && (forall i :: i in after.entries <==> i in b.entries && i !in gone)
            && (forall i | i in after.entries :: after.entries[i] == b.entries[i])
            && after.asks.Keys == b.asks.Keys && after.flights == b.flights && after.delivered == b.delivered
            && forall i | i in b.asks ::
                 after.asks[i] == if b.asks[i].fate == Blocked && i in b.entries && i in gone
                                  then Ask(b.asks[i].token, b.asks[i].session, Closed) else b.asks[i]
  {
  }

  /** A waiter that has left takes its own entry along, if it is still there, and changes nothing else. */
  lemma CleanUpIsExact<V(!new)>(b: Book<V>, id: string)
    requires Inv(b) && id in b.asks && (b.asks[id].fate == GaveUp || b.asks[id].fate == Closed)
    ensures var after := Apply(b, CleanUp(id));
            && id !in after.entries && (forall i | i != id :: i in after.entries <==> i in b.entries)
            && (forall i | i in after.entries :: after.entries[i] == b.entries[i])
            && after.asks == b.asks && after.flights == b.flights && after.delivered == b.delivered
  {
    DropIsExact(b, {id});
    assert forall i | i in b.asks :: Drop(b, {id}).asks[i] == b.asks[i];
    hide Drop;
  }

  // ── HTTP in two steps is the socket in one ────────────────────

  /** The waiter of `id` gives up before the handler in flight sends. */
  predicate GivesUpFirst<V(==)>(steps: seq<Step<V>>, id: string)
    decreases |steps|
  {
    steps != [] && (steps[0] == GiveUp(id) || (steps[0] != HttpSend(id) && GivesUpFirst(steps[1..], id)))
  }

  function Quitters<V(==)>(b: Book<V>, steps: seq<Step<V>>): set<string> {
    set id | id in b.flights && GivesUpFirst(steps, id)
  }

  /** What will have become of a waiter once all handlers in flight have sent. */
  function Landed<V(==)>(b: Book<V>, quitters: set<string>, id: string): Ask<V>
    requires id in b.asks
  {
    var ask := b.asks[id];
    if id !in b.flights || ask.fate != Blocked then ask
    else if id in quitters then ask.(fate := GaveUp)
    else if b.flights[id].own == b.flights[id].given then ask.(fate := Answered(b.flights[id].value))
    else ask.(fate := Closed)
  }

  /** The values that those handlers will have delivered. */
  function Arriving<V(==)>(b: Book<V>, quitters: set<string>): set<Delivery<V>> {
    set id | id in b.flights && id in b.asks && b.asks[id].fate == Blocked && id !in quitters
             && b.flights[id].own == b.flights[id].given :: Delivery(id, b.flights[id].given, b.flights[id].value)
  }

  /** The tables as if nothing were in flight. */
  function Land<V(==)>(b: Book<V>, quitters: set<string>): Book<V> {
    Book(b.entries, map id | id in b.asks :: Landed(b, quitters, id), map[],
         b.delivered + multiset(Arriving(b, quitters)))
  }

  /** The messages as if all had come over the socket. */
  function Merged<V(==)>(steps: seq<Step<V>>): seq<Step<V>> {
    if steps == [] then []
    else
      (match steps[0]
       case HttpTake(id, token, value) => [Socket(id, token, value)]
       case HttpSend(_) => []
       case _ => [steps[0]]) + Merged(steps[1..])
  }

  /** All steps but those in which a waiter gives up, in order. */
  function NoQuits<V>(steps: seq<Step<V>>): seq<Step<V>> {
    if steps == [] then [] else (if steps[0].GiveUp? then [] else [steps[0]]) + NoQuits(steps[1..])
  }

  lemma {:induction false} NoQuitsConcat<V>(xs: seq<Step<V>>, ys: seq<Step<V>>)
    ensures NoQuits(xs + ys) == NoQuits(xs) + NoQuits(ys)
  {
    if xs == [] {
      assert xs + ys == ys;
    } else {
      assert (xs + ys)[1..] == xs[1..] + ys;
      NoQuitsConcat(xs[1..], ys);
    }
  }

  /** The steps `whole` are those of `merged` in order, but for steps in which waiters give up: those of `q` had been
      taken forward before and are missing, those of `q'` are taken forward and are there. */
  ghost predicate SameMessages<V>(whole: seq<Step<V>>, merged: seq<Step<V>>, q: set<string>, q': set<string>) {
    && multiset(whole) + Quits(q) == multiset(merged) + Quits(q')
    && NoQuits(whole) == NoQuits(merged)
    && (forall step | step in whole :: !step.HttpTake? && !step.HttpSend?)
  }

  lemma NoQuitsOne<V>(step: Step<V>)
    ensures NoQuits([step]) == if step.GiveUp? then [] else [step]
  {
    assert [step][1..] == [];
  }

  function Quits<V(==)>(ids: set<string>): multiset<Step<V>> {
    multiset(set id | id in ids :: GiveUp(id))
  }

  /** A settled waiter stays settled. */
  lemma {:induction false} NoLateQuit<V(!new)>(b: Book<V>, steps: seq<Step<V>>, end: Book<V>, id: string)
    requires Runs(b, steps, end) && id in b.asks && b.asks[id].fate != Blocked
    ensures !GivesUpFirst(steps, id)
    decreases |steps|
  {
    if steps != [] { NoLateQuit(Apply(b, steps[0]), steps[1..], end, id); }
  }

  /** No sender is in two places, and each has its waiter. */
  predicate Apart<V>(b: Book<V>) {
    forall id | id in b.flights :: id !in b.entries && id in b.asks
  }

  lemma ArrivingSame<V>(b: Book<V>, b': Book<V>, quitters: set<string>)
    requires Apart(b) && b'.flights == b.flights
    requires forall id | id in b.flights :: id in b'.asks && b'.asks[id] == b.asks[id]
    ensures Arriving(b', quitters) == Arriving(b, quitters)
  {
  }

  lemma LandDrop<V>(b: Book<V>, gone: set<string>, quitters: set<string>)
    requires Apart(b)
    ensures Land(Drop(b, gone), quitters) == Drop(Land(b, quitters), gone) && Apart(Drop(b, gone))
  {
    var b' := Drop(b, gone);
    ArrivingSame(b, b', quitters);
    assert Land(b', quitters).asks == Drop(Land(b, quitters), gone).asks;
  }

  lemma LandAsk<V>(b: Book<V>, b': Book<V>, id: string, ask: Ask<V>, quitters: set<string>)
    requires Apart(b) && id !in b.flights && b'.flights == b.flights && b'.asks == b.asks[id := ask]
    ensures Land(b', quitters).asks == Land(b, quitters).asks[id := ask]
    ensures Arriving(b', quitters) == Arriving(b, quitters)
  {
    ArrivingSame(b, b', quitters);
  }

  /** Steps other than those of HTTP handlers, and of a waiter whose sender is in flight, do to the landed tables
      what they do to the tables. */
  lemma LandCommutes<V>(b: Book<V>, step: Step<V>, quitters: set<string>)
    requires Apart(b) && Enabled(b, step) && !step.HttpTake? && !step.HttpSend?
    requires step.Insert? || step.GiveUp? ==> step.id !in b.flights
    ensures Enabled(Land(b, quitters), step)
    ensures Apply(Land(b, quitters), step) == Land(Apply(b, step), quitters)
    ensures Apply(b, step).flights == b.flights
  {
    hide Drop; hide Arriving;
    var l, b' := Land(b, quitters), Apply(b, step);
    match step
    case Insert(id, token, session, now, cutoff) =>
      var kept := b;
      if cutoff.Some? {
        LandDrop(b, Stale(b, cutoff.value), quitters);
        DropFlights(b, Stale(b, cutoff.value));
        kept := Drop(b, Stale(b, cutoff.value));
      }
      LandAsk(kept, b', id, Ask(token, session, Blocked), quitters);
    case Socket(id, token, value) =>
      if id != "" && id in b.entries {
        var taken := b.(entries := b.entries - {id});
        assert Land(taken, quitters) == l.(entries := b.entries - {id}) by {
          ArrivingSame(b, taken, quitters);
        }
        LandSettles(taken, b', Delivery(id, token, value), quitters);
      }
    case GiveUp(id) => LandAsk(b, b', id, b.asks[id].(fate := GaveUp), quitters);
    case CleanUp(id) =>
      LandDrop(b, {id}, quitters);
      DropFlights(b, {id});
    case Sweep(sids) =>
      LandDrop(b, OfSessions(b, sids), quitters);
      DropFlights(b, OfSessions(b, sids));
  }

  lemma DropFlights<V>(b: Book<V>, gone: set<string>)
    ensures Drop(b, gone).flights == b.flights && Drop(b, gone).asks.Keys == b.asks.Keys
    ensures Drop(b, gone).delivered == b.delivered && Drop(b, gone).entries == b.entries - gone
  {
  }

  lemma LandSettles<V>(b: Book<V>, b': Book<V>, d: Delivery<V>, quitters: set<string>)
    requires Apart(b) && d.id !in b.flights && (b' == Send(b, d) || b' == HangUp(b, d.id))
    ensures b' == Send(b, d) ==> Land(b', quitters) == Send(Land(b, quitters), d)
    ensures b' == HangUp(b, d.id) ==> Land(b', quitters) == HangUp(Land(b, quitters), d.id)
    ensures b'.flights == b.flights
  {
    hide Arriving;
    if b' != b { LandAsk(b, b', d.id, b'.asks[d.id], quitters); }
  }

  lemma QuittersOfRest<V>(b: Book<V>, steps: seq<Step<V>>)
    requires steps != [] && Enabled(b, steps[0])
    ensures var next, q, q' := Apply(b, steps[0]), Quitters(b, steps), Quitters(Apply(b, steps[0]), steps[1..]);
      var step := steps[0];
      if step.HttpTake? && step.id in b.entries && step.id !in b.flights then q == q' - {step.id}
      else if step.HttpSend? then q' == q && step.id !in q
      else if step.GiveUp? then q' - {step.id} == q - {step.id} && (step.id in q <==> step.id in b.flights)
      else q' == q
  {
    if !steps[0].HttpTake? && !steps[0].HttpSend? { StepFlights(b, steps[0]); }
  }

  lemma StepFlights<V>(b: Book<V>, step: Step<V>)
    requires Enabled(b, step) && !step.HttpTake? && !step.HttpSend?
    ensures Apply(b, step).flights == b.flights
  {
  }

  /** One more sender in flight: it lands as if it were used or dropped at once. */
  lemma FlightLands<V>(b: Book<V>, id: string, f: Flight<V>, q: set<string>)
    requires id !in b.flights && id in b.asks && id !in q
    ensures Land(b.(flights := b.flights[id := f]), q)
         == if f.own == f.given then Send(Land(b, q), Delivery(id, f.given, f.value)) else HangUp(Land(b, q), id)
  {
    var l, l' := Land(b, q), Land(b.(flights := b.flights[id := f]), q);
    FlightLandsParts(b, id, f, q);
    hide Land;
    if b.asks[id].fate != Blocked { assert l'.asks == l.asks; }
  }

  lemma FlightLandsParts<V>(b: Book<V>, id: string, f: Flight<V>, q: set<string>)
    requires id !in b.flights && id in b.asks && id !in q
    ensures var b', l := b.(flights := b.flights[id := f]), Land(b, q);
            var l', arrives := Land(b', q), b.asks[id].fate == Blocked && f.own == f.given;
            && l'.entries == l.entries && l'.flights == l.flights
            && id in l.asks && l.asks[id] == b.asks[id] && l'.asks == l.asks[id := Landed(b', q, id)]
            && l'.delivered == l.delivered + if arrives then multiset{Delivery(id, f.given, f.value)} else multiset{}
  {
    MoreArrive(b, id, f, q);
    AddToSet(Arriving(b, q), Delivery(id, f.given, f.value));
    FlightAsks(b, id, f, q);
    hide Arriving; hide Landed;
  }

  lemma FlightAsks<V>(b: Book<V>, id: string, f: Flight<V>, q: set<string>)
    requires id !in b.flights && id in b.asks
    ensures var b', l := b.(flights := b.flights[id := f]), Land(b, q);
            id in l.asks && l.asks[id] == b.asks[id] && Land(b', q).asks == l.asks[id := Landed(b', q, id)]
  {
    hide Arriving;
    LandedAsks(b, b.(flights := b.flights[id := f]), q, id);
  }

  lemma LandedAsks<V>(b: Book<V>, b': Book<V>, q: set<string>, id: string)
    requires b'.asks == b.asks && id in b.asks
    requires forall x | x in b.asks && x != id :: Landed(b', q, x) == Landed(b, q, x)
    ensures Land(b', q).asks == Land(b, q).asks[id := Landed(b', q, id)]
  {
    hide Landed;
  }

  lemma AddToSet<T>(s: set<T>, x: T)
    requires x !in s
    ensures multiset(s + {x}) == multiset(s) + multiset{x}
  {
  }

  lemma MoreArrive<V>(b: Book<V>, id: string, f: Flight<V>, q: set<string>)
    requires id !in b.flights && id in b.asks && id !in q
    ensures var b', d := b.(flights := b.flights[id := f]), Delivery(id, f.given, f.value);
            && d !in Arriving(b, q)
            && Arriving(b', q) == Arriving(b, q) + if b.asks[id].fate == Blocked && f.own == f.given then {d} else {}
  {
    var b', d := b.(flights := b.flights[id := f]), Delivery(id, f.given, f.value);
    forall e | e in Arriving(b, q) ensures e in Arriving(b', q) {
      assert e.id in b.flights && b'.flights[e.id] == b.flights[e.id];
    }
    forall e | e in Arriving(b', q) ensures e in Arriving(b, q) || e.id == id {
      assert e.id != id ==> e.id in b.flights && b'.flights[e.id] == b.flights[e.id];
    }
  }

  /** If its waiter gives up first, it lands without effect. */
  lemma FlightQuits<V>(b: Book<V>, id: string, f: Flight<V>, q: set<string>)
    requires id !in b.flights && id in b.asks && b.asks[id].fate == Blocked
    ensures Land(b.(flights := b.flights[id := f]), q + {id})
         == Land(b, q).(asks := Land(b, q).asks[id := b.asks[id].(fate := GaveUp)])
  {
    var b' := b.(flights := b.flights[id := f]);
    assert Arriving(b', q + {id}) == Arriving(b, q);
    assert Land(b', q + {id}).asks == Land(b, q).asks[id := b.asks[id].(fate := GaveUp)];
  }

  lemma LandWithout<V>(b: Book<V>, id: string, q: set<string>)
    ensures Land(b.(entries := b.entries - {id}), q) == Land(b, q).(entries := b.entries - {id})
    ensures Land(b, q).entries == b.entries && Land(b, q).flights == map[]
    ensures id in b.asks && id !in b.flights ==> id in Land(b, q).asks && Land(b, q).asks[id] == b.asks[id]
  {
    assert Land(b.(entries := b.entries - {id}), q).asks == Land(b, q).asks;
  }

  /** Taking an entry whose waiter does not give up on it: the step of the socket, now. */
  lemma LandTake<V(!new)>(b: Book<V>, id: string, token: string, value: V, q: set<string>)
    requires Inv(b) && id in b.entries && id !in q
    ensures Apply(Land(b, q), Socket(id, token, value)) == Land(Apply(b, HttpTake(id, token, value)), q)
  {
    TakenOnce(b, id);
    hide Inv; hide Land;
    LandWithout(b, id, q);
    FlightLands(b.(entries := b.entries - {id}), id, Flight(b.entries[id].token, token, value), q);
  }

  /** Taking an entry whose waiter gives up on it later: it might as well have given up before. */
  lemma LandTakeQuit<V(!new)>(b: Book<V>, id: string, token: string, value: V, q: set<string>)
    requires Inv(b) && id in b.entries && b.asks[id].fate == Blocked && id !in q
    ensures Enabled(Land(b, q), GiveUp(id))
    ensures Apply(Apply(Land(b, q), GiveUp(id)), Socket(id, token, value))
         == Land(Apply(b, HttpTake(id, token, value)), q + {id})
  {
    TakenOnce(b, id);
    hide Inv; hide Land;
    LandWithout(b, id, q);
    FlightQuits(b.(entries := b.entries - {id}), id, Flight(b.entries[id].token, token, value), q);
  }

  /** Landing has already happened. */
  lemma LandSend<V(!new)>(b: Book<V>, id: string, q: set<string>)
    requires Inv(b) && id in b.flights && id !in q
    ensures Land(b, q) == Land(Apply(b, HttpSend(id)), q)
  {
    assert id in b.asks && Apart(b);
    hide Inv; hide Land;
    var f, c := b.flights[id], b.(flights := b.flights - {id});
    assert b == c.(flights := c.flights[id := f]);
    FlightLands(c, id, f, q);
    LandSettles(c, Apply(b, HttpSend(id)), Delivery(id, f.given, f.value), q);
  }

  /** So has the giving up of a waiter whose sender is in flight. */
  lemma LandQuit<V(!new)>(b: Book<V>, id: string, q: set<string>)
    requires Inv(b) && id in b.flights && Enabled(b, GiveUp(id)) && id in q
    ensures Land(b, q) == Land(Apply(b, GiveUp(id)), q - {id})
  {
    var b' := Apply(b, GiveUp(id));
    assert id in b.asks && b' == b.(asks := b.asks[id := b.asks[id].(fate := GaveUp)]);
    hide Inv; hide Apply;
    assert Arriving(b', q - {id}) == Arriving(b, q);
    hide Arriving;
    forall x | x in b.asks ensures Landed(b', q - {id}, x) == Landed(b, q, x) {}
    hide Landed;
    assert Land(b, q).asks == Land(b', q - {id}).asks;
  }

  lemma QuitsOne<V>(q: set<string>, id: string)
    requires id !in q
    ensures Quits<V>(q + {id}) == Quits<V>(q) + multiset{GiveUp(id)}
  {
    var quits: set<Step<V>> := set i | i in q :: GiveUp(i);
    assert (set i | i in q + {id} :: GiveUp(i)) == quits + {GiveUp(id)};
  }

  lemma LandTaking<V(!new)>(b: Book<V>, steps: seq<Step<V>>, end: Book<V>) returns (whole: seq<Step<V>>)
    requires Inv(b) && Runs(b, steps, end) && steps != [] && steps[0].HttpTake?
    ensures var next, q, q' := Apply(b, steps[0]), Quitters(b, steps), Quitters(Apply(b, steps[0]), steps[1..]);
            && Runs(Land(b, q), whole, Land(next, q'))
            && SameMessages(whole, Merged([steps[0]]), q, q')
  {
    var id, token, value := steps[0].id, steps[0].token, steps[0].value;
    var next, q, q' := Apply(b, steps[0]), Quitters(b, steps), Quitters(Apply(b, steps[0]), steps[1..]);
    TakingQuitters(b, steps, end);
    MergedOne(steps[0]);
    hide Inv; hide Quitters; hide Land; hide Runs; hide Merged; hide SameMessages;
    assert steps[0] == HttpTake(id, token, value);
    if id in b.entries && id in q' {
      LandTakingQuit(b, id, token, value, q);
      QuitMessages(id, token, value, q);
      whole := [GiveUp(id), Socket(id, token, value)];
    } else {
      LandTakingNow(b, id, token, value, q);
      SocketMessages(id, token, value, q);
      whole := [Socket(id, token, value)];
    }
  }

  lemma SocketMessages<V>(id: string, token: string, value: V, q: set<string>)
    ensures SameMessages([Socket(id, token, value)], [Socket(id, token, value)], q, q)
  {
  }

  lemma QuitMessages<V>(id: string, token: string, value: V, q: set<string>)
    requires id !in q
    ensures SameMessages([GiveUp(id), Socket(id, token, value)], [Socket(id, token, value)], q, q + {id})
  {
    QuitsOne<V>(q, id);
    hide Quits;
    var socket: seq<Step<V>> := [Socket(id, token, value)];
    assert [GiveUp(id), Socket(id, token, value)] == [GiveUp(id)] + socket;
    NoQuitsConcat([GiveUp(id)], socket);
    NoQuitsOne<V>(GiveUp(id));
  }

  lemma LandTakingNow<V(!new)>(b: Book<V>, id: string, token: string, value: V, q: set<string>)
    requires Inv(b) && (id in b.entries ==> id !in q)
    ensures Runs(Land(b, q), [Socket(id, token, value)], Land(Apply(b, HttpTake(id, token, value)), q))
  {
    hide Inv; hide Land;
    if id in b.entries { LandTake(b, id, token, value, q); } else { LandMissing(b, id, token, value, q); }
    hide Apply;
    RunsOne(Land(b, q), Socket(id, token, value));
  }

  lemma LandTakingQuit<V(!new)>(b: Book<V>, id: string, token: string, value: V, q: set<string>)
    requires Inv(b) && id in b.entries && b.asks[id].fate == Blocked && id !in q
    ensures Runs(Land(b, q), [GiveUp(id), Socket(id, token, value)],
                 Land(Apply(b, HttpTake(id, token, value)), q + {id}))
  {
    LandTakeQuit(b, id, token, value, q);
    hide Inv; hide Land; hide Apply; hide Enabled;
    var l := Land(b, q);
    RunsOne(Apply(l, GiveUp(id)), Socket(id, token, value));
    assert [GiveUp(id), Socket(id, token, value)][1..] == [Socket(id, token, value)];
  }

  /** Which waiters will give up, before and after an entry is taken. */
  lemma TakingQuitters<V(!new)>(b: Book<V>, steps: seq<Step<V>>, end: Book<V>)
    requires Inv(b) && Runs(b, steps, end) && steps != [] && steps[0].HttpTake?
    ensures var id, q, q' := steps[0].id, Quitters(b, steps), Quitters(Apply(b, steps[0]), steps[1..]);
            && (id !in b.entries ==> q' == q)
            && (id in b.entries ==> id !in q && (q' == q || (q' == q + {id} && b.asks[id].fate == Blocked)))
  {
    QuittersOfRest(b, steps);
    if steps[0].id in b.entries && b.asks[steps[0].id].fate != Blocked { NoQuitterLater(b, steps, end); }
  }

  lemma LandMissing<V>(b: Book<V>, id: string, token: string, value: V, q: set<string>)
    requires id !in b.entries
    ensures Apply(b, HttpTake(id, token, value)) == b && Apply(Land(b, q), Socket(id, token, value)) == Land(b, q)
  {
    LandWithout(b, id, q);
  }

  /** A waiter that no longer blocks does not give up on the handler that takes its entry. */
  lemma NoQuitterLater<V(!new)>(b: Book<V>, steps: seq<Step<V>>, end: Book<V>)
    requires Inv(b) && Runs(b, steps, end) && steps != [] && steps[0].HttpTake? && steps[0].id in b.entries
    requires b.asks[steps[0].id].fate != Blocked
    ensures steps[0].id !in Quitters(Apply(b, steps[0]), steps[1..])
  {
    NoLateQuit(Apply(b, steps[0]), steps[1..], end, steps[0].id);
  }

  lemma TakenOnce<V(!new)>(b: Book<V>, id: string)
    requires Inv(b) && id in b.entries
    ensures id !in b.flights && id in b.asks && id != "" && forall steps :: id !in Quitters(b, steps)
  {
  }

  lemma RunsOne<V(!new)>(b: Book<V>, step: Step<V>)
    requires Enabled(b, step)
    ensures Runs(b, [step], Apply(b, step))
  {
    assert [step][1..] == [];
  }

  lemma {:induction false} RunsConcat<V(!new)>(a: Book<V>, xs: seq<Step<V>>, b: Book<V>, ys: seq<Step<V>>, c: Book<V>)
    requires Runs(a, xs, b) && Runs(b, ys, c)
    ensures Runs(a, xs + ys, c)
    decreases |xs|
  {
    hide Apply; hide Enabled;
    if xs == [] {
      assert xs + ys == ys;
    } else {
      assert (xs + ys)[1..] == xs[1..] + ys;
      RunsConcat(Apply(a, xs[0]), xs[1..], b, ys, c);
    }
  }

  lemma MergedOne<V>(step: Step<V>)
    ensures Merged([step]) == if step.HttpTake? then [Socket(step.id, step.token, step.value)]
                              else if step.HttpSend? then [] else [step]
  {
    assert [step][1..] == [];
    assert Merged<V>([]) == [];
  }

  lemma LandOther<V(!new)>(b: Book<V>, step: Step<V>, q: set<string>)
    requires Inv(b) && Enabled(b, step) && !step.HttpTake? && !step.HttpSend?
    requires step.GiveUp? ==> step.id !in b.flights
    ensures Runs(Land(b, q), [step], Land(Apply(b, step), q))
  {
    assert Apart(b);
    LandCommutes(b, step, q);
    hide Land; hide Apply; hide Enabled;
    RunsOne(Land(b, q), step);
  }

  /** What one step does to the landed tables, in steps of the socket. */
  lemma LandStep<V(!new)>(b: Book<V>, steps: seq<Step<V>>, end: Book<V>) returns (whole: seq<Step<V>>)
    requires Inv(b) && Runs(b, steps, end) && steps != []
    ensures var next, q, q' := Apply(b, steps[0]), Quitters(b, steps), Quitters(Apply(b, steps[0]), steps[1..]);
            && Runs(Land(b, q), whole, Land(next, q'))
            && SameMessages(whole, Merged([steps[0]]), q, q')
  {
    hide Inv; hide Land; hide Quitters; hide Quits;
    var next, q, q' := Apply(b, steps[0]), Quitters(b, steps), Quitters(Apply(b, steps[0]), steps[1..]);
    QuittersOfRest(b, steps);
    MergedOne(steps[0]);
    match steps[0]
    case HttpTake(_, _, _) => whole := LandTaking(b, steps, end);
    case HttpSend(id) =>
      LandSend(b, id, q);
      whole := [];
    case GiveUp(_) => whole := LandGivingUp(b, steps, end);
    case _ =>
      LandOther(b, steps[0], q);
      whole := [steps[0]];
  }

  lemma LandGivingUp<V(!new)>(b: Book<V>, steps: seq<Step<V>>, end: Book<V>) returns (whole: seq<Step<V>>)
    requires Inv(b) && Runs(b, steps, end) && steps != [] && steps[0].GiveUp?
    ensures var next, q, q' := Apply(b, steps[0]), Quitters(b, steps), Quitters(Apply(b, steps[0]), steps[1..]);
            && Runs(Land(b, q), whole, Land(next, q'))
            && SameMessages(whole, Merged([steps[0]]), q, q')
  {
    QuittingNow(b, steps, end);
    var id, q := steps[0].id, Quitters(b, steps);
    assert steps[0] == GiveUp(id);
    MergedOne(steps[0]);
    hide Quitters; hide Inv; hide Land; hide Apply; hide Enabled; hide SameMessages; hide Merged;
    if id in b.flights {
      LandQuitting(b, id, q);
      LateQuitMessages<V>(id, q);
      whole := [];
    } else {
      LandOther(b, steps[0], q);
      OneMessage(steps[0], q);
      assert q - {id} == q;
      whole := [steps[0]];
    }
  }

  lemma OneMessage<V>(step: Step<V>, q: set<string>)
    requires !step.HttpTake? && !step.HttpSend?
    ensures SameMessages([step], [step], q, q)
  {
  }

  lemma LateQuitMessages<V>(id: string, q: set<string>)
    requires id in q
    ensures SameMessages<V>([], [GiveUp(id)], q, q - {id})
  {
    QuitsOne<V>(q - {id}, id);
    assert q - {id} + {id} == q;
    NoQuitsOne<V>(GiveUp(id));
  }

  lemma LandQuitting<V(!new)>(b: Book<V>, id: string, q: set<string>)
    requires Inv(b) && id in b.flights && Enabled(b, GiveUp(id)) && id in q
    ensures Runs(Land(b, q), [], Land(Apply(b, GiveUp(id)), q - {id}))
  {
    LandQuit(b, id, q);
    hide Land;
  }

  lemma QuittingNow<V(!new)>(b: Book<V>, steps: seq<Step<V>>, end: Book<V>)
    requires Inv(b) && Runs(b, steps, end) && steps != [] && steps[0].GiveUp?
    ensures var id, q, q' := steps[0].id, Quitters(b, steps), Quitters(Apply(b, steps[0]), steps[1..]);
            q' == q - {id} && (id in q <==> id in b.flights)
  {
    QuittersOfRest(b, steps);
    NoLateQuit(Apply(b, steps[0]), steps[1..], end, steps[0].id);
    NotQuitting(Apply(b, steps[0]), steps[1..], steps[0].id);
  }

  lemma NotQuitting<V>(b: Book<V>, steps: seq<Step<V>>, id: string)
    requires !GivesUpFirst(steps, id)
    ensures id !in Quitters(b, steps)
  {
  }

  lemma {:induction false} LandRun<V(!new)>(b: Book<V>, steps: seq<Step<V>>, end: Book<V>) returns (whole: seq<Step<V>>)
    requires Inv(b) && Runs(b, steps, end)
    ensures Runs(Land(b, Quitters(b, steps)), whole, Land(end, {}))
    ensures multiset(whole) + Quits(Quitters(b, steps)) == multiset(Merged(steps))
    ensures NoQuits(whole) == NoQuits(Merged(steps))
    ensures forall step | step in whole :: !step.HttpTake? && !step.HttpSend?
    decreases |steps|
  {
    hide Inv; hide Land; hide Apply; hide Enabled;
    if steps == [] {
      assert Quitters(b, steps) == {};
      whole := [];
    } else {
      var next, q, q' := Apply(b, steps[0]), Quitters(b, steps), Quitters(Apply(b, steps[0]), steps[1..]);
      hide Quitters; hide Quits;
      StepKeepsInv(b, steps[0]);
      var first := LandStep(b, steps, end);
      var rest := LandRun(next, steps[1..], end);
      RunsConcat(Land(b, q), first, Land(next, q'), rest, Land(end, {}));
      MergedOne(steps[0]);
      assert Merged(steps) == Merged([steps[0]]) + Merged(steps[1..]);
      hide Merged; hide Runs;
      Combine(multiset(first), multiset(rest), Quits(q), Quits(q'),
              multiset(Merged([steps[0]])), multiset(Merged(steps[1..])));
      NoQuitsConcat(first, rest);
      NoQuitsConcat(Merged([steps[0]]), Merged(steps[1..]));
      whole := first + rest;
    }
  }

  lemma Combine<T>(first: multiset<T>, rest: multiset<T>, q: multiset<T>, q': multiset<T>, m: multiset<T>,
                   n: multiset<T>)
    requires first + q == m + q' && rest + q' == n
    ensures first + rest + q == m + n
  {
    assert first + rest + q == (first + q) + rest;
    assert (m + q') + rest == m + (rest + q');
  }

  /** However the two steps of HTTP handlers are interleaved with everything else, once none is in flight the tables,
      the waiters and the deliveries are those of a run in which the same messages came over the socket, in the order
      in which the entries were taken; only a waiter that gives up may do so earlier. */
  lemma HttpRunsAreSocketRuns<V(!new)>(b: Book<V>, steps: seq<Step<V>>, end: Book<V>) returns (whole: seq<Step<V>>)
    requires Inv(b) && Runs(b, steps, end) && b.flights == map[] && end.flights == map[]
    ensures Runs(b, whole, end)
    ensures multiset(whole) == multiset(Merged(steps)) && NoQuits(whole) == NoQuits(Merged(steps))
    ensures forall step | step in whole :: !step.HttpTake? && !step.HttpSend?
  {
    whole := LandRun(b, steps, end);
    NothingToLand(b, Quitters(b, steps));
    NothingToLand(end, {});
    assert Quitters(b, steps) == {};
  }

  lemma NothingToLand<V>(b: Book<V>, q: set<string>)
    requires b.flights == map[]
    ensures Land(b, q) == b
  {
    assert Land(b, q).asks == b.asks;
    assert Arriving(b, q) == {};
  }
}
