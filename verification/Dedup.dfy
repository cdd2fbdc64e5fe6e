/** The time window that recognises repeated message ids (`DedupWindow`). */
module Dedup {
  /** Time between two instants; zero if the second is not later. */
  function Since(now: int, then_: int): nat {
    if now < then_ then 0 else now - then_
  }

  function Prune<K>(seen: map<K, int>, ttl: nat, now: int): map<K, int> {
    map k | k in seen && Since(now, seen[k]) < ttl :: seen[k]
  }

  class DedupWindow<K(==)> {
    const ttl: nat
    var seen: map<K, int>

    constructor (ttl: nat)
      ensures this.ttl == ttl && seen == map[]
    {
      this.ttl := ttl;
      seen := map[];
    }

    method IsDuplicate(id: K, now: int) returns (duplicate: bool)
      modifies this
      ensures duplicate == (id in Prune(old(seen), ttl, now))
      ensures seen == if duplicate then Prune(old(seen), ttl, now) else Prune(old(seen), ttl, now)[id := now]
    {
      seen := map k | k in seen && Since(now, seen[k]) < ttl :: seen[k];
      if id in seen { return true; }
      seen := seen[id := now];
      duplicate := false;
    }
  }

  // ── The window over a whole run ───────────────────────────────

  datatype Call<K> = Call(id: K, now: int)

  /** The window after the calls, and which of them it reported as duplicates. */
  function After<K>(ttl: nat, calls: seq<Call<K>>): (r: (map<K, int>, seq<bool>))
    ensures |r.1| == |calls|
  {
    if calls == [] then (map[], [])
    else
      var (seen, verdicts) := After(ttl, calls[..|calls| - 1]);
      var call := calls[|calls| - 1];
      var kept := Prune(seen, ttl, call.now);
      if call.id in kept then (kept, verdicts + [true]) else (kept[call.id := call.now], verdicts + [false])
  }

  predicate InOrder<K>(calls: seq<Call<K>>) {
    forall i, j | 0 <= i < j < |calls| :: calls[i].now <= calls[j].now
  }

  /** Call `j` was accepted under `id`. */
  predicate Accepted<K(==)>(ttl: nat, calls: seq<Call<K>>, j: int, id: K) {
    0 <= j < |calls| && calls[j].id == id && !After(ttl, calls).1[j]
  }

  lemma AcceptedSnoc<K>(ttl: nat, calls: seq<Call<K>>, call: Call<K>, j: nat, id: K)
    requires j < |calls|
    ensures Accepted(ttl, calls + [call], j, id) <==> Accepted(ttl, calls, j, id)
  {
    assert (calls + [call])[..|calls|] == calls;
  }

  /** Every remembered time is that of a call accepted under that id. */
  ghost predicate FromAccepted<K(!new)>(ttl: nat, calls: seq<Call<K>>) {
    var seen := After(ttl, calls).0;
    forall k | k in seen :: exists j :: Accepted(ttl, calls, j, k) && calls[j].now == seen[k]
  }

  lemma {:induction false} WindowFromAccepted<K(!new)>(ttl: nat, calls: seq<Call<K>>)
    ensures FromAccepted(ttl, calls)
  {
    if calls != [] {
      var before, call := calls[..|calls| - 1], calls[|calls| - 1];
      assert calls == before + [call];
      WindowFromAccepted(ttl, before);
      var seen, seen' := After(ttl, before).0, After(ttl, calls).0;
      forall k | k in seen' ensures exists j :: Accepted(ttl, calls, j, k) && calls[j].now == seen'[k] {
        if k in Prune(seen, ttl, call.now) {
          assert k in seen && seen'[k] == seen[k];
          var j :| Accepted(ttl, before, j, k) && before[j].now == seen[k];
          AcceptedSnoc(ttl, before, call, j, k);
        } else {
          assert Accepted(ttl, calls, |before|, k);
        }
      }
    }
  }

  /** The window remembers accepted calls only, and every one that is recent enough. */
  lemma {:induction false} WindowHoldsRecent<K(!new)>(ttl: nat, calls: seq<Call<K>>)
    requires InOrder(calls) && calls != []
    ensures FromAccepted(ttl, calls)
    ensures var seen, last := After(ttl, calls).0, calls[|calls| - 1].now;
            forall j, k | Accepted(ttl, calls, j, k) && last - calls[j].now < ttl ::
                k in seen && seen[k] == calls[j].now
  {
    var before, call := calls[..|calls| - 1], calls[|calls| - 1];
    assert calls == before + [call];
    WindowFromAccepted(ttl, calls);
    if before != [] { WindowHoldsRecent(ttl, before); }
    var seen' := After(ttl, calls).0;
    hide FromAccepted;
    forall j, k | Accepted(ttl, calls, j, k) && call.now - calls[j].now < ttl
      ensures k in seen' && seen'[k] == calls[j].now
    {
      if j < |before| { AcceptedSnoc(ttl, before, call, j, k); }
    }
  }

  /** A call is reported as duplicate exactly when the same id was accepted less than the time-to-live before. */
  lemma DuplicateIffRecent<K(!new)>(ttl: nat, calls: seq<Call<K>>, i: nat)
    requires InOrder(calls) && i < |calls|
    ensures After(ttl, calls).1[i]
       <==> exists j :: 0 <= j < i && Accepted(ttl, calls, j, calls[i].id) && calls[i].now - calls[j].now < ttl
  {
    var before, call := calls[..i], calls[i];
    VerdictOfPrefix(ttl, calls, i);
    if i > 0 { WindowHoldsRecent(ttl, before); }
    forall j | 0 <= j < i ensures Accepted(ttl, calls, j, call.id) <==> Accepted(ttl, before, j, call.id) {
      AcceptedPrefix(ttl, calls, i, j, call.id);
    }
    var seen := After(ttl, before).0;
    if call.id in Prune(seen, ttl, call.now) {
      var j :| Accepted(ttl, before, j, call.id) && before[j].now == seen[call.id];
      assert Accepted(ttl, calls, j, call.id);
    }
  }

  lemma {:induction false} AcceptedPrefix<K>(ttl: nat, calls: seq<Call<K>>, i: nat, j: nat, id: K)
    requires j < i <= |calls|
    ensures Accepted(ttl, calls, j, id) <==> Accepted(ttl, calls[..i], j, id)
    decreases |calls|
  {
    if i == |calls| {
      assert calls[..i] == calls;
    } else {
      var before := calls[..|calls| - 1];
      assert calls == before + [calls[|calls| - 1]] && before[..i] == calls[..i];
      AcceptedSnoc(ttl, before, calls[|calls| - 1], j, id);
      AcceptedPrefix(ttl, before, i, j, id);
    }
  }

  lemma VerdictOfPrefix<K>(ttl: nat, calls: seq<Call<K>>, i: nat)
    requires i < |calls|
    ensures After(ttl, calls).1[i] == (calls[i].id in Prune(After(ttl, calls[..i]).0, ttl, calls[i].now))
  {
    AcceptedPrefix(ttl, calls, i + 1, i, calls[i].id);
    assert calls[..i + 1][..i] == calls[..i];
  }

  /** Two accepted calls of one id are at least the time-to-live apart. */
  lemma AcceptedApart<K(!new)>(ttl: nat, calls: seq<Call<K>>, i: nat, j: nat, id: K)
    requires InOrder(calls) && i < j
    requires Accepted(ttl, calls, i, id) && Accepted(ttl, calls, j, id)
    ensures calls[j].now - calls[i].now >= ttl
  {
    DuplicateIffRecent(ttl, calls, j);
  }
}
