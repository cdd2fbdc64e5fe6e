/** Tiers of the memory seeds: promotion by access, demotion and deletion by budget, and the text index beside the
    table (`seeds.rs`). Each method is one transaction. */
module SeedTiers {
  import opened Sets

  type Id = string

  datatype Tier = Always | OnDemand | Archive

  datatype Seed = Seed(tier: Tier, source: string, nature: string, strength: real, accesses: nat)

  /** The seeds table, and how many entries the text index has under an id. */
  datatype Db = Db(table: map<Id, Seed>, index: map<Id, nat>)

  datatype Report = Report(ondemandTotal: nat, ondemandDemoted: nat, archiveTotal: nat, archiveDeleted: nat)

  const ONDEMAND_BUDGET := 200
  const ARCHIVE_BUDGET := 1000

  predicate Protected(s: Seed) {
    s.source in {"UserStatement", "RenSoul", "Handoff"} || s.nature == "Preference"
  }

  function InTier(t: map<Id, Seed>, tier: Tier): set<Id> {
    set id | id in t && t[id].tier == tier
  }

  function Evictable(t: map<Id, Seed>, tier: Tier): set<Id> {
    set id | id in t && t[id].tier == tier && !Protected(t[id])
  }

  /** Any answer SQL may give to the query for the `n` weakest evictable seeds of a tier; ties are free. */
  predicate Weakest(t: map<Id, Seed>, tier: Tier, n: nat, ids: seq<Id>) {
    var all := Evictable(t, tier);
    && NoDup(ids) && SetOf(ids) <= all && |ids| == (if n < |all| then n else |all|)
    && forall a, b | a in SetOf(ids) && b in all - SetOf(ids) :: t[a].strength <= t[b].strength
  }

  type Picker = (map<Id, Seed>, Tier, nat) -> seq<Id>

  ghost predicate Picks(pick: Picker) {
    forall t, tier, n :: Weakest(t, tier, n, pick(t, tier, n))
  }

  // ── Transactions ──────────────────────────────────────────────

  function Excess(total: nat, budget: nat): nat { if total > budget then total - budget else 0 }

  function SetTier(t: map<Id, Seed>, ids: set<Id>, tier: Tier): map<Id, Seed> {
    map id | id in t :: if id in ids then t[id].(tier := tier) else t[id]
  }

  function Demote(t: map<Id, Seed>, ids: set<Id>): map<Id, Seed> { SetTier(t, ids, Archive) }

  function Delete(db: Db, ids: set<Id>): Db {
    Db(db.table - ids, db.index - ids)
  }

  /** `enforce_tier_budgets`. */
  function Enforce(pick: Picker, db: Db): (Db, Report) {
    var ondemand := |InTier(db.table, OnDemand)|;
    var demoted := if ondemand > ONDEMAND_BUDGET then pick(db.table, OnDemand, ondemand - ONDEMAND_BUDGET) else [];
    var mid := db.(table := Demote(db.table, SetOf(demoted)));
    var archive := |InTier(mid.table, Archive)|;
    var deleted := if archive > ARCHIVE_BUDGET then pick(mid.table, Archive, archive - ARCHIVE_BUDGET) else [];
    (Delete(mid, SetOf(deleted)), Report(ondemand, |demoted|, archive, |deleted|))
  }

  function Cap(x: real): real { if x < 1.0 then x else 1.0 }

  /** An accessed seed is counted and gains strength; then every tier is promoted, OnDemand before Archive. */
  function Promoted(s: Seed): Seed { ToOnDemand(ToAlways(s)) }

  function ToAlways(s: Seed): Seed {
    if s.tier == OnDemand && s.accesses >= 8 then s.(tier := Always) else s
  }

  function ToOnDemand(s: Seed): Seed {
    if s.tier == Archive && s.accesses >= 5 then s.(tier := OnDemand) else s
  }

  function Accessed(s: Seed): Seed {
    s.(accesses := s.accesses + 1, strength := Cap(s.strength + 0.01))
  }

  function Touch(t: map<Id, Seed>, ids: set<Id>): map<Id, Seed> {
    if ids == {} then t
    else map id | id in t :: Promoted(if id in ids then Accessed(t[id]) else t[id])
  }

  function Weaken(t: map<Id, Seed>, ids: seq<Id>, factor: real): map<Id, Seed> {
    if ids == [] then t
    else WeakenOne(Weaken(t, ids[..|ids| - 1], factor), ids[|ids| - 1], factor)
  }

  function WeakenOne(t: map<Id, Seed>, id: Id, factor: real): map<Id, Seed> {
    if id in t then t[id := t[id].(strength := t[id].strength * factor)] else t
  }

  /** An id already in the table is ignored there, but the index gets another entry. */
  function Insert(db: Db, id: Id, s: Seed): Db {
    Db(if id in db.table then db.table else db.table[id := s],
       db.index[id := (if id in db.index then db.index[id] else 0) + 1])
  }

  class Store {
    var table: map<Id, Seed>
    var index: map<Id, nat>

    constructor ()
      ensures Contents() == Db(map[], map[])
    {
      table, index := map[], map[];
    }

    function Contents(): Db
      reads this
    {
      Db(table, index)
    }

    method InsertSeed(id: Id, s: Seed)
      modifies this
      ensures Contents() == Insert(old(Contents()), id, s)
    {
      if id !in table { table := table[id := s]; }
      index := index[id := (if id in index then index[id] else 0) + 1];
    }

    method DeleteSeeds(ids: seq<Id>)
      modifies this
      ensures Contents() == Delete(old(Contents()), SetOf(ids))
    {
      for i := 0 to |ids|
        invariant Contents() == Delete(old(Contents()), SetOf(ids[..i]))
      {
        SetOfPrefix(ids, i);
        table := table - {ids[i]};
        index := index - {ids[i]};
      }
      assert ids[..|ids|] == ids;
    }

    method WeakenSeeds(ids: seq<Id>, factor: real)
      modifies this
      ensures table == Weaken(old(table), ids, factor) && index == old(index)
    {
      hide WeakenOne;
      for i := 0 to |ids|
        invariant table == Weaken(old(table), ids[..i], factor) && index == old(index)
      {
        assert ids[..i + 1][..i] == ids[..i];
        WeakenSeed(ids[i], factor);
      }
      assert ids[..|ids|] == ids;
    }

    method WeakenSeed(id: Id, factor: real)
      modifies this
      ensures table == WeakenOne(old(table), id, factor) && index == old(index)
    {
      if id in table {
        table := table[id := table[id].(strength := table[id].strength * factor)];
      }
    }

    method TouchBatch(ids: seq<Id>)
      modifies this
      ensures table == Touch(old(table), SetOf(ids)) && index == old(index)
    {
      hide ToAlways; hide ToOnDemand; hide Accessed;
      if ids == [] { return; }
      assert ids[0] in SetOf(ids);
      var deduped := SetOf(ids);
      table := map id | id in table :: if id in deduped then Accessed(table[id]) else table[id];
      table := map id | id in table :: ToAlways(table[id]);
      table := map id | id in table :: ToOnDemand(table[id]);
    }

    method SetTierBatch(ids: seq<Id>, newTier: Tier)
      modifies this
      ensures table == SetTier(old(table), SetOf(ids), newTier) && index == old(index)
    {
      if ids == [] {
        NoneOf<Id>();
        assert SetTier(table, {}, newTier) == table;
        return;
      }
      for i := 0 to |ids|
        invariant table == SetTier(old(table), SetOf(ids[..i]), newTier) && index == old(index)
      {
        SetOfPrefix(ids, i);
        if ids[i] in table { table := table[ids[i] := table[ids[i]].(tier := newTier)]; }
      }
      assert ids[..|ids|] == ids;
    }

    method DemoteSeeds(ids: seq<Id>)
      modifies this
      ensures table == Demote(old(table), SetOf(ids)) && index == old(index)
    {
      for i := 0 to |ids|
        invariant table == Demote(old(table), SetOf(ids[..i])) && index == old(index)
      {
        SetOfPrefix(ids, i);
        if ids[i] in table { table := table[ids[i] := table[ids[i]].(tier := Archive)]; }
      }
      assert ids[..|ids|] == ids;
    }

    method EnforceTierBudgets(pick: Picker) returns (report: Report)
      modifies this
      ensures (Contents(), report) == Enforce(pick, old(Contents()))
    {
      var ondemandTotal := |InTier(table, OnDemand)|;
      var demoted: seq<Id> := [];
      if ondemandTotal > ONDEMAND_BUDGET {
        demoted := pick(table, OnDemand, ondemandTotal - ONDEMAND_BUDGET);
      }
      DemoteSeeds(demoted);
      var archiveTotal := |InTier(table, Archive)|;
      var deleted: seq<Id> := [];
      if archiveTotal > ARCHIVE_BUDGET {
        deleted := pick(table, Archive, archiveTotal - ARCHIVE_BUDGET);
      }
      DeleteSeeds(deleted);
      report := Report(ondemandTotal, |demoted|, archiveTotal, |deleted|);
    }
  }

  // ── Budgets ───────────────────────────────────────────────────

  /** The seeds evicted from a tier: as many as exceed the budget or as can be evicted, unprotected, and weakest
      first. */
  ghost predicate Evicted(t: map<Id, Seed>, tier: Tier, budget: nat, ids: set<Id>) {
    var all, excess := Evictable(t, tier), Excess(|InTier(t, tier)|, budget);
    && ids <= all && |ids| == (if excess < |all| then excess else |all|)
    && forall a, b | a in ids && b in all - ids :: t[a].strength <= t[b].strength
  }

  lemma PickIsEviction(pick: Picker, t: map<Id, Seed>, tier: Tier, budget: nat)
    requires Picks(pick)
    ensures var total := |InTier(t, tier)|;
            var ids := if total > budget then pick(t, tier, total - budget) else [];
            Evicted(t, tier, budget, SetOf(ids)) && |SetOf(ids)| == |ids|
  {
    var total := |InTier(t, tier)|;
    if total > budget { DistinctCount(pick(t, tier, total - budget)); }
  }

  /** After an eviction the tier is within budget, or nothing evictable is left in it. */
  lemma BudgetMet(t: map<Id, Seed>, tier: Tier, budget: nat, ids: set<Id>)
    requires Evicted(t, tier, budget, ids)
    ensures |InTier(t, tier) - ids| <= budget || Evictable(t, tier) - ids == {}
    ensures |InTier(t, tier) - ids| == |InTier(t, tier)| - |ids|
  {
    assert ids <= InTier(t, tier);
    if |ids| == |Evictable(t, tier)| { FullSubset(ids, Evictable(t, tier)); }
  }

  /** What the two evictions of one enforcement do to the database and the report. */
  lemma EnforceIsExact(pick: Picker, db: Db) returns (demoted: set<Id>, deleted: set<Id>)
    requires Picks(pick)
    ensures var (end, report) := Enforce(pick, db);
      var mid := Demote(db.table, demoted);
      && Evicted(db.table, OnDemand, ONDEMAND_BUDGET, demoted) && |demoted| == report.ondemandDemoted
      && Evicted(mid, Archive, ARCHIVE_BUDGET, deleted) && |deleted| == report.archiveDeleted
      && end == Db(mid - deleted, db.index - deleted)
      && report.ondemandTotal == |InTier(db.table, OnDemand)| && report.archiveTotal == |InTier(mid, Archive)|
  {
    hide Weakest; hide InTier; hide Evicted; hide Demote; hide SetOf; hide Picks;
    PickIsEviction(pick, db.table, OnDemand, ONDEMAND_BUDGET);
    var ondemand := |InTier(db.table, OnDemand)|;
    demoted := SetOf(if ondemand > ONDEMAND_BUDGET then pick(db.table, OnDemand, ondemand - ONDEMAND_BUDGET) else []);
    var mid := Demote(db.table, demoted);
    PickIsEviction(pick, mid, Archive, ARCHIVE_BUDGET);
    var archive := |InTier(mid, Archive)|;
    deleted := SetOf(if archive > ARCHIVE_BUDGET then pick(mid, Archive, archive - ARCHIVE_BUDGET) else []);
  }

  /** What users said, the seeds of the soul, handoffs and preferences. */
  predicate Kept(s: Seed) {
    s.source == "UserStatement" || s.source == "RenSoul" || s.source == "Handoff" || s.nature == "Preference"
  }

  lemma ProtectedIsKept(t: map<Id, Seed>, tier: Tier)
    ensures Evictable(t, tier) == {} <==> forall id | id in t && t[id].tier == tier :: Kept(t[id])
    ensures forall s :: Protected(s) <==> Kept(s)
  {
    forall id | id in t && t[id].tier == tier && !Kept(t[id]) ensures id in Evictable(t, tier) {}
  }

  /** An enforcement conserves seeds, and leaves each of the two tiers within budget or with protected seeds only. */
  lemma EnforceMeetsBudgets(pick: Picker, db: Db)
    requires Picks(pick)
    ensures var (end, report) := Enforce(pick, db);
      && |db.table| == |end.table| + report.archiveDeleted
      && (|InTier(end.table, OnDemand)| <= 200
          || forall id | id in end.table && end.table[id].tier == OnDemand :: Kept(end.table[id]))
      && (|InTier(end.table, Archive)| <= 1000
          || forall id | id in end.table && end.table[id].tier == Archive :: Kept(end.table[id]))
  {
    hide Picks; hide Enforce;
    ProtectedIsKept(Enforce(pick, db).0.table, OnDemand);
    ProtectedIsKept(Enforce(pick, db).0.table, Archive);
    var demoted, deleted := EnforceIsExact(pick, db);
    var mid := Demote(db.table, demoted);
    assert demoted <= InTier(db.table, OnDemand) && deleted <= InTier(mid, Archive);
    DemotedTiers(db.table, demoted);
    DeletedTiers(mid, deleted);
    BudgetMet(db.table, OnDemand, ONDEMAND_BUDGET, demoted);
    BudgetMet(mid, Archive, ARCHIVE_BUDGET, deleted);
  }

  lemma DemotedTiers(t: map<Id, Seed>, ids: set<Id>)
    requires ids <= InTier(t, OnDemand)
    ensures InTier(Demote(t, ids), OnDemand) == InTier(t, OnDemand) - ids
    ensures Evictable(Demote(t, ids), OnDemand) == Evictable(t, OnDemand) - ids
    ensures |Demote(t, ids)| == |t|
  {
    assert Demote(t, ids).Keys == t.Keys;
    assert |Demote(t, ids)| == |Demote(t, ids).Keys| && |t| == |t.Keys|;
  }

  lemma DeletedTiers(t: map<Id, Seed>, ids: set<Id>)
    requires ids <= InTier(t, Archive)
    ensures InTier(t - ids, Archive) == InTier(t, Archive) - ids
    ensures Evictable(t - ids, Archive) == Evictable(t, Archive) - ids
    ensures InTier(t - ids, OnDemand) == InTier(t, OnDemand) && Evictable(t - ids, OnDemand) == Evictable(t, OnDemand)
    ensures |t| == |t - ids| + |ids|
  {
    assert (t - ids).Keys == t.Keys - ids && ids <= t.Keys;
    assert |t - ids| == |(t - ids).Keys| && |t| == |t.Keys|;
  }

  /** Protected seeds and those of the Always tier come through an enforcement unchanged; nothing else but a tier
      changes. */
  lemma EnforceSpares(pick: Picker, db: Db, id: Id)
    requires Picks(pick) && id in db.table
    ensures var end := Enforce(pick, db).0;
      && (Kept(db.table[id]) || db.table[id].tier == Always ==> id in end.table && end.table[id] == db.table[id])
      && (id in end.table ==> end.table[id].(tier := Always) == db.table[id].(tier := Always))
      && (id !in end.table ==> !Kept(db.table[id]) && db.table[id].tier != Always && id !in end.index)
  {
    ProtectedIsKept(db.table, Always);
    var demoted, deleted := EnforceIsExact(pick, db);
  }

  // ── The text index ────────────────────────────────────────────

  /** Every row has exactly one entry, and there are no others. */
  predicate InSync(db: Db) {
    db.index.Keys == db.table.Keys && forall id | id in db.index :: db.index[id] == 1
  }

  /** Inserting keeps the index in step if and only if the id is new. */
  lemma InsertInSyncIffNew(db: Db, id: Id, s: Seed)
    requires InSync(db)
    ensures InSync(Insert(db, id, s)) <==> id !in db.table
    ensures Insert(db, id, s).index.Keys == Insert(db, id, s).table.Keys
  {
    assert Insert(db, id, s).index[id] == (if id in db.index then 2 else 1);
  }

  // ── What becomes of one seed ──────────────────────────────────

  function Power(x: real, n: nat): real { if n == 0 then 1.0 else Power(x, n - 1) * x }

  /** A seed's strength is multiplied by the factor once for each time it is named, and nothing else changes. */
  lemma {:induction false} WeakenIsExact(t: map<Id, Seed>, ids: seq<Id>, factor: real, id: Id)
    ensures var w := Weaken(t, ids, factor);
            && (id in w <==> id in t)
            && (id in t ==> w[id] == t[id].(strength := t[id].strength * Power(factor, multiset(ids)[id])))
  {
    if ids == [] {
      if id in t { assert t[id].strength * 1.0 == t[id].strength; }
    } else {
      var before, last := ids[..|ids| - 1], ids[|ids| - 1];
      assert ids == before + [last];
      WeakenIsExact(t, before, factor, id);
      if id in t && id == last { ProductTwice(t[id].strength, Power(factor, multiset(before)[id]), factor); }
    }
  }

  lemma ProductTwice(x: real, y: real, z: real)
    ensures x * (y * z) == x * y * z
  {
  }

  /** A touch that names any seed counts each named one once, strengthens it by a hundredth up to one, and lifts every
      OnDemand seed with 8 accesses to Always, and every Archive seed with 5 to OnDemand and no further. */
  lemma TouchIsExact(t: map<Id, Seed>, ids: seq<Id>, id: Id)
    requires ids != []
    ensures var after := Touch(t, SetOf(ids));
            && (id in after <==> id in t)
            && (id in t ==>
                  var s, s', count := t[id], after[id], t[id].accesses + if id in ids then 1 else 0;
                  && s'.source == s.source && s'.nature == s.nature && s'.accesses == count
                  && (id !in ids ==> s'.strength == s.strength)
                  && (id in ids && s.strength <= 0.99 ==> s'.strength == s.strength + 0.01)
                  && (id in ids && s.strength >= 0.99 ==> s'.strength == 1.0)
                  && s'.tier == (if s.tier == OnDemand && count >= 8 then Always
                                 else if s.tier == Archive && count >= 5 then OnDemand else s.tier))
  {
    assert ids[0] in SetOf(ids);
  }

  /** Touching no seed, weakening none and giving none a tier changes nothing. */
  lemma NoneNamed(t: map<Id, Seed>, factor: real, tier: Tier)
    ensures Touch(t, SetOf([])) == t && Weaken(t, [], factor) == t && SetTier(t, SetOf([]), tier) == t
  {
    NoneOf<Id>();
  }

  /** A deletion takes the named seeds out of table and index, and no other; a change of tier is the named seeds' only;
      an insertion adds its seed unless the id is taken, and one index entry in any case. */
  lemma NamedSeedsOnly(db: Db, ids: seq<Id>, tier: Tier, new_: Id, s: Seed, id: Id)
    ensures var deleted := Delete(db, SetOf(ids));
            && (id in deleted.table <==> id in db.table && id !in ids)
            && (id in deleted.index <==> id in db.index && id !in ids)
            && (id in deleted.table ==> deleted.table[id] == db.table[id])
            && (id in deleted.index ==> deleted.index[id] == db.index[id])
    ensures var retiered := SetTier(db.table, SetOf(ids), tier);
            && (id in retiered <==> id in db.table)
            && (id in db.table && id in ids ==> retiered[id] == db.table[id].(tier := tier))
            && (id in db.table && id !in ids ==> retiered[id] == db.table[id])
    ensures var inserted := Insert(db, new_, s);
            && (id in inserted.table <==> id in db.table || id == new_)
            && (id in db.table ==> inserted.table[id] == db.table[id])
            && (id == new_ && id !in db.table ==> inserted.table[id] == s)
            && (id != new_ ==> (id in inserted.index <==> id in db.index))
            && (id != new_ && id in db.index ==> inserted.index[id] == db.index[id])
            && new_ in inserted.index && inserted.index[new_] == (if new_ in db.index then db.index[new_] + 1 else 1)
  {
  }

  // ── Every run ─────────────────────────────────────────────────

  datatype Op =
    | OpInsert(id: Id, s: Seed)
    | OpDelete(ids: seq<Id>)
    | OpWeaken(ids: seq<Id>, factor: real)
    | OpTouch(ids: seq<Id>)
    | OpSetTier(ids: seq<Id>, tier: Tier)
    | OpEnforce

  function Apply(pick: Picker, db: Db, op: Op): Db {
    match op
    case OpInsert(id, s) => Insert(db, id, s)
    case OpDelete(ids) => Delete(db, SetOf(ids))
    case OpWeaken(ids, factor) => db.(table := Weaken(db.table, ids, factor))
    case OpTouch(ids) => db.(table := Touch(db.table, SetOf(ids)))
    case OpSetTier(ids, tier) => db.(table := SetTier(db.table, SetOf(ids), tier))
    case OpEnforce => Enforce(pick, db).0
  }

  predicate UnitStrength(x: real) { 0.0 <= x <= 1.0 }

  /** Inserted seeds are new and have unit strength, as have weakening factors. */
  predicate Proper(db: Db, op: Op) {
    match op
    case OpInsert(id, s) => id !in db.table && UnitStrength(s.strength)
    case OpWeaken(_, factor) => UnitStrength(factor)
    case _ => true
  }

  ghost predicate Inv(db: Db) {
    InSync(db) && forall id | id in db.table :: UnitStrength(db.table[id].strength)
  }

  lemma WeakenOneEffect(t: map<Id, Seed>, id: Id, factor: real)
    requires UnitStrength(factor) && forall i | i in t :: UnitStrength(t[i].strength)
    ensures var w := WeakenOne(t, id, factor);
            w.Keys == t.Keys && forall i | i in t :: UnitStrength(w[i].strength) && w[i].tier == t[i].tier
  {
    var w := WeakenOne(t, id, factor);
    assert w.Keys == t.Keys;
    forall i | i in t ensures UnitStrength(w[i].strength) && w[i].tier == t[i].tier {
      assert UnitStrength(t[i].strength);
      if i == id {
        Product(t[i].strength, factor);
        assert w[i].strength == t[i].strength * factor;
      } else {
        assert w[i] == t[i];
      }
    }
  }

  lemma {:induction false} WeakenEffect(t: map<Id, Seed>, ids: seq<Id>, factor: real)
    requires UnitStrength(factor) && forall i | i in t :: UnitStrength(t[i].strength)
    ensures var w := Weaken(t, ids, factor);
            w.Keys == t.Keys && forall i | i in t :: UnitStrength(w[i].strength) && w[i].tier == t[i].tier
  {
    hide UnitStrength; hide WeakenOne;
    if ids != [] {
      WeakenEffect(t, ids[..|ids| - 1], factor);
      WeakenOneEffect(Weaken(t, ids[..|ids| - 1], factor), ids[|ids| - 1], factor);
    }
  }

  lemma Product(x: real, y: real)
    requires UnitStrength(x) && UnitStrength(y)
    ensures UnitStrength(x * y)
  {
    NotNegative(x, y);
    NotNegative(x, 1.0 - y);
    assert x * (1.0 - y) == x - x * y;
  }

  lemma NotNegative(x: real, y: real)
    requires x >= 0.0 && y >= 0.0
    ensures x * y >= 0.0
  {
  }

  lemma EnforceKeepsInv(pick: Picker, db: Db)
    requires Picks(pick) && Inv(db)
    ensures Inv(Enforce(pick, db).0)
  {
    hide Picks; hide Enforce; hide Evicted; hide UnitStrength;
    var demoted, deleted := EnforceIsExact(pick, db);
    var mid, end := Demote(db.table, demoted), Enforce(pick, db).0;
    assert mid.Keys == db.table.Keys && end.table == mid - deleted && end.index == db.index - deleted;
    forall id | id in end.table ensures UnitStrength(end.table[id].strength) {
      assert mid[id].strength == db.table[id].strength;
    }
  }

  lemma TouchKeepsInv(db: Db, ids: set<Id>)
    requires Inv(db)
    ensures Inv(db.(table := Touch(db.table, ids)))
  {
  }

  lemma SetTierKeepsInv(db: Db, ids: set<Id>, tier: Tier)
    requires Inv(db)
    ensures Inv(db.(table := SetTier(db.table, ids, tier)))
  {
    assert SetTier(db.table, ids, tier).Keys == db.table.Keys;
  }

  /** Every operation keeps the index in step and all strengths between 0 and 1. */
  lemma StepKeepsInv(pick: Picker, db: Db, op: Op)
    requires Picks(pick) && Inv(db) && Proper(db, op)
    ensures Inv(Apply(pick, db, op))
  {
    hide Picks; hide Enforce; hide Touch; hide Weaken;
    match op
    case OpInsert(id, s) => InsertInSyncIffNew(db, id, s);
    case OpWeaken(ids, factor) => WeakenEffect(db.table, ids, factor);
    case OpEnforce => EnforceKeepsInv(pick, db);
    case OpTouch(ids) => TouchKeepsInv(db, SetOf(ids));
    case OpDelete(_) =>
    case OpSetTier(ids, tier) => SetTierKeepsInv(db, SetOf(ids), tier);
  }

  /** The operation deletes the seed by name, or gives it another tier than Always by name. */
  predicate Dismisses(op: Op, id: Id) {
    match op
    case OpDelete(ids) => id in ids
    case OpSetTier(ids, tier) => id in ids && tier != Always
    case _ => false
  }

  /** An Always seed stays in its tier and in the table if and only if the operation does not dismiss it by name. */
  lemma AlwaysStays(pick: Picker, db: Db, op: Op, id: Id)
    requires Picks(pick) && id in db.table && db.table[id].tier == Always
    ensures var end := Apply(pick, db, op).table;
            id in end && end[id].tier == Always <==> !Dismisses(op, id)
  {
    match op
    case OpWeaken(ids, factor) => WeakenKeepsRipeness(db.table, ids, factor);
    case OpEnforce => EnforceSpares(pick, db, id);
    case _ =>
  }

  // ── Promotion settles ─────────────────────────────────────────

  predicate NoneRipe(t: map<Id, Seed>, tier: Tier, accesses: nat) {
    forall id | id in t && t[id].tier == tier :: t[id].accesses < accesses
  }

  /** After a touch of anything no Archive seed has 5 accesses or more. And no OnDemand seed has 8 or more, if and only
      if no Archive seed had reached 8 with this touch: such a seed is promoted one tier only. */
  lemma TouchSettlesIff(t: map<Id, Seed>, ids: set<Id>)
    requires ids != {}
    ensures NoneRipe(Touch(t, ids), Archive, 5)
    ensures NoneRipe(Touch(t, ids), OnDemand, 8)
       <==> forall id | id in t && t[id].tier == Archive :: t[id].accesses + (if id in ids then 1 else 0) < 8
  {
    var after := Touch(t, ids);
    forall id | id in t && t[id].tier == Archive && t[id].accesses + (if id in ids then 1 else 0) >= 8
      ensures !NoneRipe(after, OnDemand, 8)
    {
      assert after[id].tier == OnDemand && after[id].accesses >= 8;
    }
  }

  /** The operation brings no seed with 5 accesses or more into the Archive: an insertion and a change of tier by what
      they name, an enforcement by the OnDemand tier being within its budget. */
  predicate RipensNone(db: Db, op: Op) {
    match op
    case OpInsert(id, s) => id !in db.table && s.tier == Archive ==> s.accesses < 5
    case OpSetTier(ids, tier) =>
      tier == Archive ==> forall id | id in ids && id in db.table :: db.table[id].accesses < 5
    case OpEnforce => |InTier(db.table, OnDemand)| <= ONDEMAND_BUDGET
    case _ => true
  }

  function Run(pick: Picker, db: Db, ops: seq<Op>): Db {
    if ops == [] then db else Apply(pick, Run(pick, db, ops[..|ops| - 1]), ops[|ops| - 1])
  }

  /** So it is for each operation where its turn comes. */
  predicate RunRipensNone(pick: Picker, db: Db, ops: seq<Op>) {
    ops == [] ||
    (&& RunRipensNone(pick, db, ops[..|ops| - 1])
     && RipensNone(Run(pick, db, ops[..|ops| - 1]), ops[|ops| - 1]))
  }

  lemma StepKeepsUnripe(pick: Picker, db: Db, op: Op)
    requires NoneRipe(db.table, Archive, 5) && RipensNone(db, op)
    ensures NoneRipe(Apply(pick, db, op).table, Archive, 5)
  {
    match op
    case OpWeaken(ids, factor) => WeakenKeepsRipeness(db.table, ids, factor);
    case OpEnforce =>
      NoneOf<Id>();
      assert Demote(db.table, {}) == db.table;
    case _ =>
  }

  lemma {:induction false} WeakenKeepsRipeness(t: map<Id, Seed>, ids: seq<Id>, factor: real)
    ensures var w := Weaken(t, ids, factor);
            w.Keys == t.Keys && forall id | id in t :: w[id].tier == t[id].tier && w[id].accesses == t[id].accesses
  {
    if ids != [] { WeakenKeepsRipeness(t, ids[..|ids| - 1], factor); }
  }

  lemma {:induction false} RunKeepsUnripe(pick: Picker, db: Db, ops: seq<Op>)
    requires NoneRipe(db.table, Archive, 5) && RunRipensNone(pick, db, ops)
    ensures NoneRipe(Run(pick, db, ops).table, Archive, 5)
  {
    hide NoneRipe; hide Apply; hide RipensNone;
    if ops != [] {
      RunKeepsUnripe(pick, db, ops[..|ops| - 1]);
      StepKeepsUnripe(pick, Run(pick, db, ops[..|ops| - 1]), ops[|ops| - 1]);
    }
  }

  /** Promotion settles: after a touch, any operations that bring no ripe seed into the Archive, and another touch, no
      Archive seed has 5 accesses and no OnDemand seed has 8. */
  lemma PromotionSettles(pick: Picker, db: Db, first: seq<Id>, between: seq<Op>, second: seq<Id>)
    requires first != [] && second != [] && RunRipensNone(pick, Apply(pick, db, OpTouch(first)), between)
    ensures var end := Apply(pick, Run(pick, Apply(pick, db, OpTouch(first)), between), OpTouch(second)).table;
            NoneRipe(end, Archive, 5) && NoneRipe(end, OnDemand, 8)
  {
    hide Run; hide Touch; hide RunRipensNone;
    assert first[0] in SetOf(first) && second[0] in SetOf(second);
    TouchSettlesIff(db.table, SetOf(first));
    var once := Apply(pick, db, OpTouch(first));
    RunKeepsUnripe(pick, once, between);
    TouchSettlesIff(Run(pick, once, between).table, SetOf(second));
  }

  /** An Archive seed inserted in between with many accesses defeats it. */
  lemma InsertedSeedStaysRipe(pick: Picker)
    ensures var ripe := Seed(Archive, "", "", 1.0, 9);
            var db := Apply(pick, Db(map[], map[]), OpTouch(["a"]));
            var end := Apply(pick, Apply(pick, db, OpInsert("b", ripe)), OpTouch(["a"])).table;
            "b" in end && end["b"].tier == OnDemand && end["b"].accesses == 9
  {
    assert "a" in SetOf(["a"]) by { assert ["a"][0] == "a"; }
    assert "b" !in SetOf(["a"]);
  }

  /** So does a seed put into the Archive by name in between, with 7 accesses, and an eighth to come. */
  lemma RetieredSeedStaysRipe(pick: Picker)
    ensures var start := Db(map["a" := Seed(OnDemand, "", "", 1.0, 6)], map["a" := 1]);
            var db := Apply(pick, Apply(pick, start, OpTouch(["a"])), OpSetTier(["a"], Archive));
            var end := Apply(pick, db, OpTouch(["a"])).table;
            "a" in end && end["a"].tier == OnDemand && end["a"].accesses == 8
  {
    assert "a" in SetOf(["a"]) by { assert ["a"][0] == "a"; }
  }

  /** So does a seed demoted in between with 7 accesses, if it is touched again. */
  lemma DemotedSeedStaysRipe(t: map<Id, Seed>, id: Id)
    requires id in t && t[id].tier == OnDemand && t[id].accesses == 7
    ensures var end := Touch(Demote(t, {id}), {id});
            end[id].tier == OnDemand && end[id].accesses == 8
  {
  }

  // ── The database has an answer ────────────────────────────────

  lemma {:induction false} WeakestExists(t: map<Id, Seed>, ids: set<Id>) returns (id: Id)
    requires ids != {} && ids <= t.Keys
    ensures id in ids && forall other | other in ids :: t[id].strength <= t[other].strength
    decreases |ids|
  {
    id :| id in ids;
    if ids != {id} {
      var rest := WeakestExists(t, ids - {id});
      if t[rest].strength < t[id].strength { id := rest; }
    }
  }

  /** Among the seeds not chosen yet, the weakest comes next. */
  lemma OneMoreWeakest(t: map<Id, Seed>, tier: Tier, n: nat, ids: seq<Id>, next: Id)
    requires Weakest(t, tier, n, ids) && n < |Evictable(t, tier)|
    requires next in Evictable(t, tier) - SetOf(ids)
    requires forall other | other in Evictable(t, tier) - SetOf(ids) :: t[next].strength <= t[other].strength
    ensures Weakest(t, tier, n + 1, ids + [next])
  {
    SetOfSnoc(ids, next);
    hide Evictable; hide SetOf;
    var all, more := Evictable(t, tier), ids + [next];
    assert NoDup(more) by { assert forall i | 0 <= i < |ids| :: ids[i] in SetOf(ids) by { InSetOf(ids); } }
  }

  lemma InSetOf(ids: seq<Id>)
    ensures forall i | 0 <= i < |ids| :: ids[i] in SetOf(ids)
  {
  }

  lemma {:induction false} SelectionExists(t: map<Id, Seed>, tier: Tier, n: nat) returns (ids: seq<Id>)
    ensures Weakest(t, tier, n, ids)
    decreases n
  {
    var all := Evictable(t, tier);
    if n == 0 {
      ids := [];
      NoneOf<Id>();
    } else {
      ids := SelectionExists(t, tier, n - 1);
      if n <= |all| {
        SomeLeft(all, ids);
        hide Weakest; hide SetOf; hide Evictable;
        var next := WeakestExists(t, all - SetOf(ids)) by { EvictableIn(t, tier); }
        OneMoreWeakest(t, tier, n - 1, ids, next);
        ids := ids + [next];
      }
    }
  }

  lemma SomeLeft(all: set<Id>, ids: seq<Id>)
    requires NoDup(ids) && |ids| < |all|
    ensures all - SetOf(ids) != {}
  {
    DistinctCount(ids);
    if all - SetOf(ids) == {} {
      assert forall x | x in all && x !in SetOf(ids) :: x in all - SetOf(ids);
      SubsetSize(all, SetOf(ids));
    }
  }

  lemma EvictableIn(t: map<Id, Seed>, tier: Tier)
    ensures Evictable(t, tier) <= t.Keys
  {
  }

  ghost function Selection(t: map<Id, Seed>, tier: Tier, n: nat): (ids: seq<Id>)
    ensures Weakest(t, tier, n, ids)
  {
    SelectionIs(t, tier, n);
    var ids :| Weakest(t, tier, n, ids);
    ids
  }

  lemma SelectionIs(t: map<Id, Seed>, tier: Tier, n: nat)
    ensures exists ids :: Weakest(t, tier, n, ids)
  {
    var ids := SelectionExists(t, tier, n);
  }

  /** There are pickers: what is proved of every picker is not void. */
  lemma PickerExists() returns (pick: Picker)
    ensures Picks(pick)
  {
    pick := (t: map<Id, Seed>, tier: Tier, n: nat) => Selection(t, tier, n);
  }
}
