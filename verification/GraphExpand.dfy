/** Breadth-first expansion through the Triple seeds of the memory store (`graph_expand_multi`). */
module GraphExpand {
  import opened Wrappers
  import opened Sets

  type Id = string
  type Entity = string

  datatype Triple = Triple(subj: Entity, pred: string, obj: Entity, strength: real)

  type Db = map<Id, Triple>

  type Hit = (Id, nat)

  predicate Passes(t: Triple, filter: Option<string>) {
    filter.Some? ==> t.pred == filter.value
  }

  predicate Touches(t: Triple, es: set<Entity>) {
    t.subj in es || t.obj in es
  }

  /** Entities the search walks on from: the empty string is not one. */
  function Ends(t: Triple): set<Entity> {
    {t.subj, t.obj} - {""}
  }

  // ── The database query ────────────────────────────────────────

  /** The rows the WHERE clause selects. */
  function Matches(db: Db, es: set<Entity>, filter: Option<string>): set<Id> {
    set id | id in db && Passes(db[id], filter) && Touches(db[id], es)
  }

  /** A query engine: any function that answers `search_entities_batch` the way SQL may, with a LIMIT and
      without an ORDER BY: as many distinct matching rows as the limit lets through, in any order. */
  type Engine = seq<Entity> -> seq<Id>

  predicate ValidAnswer(db: Db, filter: Option<string>, limit: nat, es: set<Entity>, rows: seq<Id>) {
    var m := Matches(db, es, filter);
    NoDup(rows) && SetOf(rows) <= m && |rows| == if |m| <= limit then |m| else limit
  }

  ghost predicate Answers(engine: Engine, db: Db, filter: Option<string>, limit: nat) {
    forall es: seq<Entity> | es != [] :: ValidAnswer(db, filter, limit, SetOf(es), engine(es))
  }

  // ── The search ────────────────────────────────────────────────

  datatype Frontier = Frontier(visited: set<Id>, seen: set<Entity>, next: seq<Entity>, hits: seq<Id>)

  /** `extract_neighbor_values`. */
  function Neighbors(t: Triple): seq<Entity> {
    (if t.subj != "" then [t.subj] else []) + if t.obj != "" then [t.obj] else []
  }

  function AddEntities(f: Frontier, es: seq<Entity>): Frontier {
    if es == [] then f
    else
      var g, e := AddEntities(f, es[..|es| - 1]), es[|es| - 1];
      if e in g.seen then g else g.(seen := g.seen + {e}, next := g.next + [e])
  }

  function AddRow(db: Db, f: Frontier, id: Id): Frontier {
    if id in f.visited || id !in db then f
    else AddEntities(f.(visited := f.visited + {id}, hits := f.hits + [id]), Neighbors(db[id]))
  }

  function AddRows(db: Db, f: Frontier, rows: seq<Id>): Frontier {
    if rows == [] then f else AddRow(db, AddRows(db, f, rows[..|rows| - 1]), rows[|rows| - 1])
  }

  function Label(ids: seq<Id>, hop: nat): seq<Hit> {
    seq(|ids|, i requires 0 <= i < |ids| => (ids[i], hop))
  }

  /** The hits from hop number `hop` on. */
  function Hops(db: Db, engine: Engine, current: seq<Entity>, seen: set<Entity>, visited: set<Id>, hop: nat,
                maxHops: nat)
    : seq<Hit>
    decreases maxHops + 1 - hop
  {
    if hop > maxHops || current == [] then []
    else
      var f := AddRows(db, Frontier(visited, seen, [], []), engine(current));
      Label(f.hits, hop) + Hops(db, engine, f.next, f.seen, f.visited, hop + 1, maxHops)
  }

  /** All hits, before sorting. */
  function Hits(db: Db, engine: Engine, anchors: seq<Entity>, maxHops: nat, limit: nat): seq<Hit> {
    if limit == 0 then [] else Hops(db, engine, anchors, SetOf(anchors), {}, 0, maxHops)
  }

  function Strength(db: Db, id: Id): real {
    if id in db then db[id].strength else 0.0
  }

  /** By hop, then by descending strength. */
  predicate Before(db: Db, a: Hit, b: Hit) {
    a.1 < b.1 || (a.1 == b.1 && Strength(db, a.0) >= Strength(db, b.0))
  }

  predicate Ranked(db: Db, hits: seq<Hit>) {
    forall i, j | 0 <= i < j < |hits| :: Before(db, hits[i], hits[j])
  }

  // ── Distances ─────────────────────────────────────────────────

  function EndsOf(db: Db, ids: set<Id>): set<Entity> {
    set id, e | id in ids && id in db && e in Ends(db[id]) :: e
  }

  /** Entities within `h` hops of the anchors. */
  function Reach(db: Db, filter: Option<string>, anchors: set<Entity>, h: nat): set<Entity> {
    if h == 0 then anchors
    else
      var near := Reach(db, filter, anchors, h - 1);
      near + EndsOf(db, Matches(db, near, filter))
  }

  /** Triples with an endpoint within `h` hops. */
  function Found(db: Db, filter: Option<string>, anchors: set<Entity>, h: nat): set<Id> {
    Matches(db, Reach(db, filter, anchors, h), filter)
  }

  /** Entities at distance exactly `h`. */
  function Layer(db: Db, filter: Option<string>, anchors: set<Entity>, h: nat): set<Entity> {
    if h == 0 then anchors else Reach(db, filter, anchors, h) - Reach(db, filter, anchors, h - 1)
  }

  /** Triples nearer than `h` hops. */
  function Nearer(db: Db, filter: Option<string>, anchors: set<Entity>, h: nat): set<Id> {
    if h == 0 then {} else Found(db, filter, anchors, h - 1)
  }

  /** Two triples share an entity other than the empty one. */
  predicate Linked(a: Triple, b: Triple) {
    || (a.subj != "" && (a.subj == b.subj || a.subj == b.obj))
    || (a.obj != "" && (a.obj == b.subj || a.obj == b.obj))
  }

  /** A chain from an anchor, of triples with the predicate asked for, if any, each linked with the one before. */
  ghost predicate Chain(db: Db, filter: Option<string>, anchors: set<Entity>, p: seq<Id>) {
    && p != []
    && (forall i | 0 <= i < |p| :: p[i] in db && (filter.None? || db[p[i]].pred == filter.value))
    && (db[p[0]].subj in anchors || db[p[0]].obj in anchors)
    && (forall i | 0 < i < |p| :: Linked(db[p[i - 1]], db[p[i]]))
  }

  lemma ChainSnoc(db: Db, filter: Option<string>, anchors: set<Entity>, p: seq<Id>, id: Id)
    requires Chain(db, filter, anchors, p) && id in db && Passes(db[id], filter)
    requires Touches(db[id], Ends(db[p[|p| - 1]]))
    ensures Chain(db, filter, anchors, p + [id])
  {
  }

  /** An entity within `h` hops is an anchor or an end of the last triple of some chain of at most `h`. */
  lemma {:induction false} ReachHasChain(db: Db, filter: Option<string>, anchors: set<Entity>, h: nat, e: Entity)
    returns (p: seq<Id>)
    requires e in Reach(db, filter, anchors, h) && e !in anchors
    ensures Chain(db, filter, anchors, p) && |p| <= h && e in Ends(db[p[|p| - 1]])
    decreases h, 0
  {
    var near := Reach(db, filter, anchors, h - 1);
    if e in near {
      p := ReachHasChain(db, filter, anchors, h - 1, e);
    } else {
      var id :| id in Matches(db, near, filter) && e in Ends(db[id]);
      p := FoundHasChain(db, filter, anchors, h - 1, id);
    }
  }

  lemma {:induction false} FoundHasChain(db: Db, filter: Option<string>, anchors: set<Entity>, h: nat, id: Id)
    returns (p: seq<Id>)
    requires id in Found(db, filter, anchors, h)
    ensures Chain(db, filter, anchors, p) && |p| <= h + 1 && p[|p| - 1] == id
    decreases h, 1
  {
    if Touches(db[id], anchors) {
      p := [id];
    } else {
      var e := if db[id].subj in Reach(db, filter, anchors, h) then db[id].subj else db[id].obj;
      var q := ReachHasChain(db, filter, anchors, h, e);
      p := q + [id];
    }
  }

  lemma {:induction false} ReachGrows(db: Db, filter: Option<string>, anchors: set<Entity>, g: nat, h: nat)
    requires g <= h
    ensures Reach(db, filter, anchors, g) <= Reach(db, filter, anchors, h)
    ensures Found(db, filter, anchors, g) <= Found(db, filter, anchors, h)
  {
    if g < h { ReachGrows(db, filter, anchors, g, h - 1); }
  }

  lemma {:induction false} ChainIsFound(db: Db, filter: Option<string>, anchors: set<Entity>, p: seq<Id>)
    requires Chain(db, filter, anchors, p)
    ensures p[|p| - 1] in Found(db, filter, anchors, |p| - 1)
    decreases |p|
  {
    if |p| > 1 {
      var q, h := p[..|p| - 1], |p| - 1;
      ChainIsFound(db, filter, anchors, q);
      assert Ends(db[q[|q| - 1]]) <= EndsOf(db, Found(db, filter, anchors, h - 1));
    }
  }

  /** `Found` is the reference distance: a triple lies within `h` hops iff a chain of at most `h + 1` triples ends in
      it. */
  lemma FoundIffChain(db: Db, filter: Option<string>, anchors: set<Entity>, h: nat, id: Id)
    ensures id in Found(db, filter, anchors, h)
        <==> exists p :: Chain(db, filter, anchors, p) && |p| <= h + 1 && p[|p| - 1] == id
  {
    if id in Found(db, filter, anchors, h) {
      var p := FoundHasChain(db, filter, anchors, h, id);
    }
    if p :| Chain(db, filter, anchors, p) && |p| <= h + 1 && p[|p| - 1] == id {
      ChainIsFound(db, filter, anchors, p);
      ReachGrows(db, filter, anchors, |p| - 1, h);
    }
  }

  // ── One hop ───────────────────────────────────────────────────

  /** What one new row changes. */
  lemma AddRowEffect(db: Db, g: Frontier, id: Id)
    requires id in db && id !in g.visited && NoDup(g.hits) && SetOf(g.hits) <= g.visited
    ensures var g' := AddRow(db, g, id);
            && g'.visited == g.visited + {id}
            && NoDup(g'.hits) && SetOf(g'.hits) == SetOf(g.hits) + {id}
            && g'.seen == g.seen + Ends(db[id])
            && SetOf(g'.next) == SetOf(g.next) + (g'.seen - g.seen)
  {
    var g1 := g.(visited := g.visited + {id}, hits := g.hits + [id]);
    AddEntitiesEffect(g1, Neighbors(db[id]));
    assert SetOf(Neighbors(db[id])) == Ends(db[id]);
    assert SetOf(g.hits + [id]) == SetOf(g.hits) + {id};
  }

  lemma EndsOfOne(db: Db, ids: set<Id>, id: Id)
    requires id in db
    ensures EndsOf(db, ids + {id}) == EndsOf(db, ids) + Ends(db[id])
  {
  }

  lemma {:induction false} AddRowsEffect(db: Db, f: Frontier, rows: seq<Id>)
    requires SetOf(rows) <= db.Keys && NoDup(f.hits) && SetOf(f.hits) <= f.visited
    ensures var g, unseen := AddRows(db, f, rows), SetOf(rows) - f.visited;
            && g.visited == f.visited + unseen
            && NoDup(g.hits) && SetOf(g.hits) == SetOf(f.hits) + unseen
            && g.seen == f.seen + EndsOf(db, unseen)
            && SetOf(g.next) == SetOf(f.next) + (g.seen - f.seen)
  {
    hide SetOf; hide NoDup; hide EndsOf; hide AddRow; hide Ends;
    if rows == [] {
      NoneOf<Id>();
      NoEnds(db);
      assert SetOf(rows) - f.visited == {};
    } else {
      var before, id := rows[..|rows| - 1], rows[|rows| - 1];
      assert rows == before + [id];
      SetOfSnoc(before, id);
      AddRowsEffect(db, f, before);
      var g, unseen := AddRows(db, f, before), SetOf(before) - f.visited;
      if id !in g.visited {
        AddRowEffect(db, g, id);
        EndsOfOne(db, unseen, id);
        assert SetOf(rows) - f.visited == unseen + {id};
      } else {
        AddOldRow(db, g, id);
        assert SetOf(rows) - f.visited == unseen;
      }
    }
  }

  lemma AddOldRow(db: Db, g: Frontier, id: Id)
    requires id in g.visited
    ensures AddRow(db, g, id) == g
  {
  }

  lemma NoEnds(db: Db)
    ensures EndsOf(db, {}) == {}
  {
  }

  lemma {:induction false} AddEntitiesEffect(f: Frontier, es: seq<Entity>)
    ensures var g := AddEntities(f, es);
            && g.visited == f.visited && g.hits == f.hits && g.seen == f.seen + SetOf(es)
            && SetOf(g.next) == SetOf(f.next) + (g.seen - f.seen)
  {
    if es != [] {
      var before, e := es[..|es| - 1], es[|es| - 1];
      AddEntitiesEffect(f, before);
      assert es == before + [e];
      SetOfSnoc(before, e);
      SetOfSnoc(AddEntities(f, before).next, e);
    }
  }

  lemma FoundSplits(db: Db, filter: Option<string>, anchors: set<Entity>, h: nat)
    ensures Found(db, filter, anchors, h)
         == Nearer(db, filter, anchors, h) + Matches(db, Layer(db, filter, anchors, h), filter)
    ensures Reach(db, filter, anchors, h + 1)
         == Reach(db, filter, anchors, h) + EndsOf(db, Found(db, filter, anchors, h) - Nearer(db, filter, anchors, h))
  {
    var near := Nearer(db, filter, anchors, h);
    if h > 0 {
      ReachGrows(db, filter, anchors, h - 1, h);
      assert EndsOf(db, near) <= Reach(db, filter, anchors, h);
    }
    var found := Found(db, filter, anchors, h);
    assert EndsOf(db, found) <= EndsOf(db, near) + EndsOf(db, found - near);
  }

  /** The search stands before hop `h` with exactly what is nearer already visited. */
  ghost predicate OnTrack(db: Db, filter: Option<string>, anchors: set<Entity>, h: nat,
                          current: seq<Entity>, seen: set<Entity>, visited: set<Id>) {
    && SetOf(current) == Layer(db, filter, anchors, h)
    && seen == Reach(db, filter, anchors, h)
    && visited == Nearer(db, filter, anchors, h)
  }

  /** Hop `h` loses nothing to the limit: all its rows fit, or none of them is new. */
  ghost predicate Fits(db: Db, filter: Option<string>, anchors: set<Entity>, limit: nat, h: nat) {
    var layer := Layer(db, filter, anchors, h);
    var m := Matches(db, layer, filter);
    layer == {} || |m| <= limit || m <= Nearer(db, filter, anchors, h)
  }

  /** The new rows of a hop that fits are all new rows there are. */
  lemma NewRows(db: Db, filter: Option<string>, anchors: set<Entity>, limit: nat, h: nat, rows: seq<Id>)
    requires ValidAnswer(db, filter, limit, Layer(db, filter, anchors, h), rows)
    requires Layer(db, filter, anchors, h) != {} && Fits(db, filter, anchors, limit, h)
    ensures SetOf(rows) <= db.Keys
    ensures SetOf(rows) - Nearer(db, filter, anchors, h)
         == Found(db, filter, anchors, h) - Nearer(db, filter, anchors, h)
  {
    hide Reach; hide Found; hide Nearer; hide Layer; hide NoDup;
    var near, m := Nearer(db, filter, anchors, h), Matches(db, Layer(db, filter, anchors, h), filter);
    FoundSplits(db, filter, anchors, h);
    if |m| <= limit {
      DistinctCount(rows);
      FullSubset(SetOf(rows), m);
    }
    assert m <= db.Keys;
  }

  lemma HopOnTrack(db: Db, filter: Option<string>, anchors: set<Entity>, limit: nat, h: nat,
                   current: seq<Entity>, rows: seq<Id>)
    requires current != [] && SetOf(current) == Layer(db, filter, anchors, h)
    requires ValidAnswer(db, filter, limit, SetOf(current), rows) && Fits(db, filter, anchors, limit, h)
    ensures var f := AddRows(db, Frontier(Nearer(db, filter, anchors, h), Reach(db, filter, anchors, h), [], []), rows);
            && NoDup(f.hits) && SetOf(f.hits) == Found(db, filter, anchors, h) - Nearer(db, filter, anchors, h)
            && OnTrack(db, filter, anchors, h + 1, f.next, f.seen, f.visited)
  {
    hide Reach; hide Found; hide Nearer; hide Layer; hide AddRows; hide Matches; hide EndsOf; hide Fits;
    hide ValidAnswer;
    var near, seen := Nearer(db, filter, anchors, h), Reach(db, filter, anchors, h);
    assert current[0] in SetOf(current);
    NewRows(db, filter, anchors, limit, h, rows);
    FoundSplits(db, filter, anchors, h);
    NearerStep(db, filter, anchors, h);
    NoneOf<Id>();
    NoneOf<Entity>();
    hide SetOf; hide NoDup;
    AddRowsEffect(db, Frontier(near, seen, [], []), rows);
  }

  lemma NearerStep(db: Db, filter: Option<string>, anchors: set<Entity>, h: nat)
    ensures Nearer(db, filter, anchors, h + 1) == Found(db, filter, anchors, h)
    ensures Nearer(db, filter, anchors, h) <= Found(db, filter, anchors, h)
    ensures Layer(db, filter, anchors, h + 1) == Reach(db, filter, anchors, h + 1) - Reach(db, filter, anchors, h)
  {
    if h > 0 { ReachGrows(db, filter, anchors, h - 1, h); }
  }

  // ── Exactness ─────────────────────────────────────────────────

  /** Every filtered triple within `maxHops`, once, under its distance; and nothing else. */
  ghost predicate Exact(db: Db, filter: Option<string>, anchors: set<Entity>, maxHops: nat, hits: seq<Hit>) {
    && NoTripleTwice(hits)
    && (forall id, k: nat :: (id, k) in hits
          <==> k <= maxHops && id in Found(db, filter, anchors, k) - Nearer(db, filter, anchors, k))
  }

  lemma {:induction false} NothingBeyondEmptyLayer(db: Db, filter: Option<string>, anchors: set<Entity>, h: nat, k: nat)
    requires Layer(db, filter, anchors, h) == {} && h <= k
    ensures Layer(db, filter, anchors, k) == {} && Found(db, filter, anchors, k) <= Nearer(db, filter, anchors, k)
  {
    if h < k { NothingBeyondEmptyLayer(db, filter, anchors, h, k - 1); }
    if k > 0 {
      FoundSplits(db, filter, anchors, k - 1);
    }
    FoundSplits(db, filter, anchors, k);
  }

  lemma LabelMembers(ids: seq<Id>, hop: nat, rest: seq<Hit>, id: Id, k: nat)
    ensures (id, k) in Label(ids, hop) + rest <==> (k == hop && id in SetOf(ids)) || (id, k) in rest
  {
    if k == hop && id in SetOf(ids) {
      var i :| 0 <= i < |ids| && ids[i] == id;
      assert (Label(ids, hop) + rest)[i] == (id, k);
    }
    if (id, k) in rest {
      var i :| 0 <= i < |rest| && rest[i] == (id, k);
      assert (Label(ids, hop) + rest)[|ids| + i] == (id, k);
    }
  }

  lemma {:induction false} HopsExact(db: Db, filter: Option<string>, anchors: set<Entity>, limit: nat, engine: Engine,
                                     current: seq<Entity>, h: nat, maxHops: nat)
    requires Answers(engine, db, filter, limit)
    requires SetOf(current) == Layer(db, filter, anchors, h)
    requires forall g: nat | h <= g <= maxHops :: Fits(db, filter, anchors, limit, g)
    ensures var seen, near := Reach(db, filter, anchors, h), Nearer(db, filter, anchors, h);
            var hits := Hops(db, engine, current, seen, near, h, maxHops);
            && (forall i, j | 0 <= i < j < |hits| :: hits[i].0 != hits[j].0)
            && (forall id, k: nat :: (id, k) in hits
                  <==> h <= k <= maxHops && id in Found(db, filter, anchors, k) - Nearer(db, filter, anchors, k))
    decreases maxHops + 1 - h
  {
    hide Matches; hide Reach; hide ValidAnswer; hide Found; hide Nearer; hide Layer; hide AddRows;
    if h > maxHops {
    } else if current == [] {
      forall k: nat | h <= k
        ensures Found(db, filter, anchors, k) <= Nearer(db, filter, anchors, k)
      { NothingBeyondEmptyLayer(db, filter, anchors, h, k); }
    } else {
      var near, seen := Nearer(db, filter, anchors, h), Reach(db, filter, anchors, h);
      var f := AddRows(db, Frontier(near, seen, [], []), engine(current));
      HopOnTrack(db, filter, anchors, limit, h, current, engine(current));
      HopsExact(db, filter, anchors, limit, engine, f.next, h + 1, maxHops);
      var rest := Hops(db, engine, f.next, f.seen, f.visited, h + 1, maxHops);
      forall id, k: nat
        ensures (id, k) in Label(f.hits, h) + rest <==> (k == h && id in SetOf(f.hits)) || (id, k) in rest
      {
        LabelMembers(f.hits, h, rest, id, k);
      }
      forall j | 0 <= j < |rest| ensures rest[j].0 !in SetOf(f.hits) {
        assert (rest[j].0, rest[j].1) in rest;
        NearerGrows(db, filter, anchors, h, rest[j].1);
      }
    }
  }

  lemma NearerGrows(db: Db, filter: Option<string>, anchors: set<Entity>, h: nat, k: nat)
    requires h < k
    ensures Found(db, filter, anchors, h) <= Nearer(db, filter, anchors, k)
  {
    ReachGrows(db, filter, anchors, h, k - 1);
  }

  /** Whatever rows the engine picks, the result is exact as long as no hop loses a new row to the limit. */
  lemma ExactIfFits(db: Db, filter: Option<string>, anchors: seq<Entity>, limit: nat, engine: Engine, maxHops: nat)
    requires Answers(engine, db, filter, limit)
    requires forall h: nat | h <= maxHops :: Fits(db, filter, SetOf(anchors), limit, h)
    ensures Exact(db, filter, SetOf(anchors), maxHops, Hits(db, engine, anchors, maxHops, limit))
  {
    HopsExact(db, filter, SetOf(anchors), limit, engine, anchors, 0, maxHops);
    if limit == 0 { NothingUnderZeroLimit(db, filter, anchors, engine, maxHops); }
  }

  lemma NothingUnderZeroLimit(db: Db, filter: Option<string>, anchors: seq<Entity>, engine: Engine, maxHops: nat)
    requires Answers(engine, db, filter, 0)
    ensures Hops(db, engine, anchors, SetOf(anchors), {}, 0, maxHops) == []
  {
    if anchors != [] {
      assert ValidAnswer(db, filter, 0, SetOf(anchors), engine(anchors));
      assert engine(anchors) == [];
    }
  }

  // ── The limit can lose rows ───────────────────────────────────

  ghost function Listing(s: set<Id>): (r: seq<Id>)
    ensures NoDup(r) && SetOf(r) == s && |r| == |s|
  {
    if s == {} then []
    else
      var x :| x in s;
      var rest := Listing(s - {x});
      SetOfSnoc(rest, x);
      rest + [x]
  }

  /** An engine that leaves out row `x` whenever the limit allows it. */
  ghost function Avoiding(db: Db, filter: Option<string>, limit: nat, x: Id): Engine {
    (es: seq<Entity>) =>
      var m := Matches(db, SetOf(es), filter);
      if |m| <= limit then Listing(m) else Listing(if x in m then m - {x} else m)[..limit]
  }

  lemma PrefixOfListing(s: set<Id>, n: nat)
    requires n <= |s|
    ensures NoDup(Listing(s)[..n]) && SetOf(Listing(s)[..n]) <= s
  {
    var l := Listing(s);
    forall y | y in l[..n] ensures y in s { assert y in SetOf(l); }
  }

  lemma AvoidingAnswers(db: Db, filter: Option<string>, limit: nat, x: Id)
    ensures Answers(Avoiding(db, filter, limit, x), db, filter, limit)
    ensures forall es: seq<Entity> | |Matches(db, SetOf(es), filter)| > limit ::
        x !in Avoiding(db, filter, limit, x)(es)
  {
    hide ValidAnswer; hide Matches; hide SetOf; hide Avoiding;
    forall es: seq<Entity>
      ensures ValidAnswer(db, filter, limit, SetOf(es), Avoiding(db, filter, limit, x)(es))
      ensures |Matches(db, SetOf(es), filter)| > limit ==> x !in Avoiding(db, filter, limit, x)(es)
    {
      AvoidingAnswer(db, filter, limit, x, es);
    }
  }

  lemma AvoidingAnswer(db: Db, filter: Option<string>, limit: nat, x: Id, es: seq<Entity>)
    ensures ValidAnswer(db, filter, limit, SetOf(es), Avoiding(db, filter, limit, x)(es))
    ensures |Matches(db, SetOf(es), filter)| > limit ==> x !in Avoiding(db, filter, limit, x)(es)
  {
    hide Matches; hide NoDup;
    var m := Matches(db, SetOf(es), filter);
    if |m| > limit {
      var kept := if x in m then m - {x} else m;
      PrefixOfListing(kept, limit);
      assert x !in SetOf(Listing(kept)[..limit]);
    }
  }

  lemma {:induction false} LabelsFrom(db: Db, engine: Engine, current: seq<Entity>, seen: set<Entity>, visited: set<Id>,
                                      hop: nat, maxHops: nat)
    ensures forall hit | hit in Hops(db, engine, current, seen, visited, hop, maxHops) :: hop <= hit.1
    decreases maxHops + 1 - hop
  {
    hide AddRows;
    if hop <= maxHops && current != [] {
      var f := AddRows(db, Frontier(visited, seen, [], []), engine(current));
      LabelsFrom(db, engine, f.next, f.seen, f.visited, hop + 1, maxHops);
    }
  }

  lemma {:induction false} HopsAvoid(db: Db, filter: Option<string>, anchors: set<Entity>, limit: nat, x: Id,
                                     current: seq<Entity>, k: nat, h: nat, maxHops: nat)
    requires k <= h && SetOf(current) == Layer(db, filter, anchors, k)
    requires forall g: nat | g < h :: Fits(db, filter, anchors, limit, g)
    requires |Matches(db, Layer(db, filter, anchors, h), filter)| > limit
    ensures (x, h) !in Hops(db, Avoiding(db, filter, limit, x), current,
                            Reach(db, filter, anchors, k), Nearer(db, filter, anchors, k), k, maxHops)
    decreases h - k
  {
    hide Matches; hide Reach; hide ValidAnswer; hide Found; hide Nearer; hide Layer; hide AddRows; hide Avoiding;
    hide Fits;
    if k <= maxHops && current != [] {
      var engine := Avoiding(db, filter, limit, x);
      AvoidingAnswers(db, filter, limit, x);
      var near, seen := Nearer(db, filter, anchors, k), Reach(db, filter, anchors, k);
      var f := AddRows(db, Frontier(near, seen, [], []), engine(current));
      var rest := Hops(db, engine, f.next, f.seen, f.visited, k + 1, maxHops);
      LabelMembers(f.hits, k, rest, x, h);
      if k < h {
        HopOnTrack(db, filter, anchors, limit, k, current, engine(current));
        HopsAvoid(db, filter, anchors, limit, x, f.next, k + 1, h, maxHops);
      } else {
        LabelsFrom(db, engine, f.next, f.seen, f.visited, k + 1, maxHops);
        RowsOnly(db, filter, limit, near, seen, current, engine(current));
      }
    }
  }

  lemma RowsOnly(db: Db, filter: Option<string>, limit: nat, near: set<Id>, seen: set<Entity>, current: seq<Entity>,
                 rows: seq<Id>)
    requires ValidAnswer(db, filter, limit, SetOf(current), rows)
    ensures var f := AddRows(db, Frontier(near, seen, [], []), rows);
            && NoDup(f.hits) && f.visited == near + (SetOf(rows) - near) && SetOf(f.hits) == SetOf(rows) - near
            && SetOf(f.next) <= EndsOf(db, SetOf(rows) - near)
  {
    AddRowsEffect(db, Frontier(near, seen, [], []), rows);
  }

  /** Where some hop has more matching rows than the limit and one of them is new, an engine can make the result
      inexact. */
  lemma InexactUnlessFits(db: Db, filter: Option<string>, anchors: seq<Entity>, limit: nat, maxHops: nat)
    returns (engine: Engine)
    requires exists h: nat :: h <= maxHops && !Fits(db, filter, SetOf(anchors), limit, h)
    ensures Answers(engine, db, filter, limit)
    ensures !Exact(db, filter, SetOf(anchors), maxHops, Hits(db, engine, anchors, maxHops, limit))
  {
    hide Hops; hide Fits; hide Exact; hide Answers;
    var a, h := SetOf(anchors), 0;
    while Fits(db, filter, a, limit, h)
      invariant h <= maxHops && forall g: nat | g < h :: Fits(db, filter, a, limit, g)
      decreases maxHops - h
    {
      h := h + 1;
    }
    engine := LosesRow(db, filter, anchors, limit, h, maxHops);
  }

  /** The first hop that does not fit can lose a new row. */
  lemma LosesRow(db: Db, filter: Option<string>, anchors: seq<Entity>, limit: nat, h: nat, maxHops: nat)
    returns (engine: Engine)
    requires h <= maxHops && !Fits(db, filter, SetOf(anchors), limit, h)
    requires forall g: nat | g < h :: Fits(db, filter, SetOf(anchors), limit, g)
    ensures Answers(engine, db, filter, limit)
    ensures !Exact(db, filter, SetOf(anchors), maxHops, Hits(db, engine, anchors, maxHops, limit))
  {
    var a := SetOf(anchors);
    var m, near := Matches(db, Layer(db, filter, a, h), filter), Nearer(db, filter, a, h);
    assert |m| > limit && !(m <= near);
    hide Fits; hide Hops; hide Matches; hide Layer; hide Found; hide Nearer; hide Reach; hide Avoiding; hide Answers;
    var x :| x in m && x !in near;
    engine := Avoiding(db, filter, limit, x);
    AvoidingAnswers(db, filter, limit, x);
    NothingNearYet(db, filter, a);
    HopsAvoid(db, filter, a, limit, x, anchors, 0, h, maxHops);
    FoundSplits(db, filter, a, h);
    assert (x, h) !in Hits(db, engine, anchors, maxHops, limit);
  }

  lemma NothingNearYet(db: Db, filter: Option<string>, anchors: set<Entity>)
    ensures Reach(db, filter, anchors, 0) == anchors == Layer(db, filter, anchors, 0)
    ensures Nearer(db, filter, anchors, 0) == {}
  {
  }

  /** Two triples at one anchor, and a limit of one. */
  const PAIR: Db := map["x" := Triple("a", "p", "b", 1.0), "y" := Triple("a", "p", "c", 1.0)]

  /** And a third triple at the other end of the first. */
  const TRIO: Db := PAIR["z" := Triple("b", "p", "d", 1.0)]

  lemma OneOfTwoIsLost() returns (engine: Engine)
    ensures Answers(engine, PAIR, None, 1)
    ensures !Exact(PAIR, None, SetOf(["a"]), 0, Hits(PAIR, engine, ["a"], 0, 1))
  {
    PairMatches();
    assert !Fits(PAIR, None, {"a"}, 1, 0) by { assert "x" in {"x", "y"}; }
    engine := InexactUnlessFits(PAIR, None, ["a"], 1, 0);
  }

  lemma PairMatches()
    ensures Matches(PAIR, {"a"}, None) == {"x", "y"} == Matches(TRIO, {"a"}, None)
    ensures SetOf(["a"]) == {"a"}
  {
    assert ["a"][0] == "a";
  }

  /** With a limit of two everything new would fit every hop; but the second hop matches the two triples of the first
      again, and an engine may return just these. */
  lemma VisitedRowsCount() returns (engine: Engine)
    ensures forall h: nat :: |Found(TRIO, None, {"a"}, h) - Nearer(TRIO, None, {"a"}, h)| <= 2
    ensures Answers(engine, TRIO, None, 2)
    ensures !Exact(TRIO, None, SetOf(["a"]), 1, Hits(TRIO, engine, ["a"], 1, 2))
  {
    forall h: nat ensures |Found(TRIO, None, {"a"}, h) - Nearer(TRIO, None, {"a"}, h)| <= 2 {
      TrioNews(h);
    }
    PairMatches();
    TrioFits();
    engine := InexactUnlessFits(TRIO, None, ["a"], 2, 1);
  }

  lemma TrioNews(h: nat)
    ensures |Found(TRIO, None, {"a"}, h) - Nearer(TRIO, None, {"a"}, h)| <= 2
  {
    TrioFound();
    hide Found;
    if h == 1 {
      assert {"x", "y", "z"} - {"x", "y"} == {"z"};
    } else if h > 1 {
      TrioDone(h);
      TrioDone(h - 1);
      assert Found(TRIO, None, {"a"}, h) - Nearer(TRIO, None, {"a"}, h) == {};
    }
  }

  lemma TrioFound()
    ensures Found(TRIO, None, {"a"}, 0) == {"x", "y"} && Found(TRIO, None, {"a"}, 1) == {"x", "y", "z"}
    ensures TRIO.Keys == {"x", "y", "z"}
  {
    PairMatches();
    TrioReach();
    hide Matches;
  }

  lemma TrioFits()
    ensures !Fits(TRIO, None, {"a"}, 2, 1)
  {
    TrioReach();
    TrioFound();
    hide Matches; hide Found; hide Reach;
    assert Reach(TRIO, None, {"a"}, 0) == {"a"} by { NothingNearYet(TRIO, None, {"a"}); }
    assert Layer(TRIO, None, {"a"}, 1) == {"b", "c"};
    assert |{"x", "y", "z"}| == 3;
    assert "z" in {"x", "y", "z"};
  }

  lemma TrioReach()
    ensures Reach(TRIO, None, {"a"}, 1) == {"a", "b", "c"}
    ensures Matches(TRIO, {"b", "c"}, None) == Matches(TRIO, {"a", "b", "c"}, None) == {"x", "y", "z"}
  {
    PairMatches();
    assert Ends(TRIO["x"]) == {"a", "b"} && Ends(TRIO["y"]) == {"a", "c"};
    EndsOfOne(TRIO, {}, "x");
    EndsOfOne(TRIO, {} + {"x"}, "y");
    NoEnds(TRIO);
    assert {} + {"x"} + {"y"} == {"x", "y"};
    assert {} + {"a", "b"} + {"a", "c"} == {"a", "b", "c"};
  }

  lemma TrioDone(h: nat)
    requires h >= 1
    ensures {"x", "y", "z"} <= Found(TRIO, None, {"a"}, h) && Found(TRIO, None, {"a"}, h) <= TRIO.Keys
  {
    TrioReach();
    ReachGrows(TRIO, None, {"a"}, 1, h);
  }

  // ── With or without truncation ────────────────────────────────

  ghost predicate Backed(db: Db, filter: Option<string>, anchors: set<Entity>, id: Id, k: nat) {
    exists p :: Chain(db, filter, anchors, p) && |p| == k + 1 && p[|p| - 1] == id
  }

  ghost predicate EntityBacked(db: Db, filter: Option<string>, anchors: set<Entity>, e: Entity, h: nat) {
    if h == 0 then e in anchors
    else exists id :: Backed(db, filter, anchors, id, h - 1) && id in db && e in Ends(db[id])
  }

  lemma RowBacked(db: Db, filter: Option<string>, anchors: set<Entity>, current: set<Entity>, h: nat, id: Id)
    requires forall e | e in current :: EntityBacked(db, filter, anchors, e, h)
    requires id in Matches(db, current, filter)
    ensures Backed(db, filter, anchors, id, h)
  {
    var e := if db[id].subj in current then db[id].subj else db[id].obj;
    if h == 0 {
      assert Chain(db, filter, anchors, [id]) && [id][|[id]| - 1] == id;
    } else {
      var prev :| Backed(db, filter, anchors, prev, h - 1) && prev in db && e in Ends(db[prev]);
      var p :| Chain(db, filter, anchors, p) && |p| == h && p[|p| - 1] == prev;
      ChainSnoc(db, filter, anchors, p, id);
      assert (p + [id])[|p + [id]| - 1] == id;
    }
  }

  lemma {:induction false} HopsSound(db: Db, filter: Option<string>, anchors: set<Entity>, limit: nat, engine: Engine,
                                     current: seq<Entity>, seen: set<Entity>, visited: set<Id>, h: nat, maxHops: nat)
    requires Answers(engine, db, filter, limit)
    requires forall e | e in SetOf(current) :: EntityBacked(db, filter, anchors, e, h)
    ensures var hits := Hops(db, engine, current, seen, visited, h, maxHops);
            && (forall hit | hit in hits ::
                  hit.1 <= maxHops && hit.0 !in visited && Backed(db, filter, anchors, hit.0, hit.1))
            && (forall i, j | 0 <= i < j < |hits| :: hits[i].0 != hits[j].0)
    decreases maxHops + 1 - h
  {
    hide AddRows; hide Matches; hide EndsOf; hide Backed;
    if h <= maxHops && current != [] {
      var rows := engine(current);
      var f := AddRows(db, Frontier(visited, seen, [], []), rows);
      RowsOnly(db, filter, limit, visited, seen, current, rows);
      forall id | id in SetOf(rows) ensures Backed(db, filter, anchors, id, h) {
        RowBacked(db, filter, anchors, SetOf(current), h, id);
      }
      forall e | e in SetOf(f.next) ensures EntityBacked(db, filter, anchors, e, h + 1) {
        var id := EndOwner(db, SetOf(rows) - visited, e);
        assert Backed(db, filter, anchors, id, (h + 1) - 1);
      }
      HopsSound(db, filter, anchors, limit, engine, f.next, f.seen, f.visited, h + 1, maxHops);
      var rest := Hops(db, engine, f.next, f.seen, f.visited, h + 1, maxHops);
      forall hit | hit in Label(f.hits, h) + rest
        ensures hit.1 <= maxHops && hit.0 !in visited && Backed(db, filter, anchors, hit.0, hit.1)
      {
        LabelMembers(f.hits, h, rest, hit.0, hit.1);
      }
      forall j | 0 <= j < |rest| ensures rest[j].0 !in SetOf(f.hits) { assert rest[j] in rest; }
    }
  }

  lemma EndOwner(db: Db, ids: set<Id>, e: Entity) returns (id: Id)
    requires e in EndsOf(db, ids)
    ensures id in ids && id in db && e in Ends(db[id])
  {
    id :| id in ids && id in db && e in Ends(db[id]);
  }

  /** No triple twice, and every label the length of a real chain within the hops. */
  ghost predicate Sound(db: Db, filter: Option<string>, anchors: set<Entity>, maxHops: nat, hits: seq<Hit>) {
    && NoTripleTwice(hits)
    && (forall hit | hit in hits ::
          && hit.1 <= maxHops && Backed(db, filter, anchors, hit.0, hit.1)
          && hit.0 in Found(db, filter, anchors, hit.1))
  }

  /** Whatever the limit cuts off, every label is backed by a real chain of that many hops, so it is at least the
      distance; no triple appears twice. */
  lemma HitsAreSound(db: Db, filter: Option<string>, anchors: seq<Entity>, limit: nat, engine: Engine, maxHops: nat)
    requires Answers(engine, db, filter, limit)
    ensures Sound(db, filter, SetOf(anchors), maxHops, Hits(db, engine, anchors, maxHops, limit))
  {
    HopsSound(db, filter, SetOf(anchors), limit, engine, anchors, SetOf(anchors), {}, 0, maxHops);
    var hits := Hits(db, engine, anchors, maxHops, limit);
    forall hit | hit in hits ensures hit.0 in Found(db, filter, SetOf(anchors), hit.1) {
      FoundIffChain(db, filter, SetOf(anchors), hit.1, hit.0);
    }
  }

  // ── Permutations ──────────────────────────────────────────────

  predicate NoTripleTwice(hits: seq<Hit>) {
    forall i, j | 0 <= i < j < |hits| :: hits[i].0 != hits[j].0
  }

  /** An element at two positions counts twice. */
  lemma CountsTwice(hits: seq<Hit>, i: nat, j: nat)
    requires i < j < |hits| && hits[i] == hits[j]
    ensures multiset(hits)[hits[i]] >= 2
  {
    assert hits == hits[..j] + [hits[j]] + hits[j + 1..];
    assert hits[..j][i] in multiset(hits[..j]);
  }

  lemma {:induction false} CountsOnce(hits: seq<Hit>, hit: Hit)
    requires NoTripleTwice(hits)
    ensures multiset(hits)[hit] <= 1
  {
    if hits != [] {
      var front, last := hits[..|hits| - 1], hits[|hits| - 1];
      assert hits == front + [last];
      CountsOnce(front, hit);
      assert forall i | 0 <= i < |front| :: front[i] == hits[i] != last;
      assert last !in front && last !in multiset(front);
    }
  }

  lemma NoTripleTwicePermuted(hits: seq<Hit>, results: seq<Hit>)
    requires NoTripleTwice(hits) && multiset(results) == multiset(hits)
    ensures NoTripleTwice(results) && forall hit :: hit in results <==> hit in hits
  {
    forall hit ensures hit in results <==> hit in hits {
      assert hit in multiset(results) <==> hit in multiset(hits);
    }
    forall i, j | 0 <= i < j < |results| ensures results[i].0 != results[j].0 {
      assert results[i] in hits && results[j] in hits;
      if results[i] == results[j] {
        CountsTwice(results, i, j);
        CountsOnce(hits, results[i]);
      }
    }
  }

  lemma SoundPermuted(db: Db, filter: Option<string>, anchors: set<Entity>, maxHops: nat, hits: seq<Hit>,
                      results: seq<Hit>)
    requires multiset(results) == multiset(hits)
    ensures Sound(db, filter, anchors, maxHops, hits) ==> Sound(db, filter, anchors, maxHops, results)
  {
    if NoTripleTwice(hits) { NoTripleTwicePermuted(hits, results); }
  }

  lemma ExactPermuted(db: Db, filter: Option<string>, anchors: set<Entity>, maxHops: nat, hits: seq<Hit>,
                      results: seq<Hit>)
    requires multiset(results) == multiset(hits)
    ensures Exact(db, filter, anchors, maxHops, hits) ==> Exact(db, filter, anchors, maxHops, results)
  {
    if NoTripleTwice(hits) { NoTripleTwicePermuted(hits, results); }
  }

  // ── The program ───────────────────────────────────────────────

  function Insert(db: Db, hit: Hit, sorted: seq<Hit>): seq<Hit> {
    if sorted == [] || !Before(db, sorted[0], hit) then [hit] + sorted
    else [sorted[0]] + Insert(db, hit, sorted[1..])
  }

  lemma {:induction false} InsertAdds(db: Db, hit: Hit, sorted: seq<Hit>)
    ensures multiset(Insert(db, hit, sorted)) == multiset(sorted) + multiset{hit}
  {
    hide Before;
    if sorted != [] && Before(db, sorted[0], hit) {
      InsertAdds(db, hit, sorted[1..]);
      assert sorted == [sorted[0]] + sorted[1..];
    }
  }

  lemma {:induction false} InsertKeepsRanked(db: Db, hit: Hit, sorted: seq<Hit>)
    requires Ranked(db, sorted)
    ensures Ranked(db, Insert(db, hit, sorted))
  {
    if sorted != [] {
      if Before(db, sorted[0], hit) {
        var r := Insert(db, hit, sorted[1..]);
        InsertKeepsRanked(db, hit, sorted[1..]);
        InsertAdds(db, hit, sorted[1..]);
        assert forall x | x in r :: x in multiset(r);
        assert forall x | x in sorted[1..] :: Before(db, sorted[0], x);
        RankedCons(db, sorted[0], r);
      } else {
        assert forall x | x in sorted :: Before(db, hit, x);
        RankedCons(db, hit, sorted);
      }
    }
  }

  lemma RankedCons(db: Db, first: Hit, rest: seq<Hit>)
    requires Ranked(db, rest) && forall x | x in rest :: Before(db, first, x)
    ensures Ranked(db, [first] + rest)
  {
    hide Before;
    var r := [first] + rest;
    forall i, j | 0 <= i < j < |r| ensures Before(db, r[i], r[j]) {
      assert r[j] == rest[j - 1];
    }
  }

  predicate Ties(db: Db, a: Hit, b: Hit) { Before(db, a, b) && Before(db, b, a) }

  /** The hits that tie with `k`, in the order they stand in. */
  function TiesWith(db: Db, hits: seq<Hit>, k: Hit): seq<Hit> {
    if hits == [] then [] else (if Ties(db, hits[0], k) then [hits[0]] else []) + TiesWith(db, hits[1..], k)
  }

  ghost predicate Stable(db: Db, hits: seq<Hit>, sorted: seq<Hit>) {
    forall k :: TiesWith(db, sorted, k) == TiesWith(db, hits, k)
  }

  lemma {:induction false} TiesSnoc(db: Db, hits: seq<Hit>, hit: Hit, k: Hit)
    ensures TiesWith(db, hits + [hit], k) == TiesWith(db, hits, k) + if Ties(db, hit, k) then [hit] else []
  {
    hide Ties;
    if hits == [] {
      assert [] + [hit] == [hit] && [hit][1..] == [];
    } else {
      assert (hits + [hit])[1..] == hits[1..] + [hit];
      TiesSnoc(db, hits[1..], hit, k);
    }
  }

  lemma TiesCons(db: Db, first: Hit, rest: seq<Hit>, k: Hit)
    ensures TiesWith(db, [first] + rest, k) == (if Ties(db, first, k) then [first] else []) + TiesWith(db, rest, k)
  {
    hide Ties;
    assert ([first] + rest)[1..] == rest;
  }

  lemma {:induction false} NoTies(db: Db, hits: seq<Hit>, k: Hit)
    requires forall x | x in hits :: !Ties(db, x, k)
    ensures TiesWith(db, hits, k) == []
  {
    if hits != [] { NoTies(db, hits[1..], k); }
  }

  lemma RankedParts(db: Db, hits: seq<Hit>)
    requires Ranked(db, hits) && hits != []
    ensures Ranked(db, hits[1..]) && forall x | x in hits :: x == hits[0] || Before(db, hits[0], x)
  {
  }

  lemma NoTieBehind(db: Db, hit: Hit, first: Hit, x: Hit, k: Hit)
    requires !Before(db, first, hit) && (x == first || Before(db, first, x)) && Ties(db, hit, k)
    ensures !Ties(db, x, k)
  {
  }

  /** A hit is inserted behind all that tie with it. */
  lemma {:induction false} InsertIsStable(db: Db, hit: Hit, sorted: seq<Hit>, k: Hit)
    requires Ranked(db, sorted)
    ensures TiesWith(db, Insert(db, hit, sorted), k) == TiesWith(db, sorted, k) + if Ties(db, hit, k) then [hit] else []
  {
    hide Before; hide Ties; hide Ranked;
    if sorted != [] {
      RankedParts(db, sorted);
      if Before(db, sorted[0], hit) {
        InsertIsStable(db, hit, sorted[1..], k);
        TiesCons(db, sorted[0], Insert(db, hit, sorted[1..]), k);
      } else {
        TiesCons(db, hit, sorted, k);
        if Ties(db, hit, k) {
          forall x | x in sorted ensures !Ties(db, x, k) { NoTieBehind(db, hit, sorted[0], x, k); }
          NoTies(db, sorted, k);
        }
      }
    }
  }

  /** The final sort; ties keep their order. */
  method SortHits(db: Db, hits: seq<Hit>) returns (sorted: seq<Hit>)
    ensures Ranked(db, sorted) && multiset(sorted) == multiset(hits) && Stable(db, hits, sorted)
  {
    hide Ranked; hide Insert; hide TiesWith; hide Ties;
    EmptyRanked(db);
    sorted := [];
    for i := 0 to |hits|
      invariant Ranked(db, sorted) && multiset(sorted) == multiset(hits[..i]) && Stable(db, hits[..i], sorted)
    {
      InsertKeepsRanked(db, hits[i], sorted);
      InsertAdds(db, hits[i], sorted);
      assert hits[..i + 1] == hits[..i] + [hits[i]];
      forall k ensures TiesWith(db, Insert(db, hits[i], sorted), k) == TiesWith(db, hits[..i + 1], k) {
        InsertIsStable(db, hits[i], sorted, k);
        TiesSnoc(db, hits[..i], hits[i], k);
      }
      sorted := Insert(db, hits[i], sorted);
    }
    assert hits[..|hits|] == hits;
  }

  /** The body of one hop: every row not visited yet is a hit, and its unseen entities are anchors of the next hop. */
  method TakeRows(db: Db, rows: seq<Id>, hop: nat, visited0: set<Id>, seen0: set<Entity>)
    returns (hits: seq<Hit>, next: seq<Entity>, visited: set<Id>, seen: set<Entity>)
    ensures var f := AddRows(db, Frontier(visited0, seen0, [], []), rows);
            hits == Label(f.hits, hop) && next == f.next && visited == f.visited && seen == f.seen
  {
    ghost var start := Frontier(visited0, seen0, [], []);
    ghost var ids: seq<Id> := [];
    hits, next, visited, seen := [], [], visited0, seen0;
    for i := 0 to |rows|
      invariant AddRows(db, start, rows[..i]) == Frontier(visited, seen, next, ids)
      invariant hits == Label(ids, hop)
    {
      var id := rows[i];
      assert rows[..i + 1][..i] == rows[..i];
      if id !in db || id in visited { continue; }
      visited := visited + {id};
      var neighbors := Neighbors(db[id]);
      ghost var entered := Frontier(visited, seen, next, ids + [id]);
      for j := 0 to |neighbors|
        invariant AddEntities(entered, neighbors[..j]) == Frontier(visited, seen, next, ids + [id])
      {
        assert neighbors[..j + 1][..j] == neighbors[..j];
        if neighbors[j] !in seen {
          seen := seen + {neighbors[j]};
          next := next + [neighbors[j]];
        }
      }
      assert neighbors[..|neighbors|] == neighbors;
      hits := hits + [(id, hop)];
      ids := ids + [id];
    }
    assert rows[..|rows|] == rows;
  }

  lemma HopsUnfold(db: Db, engine: Engine, current: seq<Entity>, seen: set<Entity>, visited: set<Id>, hop: nat,
                   maxHops: nat)
    ensures Hops(db, engine, current, seen, visited, hop, maxHops) ==
      if hop > maxHops || current == [] then []
      else
        var f := AddRows(db, Frontier(visited, seen, [], []), engine(current));
        Label(f.hits, hop) + Hops(db, engine, f.next, f.seen, f.visited, hop + 1, maxHops)
  {
  }

  lemma RankedPairs(db: Db, hits: seq<Hit>)
    requires Ranked(db, hits)
    ensures forall i, j | 0 <= i < j < |hits| :: hits[i].1 < hits[j].1
              || (hits[i].1 == hits[j].1 && Strength(db, hits[i].0) >= Strength(db, hits[j].0))
  {
  }

  lemma EmptyRanked(db: Db)
    ensures Ranked(db, [])
  {
  }

  /** What the caller gets: hits ranked, ties in the order found, sound, and exact if the limit cuts nothing off. */
  method GraphExpandMulti(db: Db, engine: Engine, anchors: seq<Entity>, maxHops: nat, limit: nat,
                          ghost filter: Option<string>) returns (results: seq<Hit>)
    requires Answers(engine, db, filter, limit)
    ensures forall i, j | 0 <= i < j < |results| :: results[i].1 < results[j].1
              || (results[i].1 == results[j].1 && Strength(db, results[i].0) >= Strength(db, results[j].0))
    ensures Stable(db, Hits(db, engine, anchors, maxHops, limit), results)
    ensures multiset(results) == multiset(Hits(db, engine, anchors, maxHops, limit))
    ensures Sound(db, filter, SetOf(anchors), maxHops, results)
    ensures (forall h: nat | h <= maxHops :: Fits(db, filter, SetOf(anchors), limit, h)) ==>
              Exact(db, filter, SetOf(anchors), maxHops, results)
  {
    hide AddRows; hide Label; hide Hops; hide SetOf; hide Ranked; hide Exact; hide Sound; hide Fits; hide Answers;
    hide Stable;
    HopsUnfold(db, engine, anchors, SetOf(anchors), {}, 0, maxHops);
    HitsAreSound(db, filter, anchors, limit, engine, maxHops);
    if forall h: nat | h <= maxHops :: Fits(db, filter, SetOf(anchors), limit, h) {
      ExactIfFits(db, filter, anchors, limit, engine, maxHops);
    }
    EmptyRanked(db);
    StableItself(db, []);
    if anchors == [] || limit == 0 { return []; }
    var hits := Expand(db, engine, anchors, maxHops);
    results := SortHits(db, hits);
    RankedPairs(db, results);
    SoundPermuted(db, filter, SetOf(anchors), maxHops, hits, results);
    ExactPermuted(db, filter, SetOf(anchors), maxHops, hits, results);
  }

  lemma StableItself(db: Db, hits: seq<Hit>)
    ensures Stable(db, hits, hits)
  {
  }

  /** The hop loop. */
  method Expand(db: Db, engine: Engine, anchors: seq<Entity>, maxHops: nat) returns (hits: seq<Hit>)
    ensures hits == Hops(db, engine, anchors, SetOf(anchors), {}, 0, maxHops)
  {
    hide AddRows; hide Label; hide Hops; hide SetOf;
    hits := [];
    var visited: set<Id> := {};
    var current, seen := anchors, SetOf(anchors);
    var hop := 0;
    while hop <= maxHops && current != []
      invariant Hops(db, engine, anchors, SetOf(anchors), {}, 0, maxHops)
             == hits + Hops(db, engine, current, seen, visited, hop, maxHops)
      decreases maxHops + 1 - hop
    {
      HopsUnfold(db, engine, current, seen, visited, hop, maxHops);
      var found;
      found, current, visited, seen := TakeRows(db, engine(current), hop, visited, seen);
      ghost var rest := Hops(db, engine, current, seen, visited, hop + 1, maxHops);
      assert hits + (found + rest) == (hits + found) + rest;
      hits := hits + found;
      hop := hop + 1;
    }
    HopsUnfold(db, engine, current, seen, visited, hop, maxHops);
  }
}
