/** Workspace identity in the memory store: one directory, one workspace (`ensure_workspace` and its neighbours).
    Tables are maps from primary keys; every method is one transaction. */
module Workspaces {
  import opened Wrappers

  type Id = string

  datatype Workspace = Workspace(cwd: string, name: string, description: string, tags: string, archived: bool,
                                 createdAt: int, updatedAt: int)

  datatype Session = Session(workspace: Option<Id>, archived: bool)

  /** The three tables; a seed is modelled by the workspace id it is stamped with. */
  datatype Db = Db(workspaces: map<Id, Workspace>, sessions: map<string, Session>, seeds: map<string, Id>)

  /** `cwd` is unique, and a session's workspace exists. */
  ghost predicate Valid(db: Db) {
    && (forall a, b | a in db.workspaces && b in db.workspaces && db.workspaces[a].cwd == db.workspaces[b].cwd ::
        a == b)
    && (forall s | s in db.sessions && db.sessions[s].workspace.Some? ::
        db.sessions[s].workspace.value in db.workspaces)
  }

  /** The workspace at a directory. */
  ghost function AtCwd(db: Db, cwd: string): Option<Id> {
    if w :| w in db.workspaces && db.workspaces[w].cwd == cwd then Some(w) else None
  }

  function Move(at: Id, from: Id, to: Id): Id { if at == from then to else at }

  function MoveSession(s: Session, from: Id, to: Id): Session {
    if s.workspace == Some(from) then s.(workspace := Some(to)) else s
  }

  /** Sessions and seeds of one workspace id are given another. */
  function Rehome(db: Db, from: Id, to: Id): Db {
    db.(sessions := map s | s in db.sessions :: MoveSession(db.sessions[s], from, to),
        seeds := map s | s in db.seeds :: Move(db.seeds[s], from, to))
  }

  ghost function Ensure(db: Db, id: Id, cwd: string, name: string, now: int): Db {
    var byCwd := AtCwd(db, cwd);
    if id in db.workspaces then
      var merged := if byCwd.Some? && byCwd.value != id
                    then Rehome(db, byCwd.value, id).(workspaces := db.workspaces - {byCwd.value}) else db;
      merged.(workspaces := merged.workspaces[id := db.workspaces[id].(cwd := cwd, name := name, updatedAt := now)])
    else if byCwd.Some? then
      var row := db.workspaces[byCwd.value].(name := name, updatedAt := now);
      Rehome(db, byCwd.value, id).(workspaces := (db.workspaces - {byCwd.value})[id := row])
    else
      db.(workspaces := db.workspaces[id := Workspace(cwd, name, "", "[]", false, now, now)])
  }

  datatype Op =
    | EnsureWorkspace(id: Id, cwd: string, name: string, now: int)
    | UpdateMetadata(id: Id, name: string, description: string, tags: string, now: int)
    | Archive(id: Id, now: int)
    | Unarchive(id: Id, now: int)
    | CreateSession(sid: string, workspace: Id)
    | InsertSeed(seed: string, workspace: Id)

  /** A session named with a workspace that does not exist violates the foreign key and is not inserted;
      one that exists already is left alone, and so is a seed. */
  ghost function Apply(db: Db, op: Op): Db {
    match op
    case EnsureWorkspace(id, cwd, name, now) => Ensure(db, id, cwd, name, now)
    case UpdateMetadata(id, name, description, tags, now) =>
      if id !in db.workspaces then db
      else db.(workspaces := db.workspaces[id := db.workspaces[id].(
             name := name, description := description, tags := tags, updatedAt := now)])
    case Archive(id, now) =>
      Db(if id in db.workspaces
         then db.workspaces[id := db.workspaces[id].(archived := true, updatedAt := now)] else db.workspaces,
         map s | s in db.sessions ::
           if db.sessions[s].workspace == Some(id) then db.sessions[s].(archived := true) else db.sessions[s],
         db.seeds)
    case Unarchive(id, now) =>
      if id !in db.workspaces then db
      else db.(workspaces := db.workspaces[id := db.workspaces[id].(archived := false, updatedAt := now)])
    case CreateSession(sid, w) =>
      if sid in db.sessions || (w != "" && w !in db.workspaces) then db
      else db.(sessions := db.sessions[sid := Session(if w == "" then None else Some(w), false)])
    case InsertSeed(seed, w) =>
      if seed in db.seeds then db else db.(seeds := db.seeds[seed := w])
  }

  class Store {
    var workspaces: map<Id, Workspace>
    var sessions: map<string, Session>
    var seeds: map<string, Id>

    constructor ()
      ensures Contents() == Db(map[], map[], map[]) && Valid(Contents())
    {
      workspaces, sessions, seeds := map[], map[], map[];
    }

    function Contents(): Db
      reads this
    {
      Db(workspaces, sessions, seeds)
    }

    /** UPDATE sessions … and UPDATE seeds … SET workspace_id = to WHERE workspace_id = from. */
    method Cascade(from: Id, to: Id)
      modifies this
      ensures Contents() == Rehome(old(Contents()), from, to)
    {
      sessions := map s | s in sessions :: MoveSession(sessions[s], from, to);
      seeds := map s | s in seeds :: Move(seeds[s], from, to);
    }

    method EnsureWorkspace(id: Id, cwd: string, name: string, now: int)
      requires Valid(Contents())
      modifies this
      ensures Contents() == Ensure(old(Contents()), id, cwd, name, now)
    {
      var rows := set w | w in workspaces && (w == id || workspaces[w].cwd == cwd);
      var byCwd: Option<Id> := None;
      if exists w :: w in rows && workspaces[w].cwd == cwd {
        var w :| w in rows && workspaces[w].cwd == cwd;
        byCwd := Some(w);
      }
      assert forall w | w in workspaces && workspaces[w].cwd == cwd :: w in rows;
      assert byCwd == AtCwd(Contents(), cwd);
      if id in rows {
        var row := workspaces[id];
        if byCwd.Some? && byCwd.value != id {
          Cascade(byCwd.value, id);
          workspaces := workspaces - {byCwd.value};
        }
        workspaces := workspaces[id := row.(cwd := cwd, name := name, updatedAt := now)];
      } else if byCwd.Some? {
        var row := workspaces[byCwd.value];
        Cascade(byCwd.value, id);
        workspaces := (workspaces - {byCwd.value})[id := row.(name := name, updatedAt := now)];
      } else {
        workspaces := workspaces[id := Workspace(cwd, name, "", "[]", false, now, now)];
      }
    }

    method UpdateWorkspaceMetadata(id: Id, name: string, description: string, tags: string, now: int) returns (n: nat)
      modifies this
      ensures Contents() == Apply(old(Contents()), UpdateMetadata(id, name, description, tags, now))
      ensures n == if id in old(workspaces) then 1 else 0
    {
      n := 0;
      if id in workspaces {
        workspaces := workspaces[id := workspaces[id].(
          name := name, description := description, tags := tags, updatedAt := now)];
        n := 1;
      }
    }

    method ArchiveWorkspace(id: Id, now: int) returns (n: nat)
      modifies this
      ensures Contents() == Apply(old(Contents()), Archive(id, now))
      ensures n == if id in old(workspaces) then 1 else 0
    {
      n := 0;
      if id in workspaces {
        workspaces := workspaces[id := workspaces[id].(archived := true, updatedAt := now)];
        n := 1;
      }
      sessions := map s | s in sessions ::
        if sessions[s].workspace == Some(id) then sessions[s].(archived := true) else sessions[s];
    }

    method UnarchiveWorkspace(id: Id, now: int) returns (n: nat)
      modifies this
      ensures Contents() == Apply(old(Contents()), Unarchive(id, now))
      ensures n == if id in old(workspaces) then 1 else 0
    {
      n := 0;
      if id in workspaces {
        workspaces := workspaces[id := workspaces[id].(archived := false, updatedAt := now)];
        n := 1;
      }
    }
  }

  // ── What one operation changes ────────────────────────────────

  /** New metadata touch the one row, and of it neither directory, archive flag nor creation time. */
  lemma MetadataOnly(db: Db, id: Id, name: string, description: string, tags: string, now: int)
    ensures var after := Apply(db, UpdateMetadata(id, name, description, tags, now));
            && after.sessions == db.sessions && after.seeds == db.seeds
            && after.workspaces.Keys == db.workspaces.Keys
            && (forall w | w in db.workspaces && w != id :: after.workspaces[w] == db.workspaces[w])
            && (id in db.workspaces ==>
                  var row := db.workspaces[id];
                  after.workspaces[id]
                  == Workspace(row.cwd, name, description, tags, row.archived, row.createdAt, now))
  {
  }

  /** Archiving flags the workspace and every session in it, and no other; unarchiving takes back the flag of the
      workspace alone, so its sessions stay archived. */
  lemma ArchivedTogether(db: Db, id: Id, now: int, later: int)
    ensures var archived := Apply(db, Archive(id, now));
            var back := Apply(archived, Unarchive(id, later));
            && archived.seeds == db.seeds == back.seeds
            && archived.workspaces.Keys == db.workspaces.Keys == back.workspaces.Keys
            && archived.sessions.Keys == db.sessions.Keys && back.sessions == archived.sessions
            && (forall w | w in db.workspaces && w != id ::
                  archived.workspaces[w] == db.workspaces[w] == back.workspaces[w])
            && (id in db.workspaces ==>
                  && archived.workspaces[id] == db.workspaces[id].(archived := true, updatedAt := now)
                  && back.workspaces[id] == db.workspaces[id].(archived := false, updatedAt := later))
            && (forall s | s in db.sessions ::
                  && archived.sessions[s].workspace == db.sessions[s].workspace
                  && (archived.sessions[s].archived <==>
                        db.sessions[s].archived || db.sessions[s].workspace == Some(id)))
  {
  }

  /** A session is created once, unarchived, without a workspace or in one that exists; a seed is stamped once, with
      whatever workspace id it comes with. */
  lemma InsertedOnce(db: Db, key: string, w: Id)
    ensures var after := Apply(db, CreateSession(key, w));
            && after.workspaces == db.workspaces && after.seeds == db.seeds
            && (forall s :: s in after.sessions <==>
                  s in db.sessions || (s == key && (w == "" || w in db.workspaces)))
            && (forall s | s in db.sessions :: after.sessions[s] == db.sessions[s])
            && (key in after.sessions && key !in db.sessions ==>
                  !after.sessions[key].archived && after.sessions[key].workspace == if w == "" then None else Some(w))
    ensures var after := Apply(db, InsertSeed(key, w));
            && after.workspaces == db.workspaces && after.sessions == db.sessions
            && after.seeds.Keys == db.seeds.Keys + {key}
            && (forall s | s in db.seeds :: after.seeds[s] == db.seeds[s])
            && (key !in db.seeds ==> after.seeds[key] == w)
  {
  }

  // ── What every run keeps ──────────────────────────────────────

  lemma EnsureKeepsValid(db: Db, id: Id, cwd: string, name: string, now: int)
    requires Valid(db)
    ensures Valid(Ensure(db, id, cwd, name, now))
  {
  }

  lemma StepKeepsValid(db: Db, op: Op)
    requires Valid(db)
    ensures Valid(Apply(db, op))
  {
    if op.EnsureWorkspace? { EnsureKeepsValid(db, op.id, op.cwd, op.name, op.now); }
  }

  ghost function Run(db: Db, ops: seq<Op>): Db {
    if ops == [] then db else Apply(Run(db, ops[..|ops| - 1]), ops[|ops| - 1])
  }

  /** Two rows with the same workspace id, each a session or a seed. */
  predicate Together(db: Db, s: string, t: string) {
    s in db.sessions && t in db.sessions && db.sessions[s].workspace == db.sessions[t].workspace
  }

  predicate SeedsTogether(db: Db, s: string, t: string) {
    s in db.seeds && t in db.seeds && db.seeds[s] == db.seeds[t]
  }

  predicate SessionWithSeed(db: Db, s: string, t: string) {
    s in db.sessions && t in db.seeds && db.sessions[s].workspace == Some(db.seeds[t])
  }

  lemma StepKeepsTogether(db: Db, op: Op, s: string, t: string)
    ensures Together(db, s, t) ==> Together(Apply(db, op), s, t)
    ensures SeedsTogether(db, s, t) ==> SeedsTogether(Apply(db, op), s, t)
    ensures SessionWithSeed(db, s, t) ==> SessionWithSeed(Apply(db, op), s, t)
    ensures db.sessions.Keys <= Apply(db, op).sessions.Keys && db.seeds.Keys <= Apply(db, op).seeds.Keys
  {
    if op.EnsureWorkspace? {
      var byCwd := AtCwd(db, op.cwd);
      var end := Ensure(db, op.id, op.cwd, op.name, op.now);
      if byCwd.Some? && byCwd.value != op.id {
        var moved := Rehome(db, byCwd.value, op.id);
        assert end.sessions == moved.sessions && end.seeds == moved.seeds;
      } else {
        assert end.sessions == db.sessions && end.seeds == db.seeds;
      }
    }
  }

  /** Over any run: directories stay unique, every session's workspace is present, no session or seed is lost, and
      sessions and seeds that once share a workspace id share one ever after. */
  lemma {:induction false} RunsKeepIdentity(db: Db, ops: seq<Op>)
    requires Valid(db)
    ensures Valid(Run(db, ops))
    ensures db.sessions.Keys <= Run(db, ops).sessions.Keys && db.seeds.Keys <= Run(db, ops).seeds.Keys
    ensures forall s, t | Together(db, s, t) :: Together(Run(db, ops), s, t)
    ensures forall s, t | SeedsTogether(db, s, t) :: SeedsTogether(Run(db, ops), s, t)
    ensures forall s, t | SessionWithSeed(db, s, t) :: SessionWithSeed(Run(db, ops), s, t)
  {
    hide Valid; hide Apply; hide Together; hide SeedsTogether; hide SessionWithSeed;
    if ops != [] {
      var before, op := ops[..|ops| - 1], ops[|ops| - 1];
      RunsKeepIdentity(db, before);
      StepKeepsValid(Run(db, before), op);
      StepKeepsTogether(Run(db, before), op, "", "");
      forall s, t | Together(db, s, t) ensures Together(Run(db, ops), s, t) {
        StepKeepsTogether(Run(db, before), op, s, t);
      }
      forall s, t | SeedsTogether(db, s, t) ensures SeedsTogether(Run(db, ops), s, t) {
        StepKeepsTogether(Run(db, before), op, s, t);
      }
      forall s, t | SessionWithSeed(db, s, t) ensures SessionWithSeed(Run(db, ops), s, t) {
        StepKeepsTogether(Run(db, before), op, s, t);
      }
    }
  }

  // ── What one call does ────────────────────────────────────────

  /** The row that survives the call: the named one, else the one at the directory. */
  ghost function Survivor(db: Db, id: Id, cwd: string): Option<Id> {
    if id in db.workspaces then Some(id) else AtCwd(db, cwd)
  }

  /** The named id ends at the named directory, with the surviving row's metadata, flag and age; all rows but its own
      and the one it replaces stay as they were. */
  lemma EnsureLands(db: Db, id: Id, cwd: string, name: string, now: int)
    requires Valid(db)
    ensures var end, from, there := Ensure(db, id, cwd, name, now), Survivor(db, id, cwd), AtCwd(db, cwd);
      && id in end.workspaces && end.workspaces[id].cwd == cwd && end.workspaces[id].name == name
      && end.workspaces[id] == (if from.Some?
                                then db.workspaces[from.value].(cwd := cwd, name := name, updatedAt := now)
                                else Workspace(cwd, name, "", "[]", false, now, now))
      && (forall w | w != id :: w in end.workspaces <==> w in db.workspaces && Some(w) != there)
      && (forall w | w != id && w in end.workspaces :: end.workspaces[w] == db.workspaces[w])
  {
  }

  /** It takes over the sessions and seeds of whoever was at the directory; no other one moves and none is lost. */
  lemma EnsureTakesOver(db: Db, id: Id, cwd: string, name: string, now: int)
    requires Valid(db)
    ensures var end, there := Ensure(db, id, cwd, name, now), AtCwd(db, cwd);
      && end.sessions.Keys == db.sessions.Keys && end.seeds.Keys == db.seeds.Keys
      && (forall s | s in db.sessions ::
            end.sessions[s] == if db.sessions[s].workspace.Some? && db.sessions[s].workspace == there
                               then db.sessions[s].(workspace := Some(id)) else db.sessions[s])
      && (forall s | s in db.seeds :: end.seeds[s] == if Some(db.seeds[s]) == there then id else db.seeds[s])
  {
  }

  /** Repeating the call changes nothing but the timestamp. */
  lemma EnsureAgain(db: Db, id: Id, cwd: string, name: string, now: int, later: int)
    requires Valid(db)
    ensures var once := Ensure(db, id, cwd, name, now);
      Ensure(once, id, cwd, name, later)
      == once.(workspaces := once.workspaces[id := once.workspaces[id].(updatedAt := later)])
  {
    EnsureLands(db, id, cwd, name, now);
    EnsureTakesOver(db, id, cwd, name, now);
    EnsureKeepsValid(db, id, cwd, name, now);
    var once := Ensure(db, id, cwd, name, now);
    assert AtCwd(once, cwd) == Some(id);
  }
}
