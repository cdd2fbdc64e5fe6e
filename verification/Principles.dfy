/** Learned principles tightening a policy result (`tighten`, `apply_layer4`), seen as a join. */
module Principles {
  datatype Mode = Direct | Guarded | Sandbox | Denied

  datatype Gate = Permission(reason: string) | UserConfirmation(reason: string) | SandboxIsolation | CodeReview

  datatype GateKind = PermissionGate | ConfirmationGate | IsolationGate | ReviewGate

  datatype Result = Result(name: string, mode: Mode, audit: bool, maxRetries: nat, chain: seq<Gate>, layer: nat)

  datatype Constraint =
    | AddGuard(gate: string, reason: string)
    | EscalateTo(mode: string, reason: string)
    | RequireAudit(reason: string)

  datatype Principle = Principle(key: string, constraint: Constraint)

  function Level(m: Mode): nat {
    match m case Direct => 0 case Guarded => 1 case Sandbox => 2 case Denied => 3
  }

  function Kind(g: Gate): GateKind {
    match g
    case Permission(_) => PermissionGate
    case UserConfirmation(_) => ConfirmationGate
    case SandboxIsolation => IsolationGate
    case CodeReview => ReviewGate
  }

  /** `is_stricter_than`. */
  predicate Stricter(a: Result, b: Result) {
    || Level(a.mode) > Level(b.mode)
    || (Level(a.mode) == Level(b.mode) && ((a.audit && !b.audit) || |a.chain| > |b.chain|))
  }

  function GateNamed(gate: string, reason: string): seq<Gate> {
    if gate == "Permission" then [Permission(reason)]
    else if gate == "UserConfirmation" then [UserConfirmation(reason)]
    else if gate == "SandboxIsolation" then [SandboxIsolation]
    else if gate == "CodeReview" then [CodeReview]
    else []
  }

  function Kinds(chain: seq<Gate>): set<GateKind> {
    set i | 0 <= i < |chain| :: Kind(chain[i])
  }

  /** The result after one principle of the matching key. */
  function Tightened(p: Principle, r: Result): Result {
    match p.constraint
    case EscalateTo(mode, _) =>
      if mode == "Guarded" && Stricter(r.(mode := Guarded), r) then r.(mode := Guarded, layer := 4)
      else if mode == "Sandbox" && Stricter(r.(mode := Sandbox), r) then r.(mode := Sandbox, layer := 4)
      else if mode == "Denied" && Stricter(r.(mode := Denied), r) then r.(mode := Denied, layer := 4)
      else r
    case AddGuard(gate, reason) =>
      var named := GateNamed(gate, reason);
      if named != [] && Kind(named[0]) !in Kinds(r.chain) then r.(chain := r.chain + named, layer := 4) else r
    case RequireAudit(_) => if r.audit then r else r.(audit := true, layer := 4)
  }

  function ApplyAll(ps: seq<Principle>, key: string, atmaGraha: real, r: Result): Result {
    if ps == [] then r
    else
      var before, p := ApplyAll(ps[..|ps| - 1], key, atmaGraha, r), ps[|ps| - 1];
      if p.key == key && atmaGraha < 0.5 then Tightened(p, before) else before
  }

  class Judgement {
    var result: Result

    constructor (baseline: Result)
      ensures result == baseline
    {
      result := baseline;
    }

    method Tighten(p: Principle, atmaGraha: real) returns (modified: bool)
      modifies this
      ensures result == if atmaGraha < 0.5 then Tightened(p, old(result)) else old(result)
      ensures modified <==> Safety(result) != Safety(old(result))
    {
      if atmaGraha >= 0.5 { return false; }
      modified := false;
      match p.constraint {
        case EscalateTo(mode, _) =>
          var target;
          if mode == "Guarded" { target := Guarded; }
          else if mode == "Sandbox" { target := Sandbox; }
          else if mode == "Denied" { target := Denied; }
          else { return false; }
          var candidate := result.(mode := target);
          if Stricter(candidate, result) {
            result := result.(mode := target, layer := 4);
            modified := true;
          }
        case AddGuard(name, reason) =>
          var gate;
          if name == "Permission" { gate := Permission(reason); }
          else if name == "UserConfirmation" { gate := UserConfirmation(reason); }
          else if name == "SandboxIsolation" { gate := SandboxIsolation; }
          else if name == "CodeReview" { gate := CodeReview; }
          else { return false; }
          var alreadyPresent := exists i | 0 <= i < |result.chain| :: Kind(result.chain[i]) == Kind(gate);
          if !alreadyPresent {
            KindsSnoc(result.chain, gate);
            result := result.(chain := result.chain + [gate], layer := 4);
            modified := true;
          }
        case RequireAudit(_) =>
          if !result.audit {
            result := result.(audit := true, layer := 4);
            modified := true;
          }
      }
    }

    method ApplyLayer4(ps: seq<Principle>, key: string, atmaGraha: real)
      modifies this
      ensures result == ApplyAll(ps, key, atmaGraha, old(result))
    {
      for i := 0 to |ps|
        invariant result == ApplyAll(ps[..i], key, atmaGraha, old(result))
      {
        assert ps[..i + 1][..i] == ps[..i];
        if ps[i].key == key {
          var _ := Tighten(ps[i], atmaGraha);
        }
      }
      assert ps[..|ps|] == ps;
    }
  }

  lemma KindsSnoc(chain: seq<Gate>, g: Gate)
    ensures Kinds(chain + [g]) == Kinds(chain) + {Kind(g)}
  {
    var longer := chain + [g];
    assert forall i | 0 <= i < |chain| :: longer[i] == chain[i];
    assert longer[|chain|] == g;
    forall k | k in Kinds(chain) ensures k in Kinds(longer) {
      var i :| 0 <= i < |chain| && Kind(chain[i]) == k;
      assert Kind(longer[i]) == k;
    }
    assert Kind(longer[|chain|]) in Kinds(longer);
  }

  // ── The order of safety ───────────────────────────────────────

  /** How safe a result is: mode level, audit flag, kinds of gates. */
  datatype Safe = Safe(level: nat, audit: bool, gates: set<GateKind>)

  function Safety(r: Result): Safe { Safe(Level(r.mode), r.audit, Kinds(r.chain)) }

  predicate AtMost(a: Safe, b: Safe) {
    a.level <= b.level && (a.audit ==> b.audit) && a.gates <= b.gates
  }

  /** What a principle demands. */
  function Demand(p: Principle): Safe {
    match p.constraint
    case EscalateTo(mode, _) =>
      var level := if mode == "Guarded" then 1 else if mode == "Sandbox" then 2 else if mode == "Denied" then 3 else 0;
      Safe(level, false, {})
    case AddGuard(gate, reason) =>
      var named := GateNamed(gate, reason);
      Safe(0, false, if named == [] then {} else {Kind(named[0])})
    case RequireAudit(_) => Safe(0, true, {})
  }

  /** One principle raises the safety to the join of what was there and what it demands. */
  lemma TightenedIsJoin(p: Principle, r: Result, u: Safe)
    ensures AtMost(Safety(Tightened(p, r)), u) <==> AtMost(Safety(r), u) && AtMost(Demand(p), u)
  {
    if p.constraint.AddGuard? {
      var named := GateNamed(p.constraint.gate, p.constraint.reason);
      if named != [] {
        assert named == [named[0]];
        KindsSnoc(r.chain, named[0]);
      }
    }
  }

  /** The demands: four names of gates and three of modes are known, and any other name demands nothing. */
  lemma DemandsByName(p: Principle)
    ensures p.constraint.RequireAudit? ==> Demand(p) == Safe(0, true, {})
    ensures p.constraint.EscalateTo? ==>
              var mode := p.constraint.mode;
              && Demand(p).audit == false && Demand(p).gates == {}
              && (Demand(p).level == 1 <==> mode == "Guarded")
              && (Demand(p).level == 2 <==> mode == "Sandbox")
              && (Demand(p).level == 3 <==> mode == "Denied")
              && Demand(p).level <= 3
    ensures p.constraint.AddGuard? ==>
              var gate := p.constraint.gate;
              && Demand(p).level == 0 && Demand(p).audit == false
              && (PermissionGate in Demand(p).gates <==> gate == "Permission")
              && (ConfirmationGate in Demand(p).gates <==> gate == "UserConfirmation")
              && (IsolationGate in Demand(p).gates <==> gate == "SandboxIsolation")
              && (ReviewGate in Demand(p).gates <==> gate == "CodeReview")
  {
  }

  /** One principle rewrites no more than it must: the chain only grows, at its end, by the one gate demanded with the
      reason given; mode and audit flag keep unless they are raised; name and retries stay; and the layer becomes 4
      exactly where the safety changes. */
  lemma TightenedIsFrugal(p: Principle, r: Result)
    ensures var r' := Tightened(p, r);
            && r'.name == r.name && r'.maxRetries == r.maxRetries
            && r.chain <= r'.chain && |r'.chain| <= |r.chain| + 1
            && (|r'.chain| > |r.chain| ==>
                  var gate := r'.chain[|r.chain|];
                  && p.constraint.AddGuard? && Kind(gate) !in Kinds(r.chain) && Demand(p).gates == {Kind(gate)}
                  && (gate.Permission? || gate.UserConfirmation? ==> gate.reason == p.constraint.reason))
            && (Safety(r') == Safety(r) ==> r' == r)
            && (Safety(r') != Safety(r) ==> r'.layer == 4)
  {
    if p.constraint.AddGuard? {
      var named := GateNamed(p.constraint.gate, p.constraint.reason);
      if named != [] {
        assert named == [named[0]];
        KindsSnoc(r.chain, named[0]);
      }
    }
  }

  /** Below the threshold, the safety reached is the least one at or above the baseline and every matching demand. */
  lemma {:induction false} LeastUpperBound(ps: seq<Principle>, key: string, atmaGraha: real, r: Result, u: Safe)
    requires atmaGraha < 0.5
    ensures AtMost(Safety(ApplyAll(ps, key, atmaGraha, r)), u)
       <==> AtMost(Safety(r), u) && forall p | p in ps && p.key == key :: AtMost(Demand(p), u)
  {
    hide AtMost; hide Demand; hide Safety; hide Tightened;
    if ps != [] {
      var before, p := ps[..|ps| - 1], ps[|ps| - 1];
      LeastUpperBound(before, key, atmaGraha, r, u);
      assert ps == before + [p];
      if p.key == key { TightenedIsJoin(p, ApplyAll(before, key, atmaGraha, r), u); }
    }
  }

  lemma AtMostItself(a: Safe)
    ensures AtMost(a, a)
  {
  }

  lemma Antisymmetric(a: Safe, b: Safe)
    requires AtMost(a, b) && AtMost(b, a)
    ensures a == b
  {
  }

  /** Only the set of matching principles counts, not their order or repetition, and safety never falls. */
  lemma OrderAndRepetitionDoNotMatter(ps: seq<Principle>, qs: seq<Principle>, key: string, atmaGraha: real, r: Result)
    requires atmaGraha < 0.5
    requires forall p: Principle | p.key == key :: p in ps <==> p in qs
    ensures Safety(ApplyAll(ps, key, atmaGraha, r)) == Safety(ApplyAll(qs, key, atmaGraha, r))
    ensures AtMost(Safety(r), Safety(ApplyAll(ps, key, atmaGraha, r)))
  {
    hide AtMost; hide Demand; hide Safety;
    var a, b := Safety(ApplyAll(ps, key, atmaGraha, r)), Safety(ApplyAll(qs, key, atmaGraha, r));
    AtMostItself(a);
    AtMostItself(b);
    LeastUpperBound(ps, key, atmaGraha, r, a);
    LeastUpperBound(qs, key, atmaGraha, r, b);
    LeastUpperBound(ps, key, atmaGraha, r, b);
    LeastUpperBound(qs, key, atmaGraha, r, a);
    Antisymmetric(a, b);
  }

  /** At or above the threshold nothing changes. */
  lemma {:induction false} ClosedToCorrection(ps: seq<Principle>, key: string, atmaGraha: real, r: Result)
    requires atmaGraha >= 0.5
    ensures ApplyAll(ps, key, atmaGraha, r) == r
  {
    if ps != [] { ClosedToCorrection(ps[..|ps| - 1], key, atmaGraha, r); }
  }
}
