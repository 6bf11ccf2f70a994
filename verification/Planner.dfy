/**
 From the declared grants and the snapshot to the statements of one pass. Plans are
 specified as sets of demands: what each statement asks for, without the order in which
 a map happened to yield privileges and orphans.
 */
module Planner {
  import opened Strings
  import opened Sorting
  import opened Sql
  import opened Privileges
  import opened Wrappers
  import opened Diff

  datatype Demand = Demand(verb: Verb, privs: set<string>, target: Target)

  function DemandOf(s: Stmt): Demand {
    Demand(s.verb, AsSet(s.privs), s.target)
  }

  function Demands(stmts: seq<Stmt>): set<Demand> {
    set s | s in stmts :: DemandOf(s)
  }

  ghost predicate AllFor(user: string, stmts: seq<Stmt>) {
    forall s :: s in stmts ==> s.user == user && s.privs != []
  }

  /** No two statements ask for the same thing. */
  ghost predicate NoRepeats(stmts: seq<Stmt>) {
    forall i, j :: 0 <= i < j < |stmts| ==> DemandOf(stmts[i]) != DemandOf(stmts[j])
  }

  predicate AboutObjects(t: Target) {
    t.OnObject? || t.OnAllObjects?
  }

  /** Statements about objects list their privileges in order, each once. */
  ghost predicate ObjectsInOrder(stmts: seq<Stmt>) {
    forall s :: s in stmts && AboutObjects(s.target) ==> Sorted(AtMost, s.privs) && Distinct(s.privs)
  }

  // ---------- what a pass asks for ----------

  function DiffDemands(target: Target, actual: set<string>, desired: set<string>): set<Demand> {
    (if desired - actual == {} then {} else {Demand(Grant, desired - actual, target)})
    + (if actual - desired == {} then {} else {Demand(Revoke, actual - desired, target)})
  }

  /** Held objects without a declared entry lose everything, unless a wildcard entry stands for them. */
  function OrphanDemands(k: Kind, schema: string, entries: seq<ObjectSpec>, actual: seq<ObjectPrivilege>): set<Demand> {
    set n | n in ObjectNames(actual) && !Declares(entries, n) && (n == "*" || !Declares(entries, "*"))
      :: Demand(Revoke, {"ALL"}, TargetFor(k, schema, n))
  }

  function EntryDemands(k: Kind, schema: string, entries: seq<ObjectSpec>, actual: seq<ObjectPrivilege>): set<Demand> {
    set e, x | e in entries
      && x in DiffDemands(TargetFor(k, schema, e.name), AsSet(ObjectNamed(actual, e.name).privileges),
        AsSet(e.privileges))
      :: x
  }

  function OrphansOf(ks: seq<Kind>, spec: SchemaSpec, actual: Option<SchemaSnapshot>): set<Demand> {
    set k, x | k in ks && x in OrphanDemands(k, spec.name, spec.objects.Of(k), HeldObjects(actual, k)) :: x
  }

  function EntriesOf(ks: seq<Kind>, spec: SchemaSpec, actual: Option<SchemaSnapshot>): set<Demand> {
    set k, x | k in ks && x in EntryDemands(k, spec.name, spec.objects.Of(k), HeldObjects(actual, k)) :: x
  }

  function SchemaDemands(spec: SchemaSpec, actual: Option<SchemaSnapshot>): set<Demand> {
    DiffDemands(OnSchema(spec.name), AsSet(Held(actual)), AsSet(spec.privileges))
    + OrphansOf(KINDS, spec, actual) + EntriesOf(KINDS, spec, actual)
  }

  function SchemasDemands(schemas: seq<SchemaSpec>, actual: Option<DatabaseSnapshot>): set<Demand> {
    set s, x | s in schemas && x in SchemaDemands(s, SchemaIn(actual, s.name)) :: x
  }

  /** The statements planned for the objects and schemas of database `d`. */
  function GroupDemands(spec: seq<DatabaseSpec>, snap: seq<DatabaseSnapshot>, d: string): set<Demand> {
    set e, x | e in spec && e.name == d && x in SchemasDemands(e.schemas, DatabaseNamed(snap, d)) :: x
  }

  function DatabaseDemands(spec: seq<DatabaseSpec>, snap: seq<DatabaseSnapshot>): set<Demand> {
    set e, x | e in spec
      && x in DiffDemands(OnDatabase(e.name), AsSet(HeldOnDatabase(DatabaseNamed(snap, e.name))),
        AsSet(e.privileges)) :: x
  }

  predicate DeclaresDatabase(spec: seq<DatabaseSpec>, d: string) {
    exists e <- spec :: e.name == d
  }

  /** Undeclared databases lose their database-level privileges, and nothing inside them. */
  function OrphanDatabaseDemands(spec: seq<DatabaseSpec>, snap: seq<DatabaseSnapshot>): set<Demand> {
    set a | a in snap && !DeclaresDatabase(spec, a.name) && HeldOnDatabase(DatabaseNamed(snap, a.name)) != []
      :: Demand(Revoke, {"ALL"}, OnDatabase(a.name))
  }

  // ---------- the planning code ----------

  datatype Plan = Plan(globals: seq<Stmt>, groups: map<string, seq<Stmt>>)

  ghost predicate IsGroups(user: string, spec: seq<DatabaseSpec>, snap: seq<DatabaseSnapshot>,
                           groups: map<string, seq<Stmt>>) {
    && (forall d :: d in groups <==> DeclaresDatabase(spec, d))
    && (forall d :: d in groups ==> AllFor(user, groups[d]) && Demands(groups[d]) == GroupDemands(spec, snap, d))
  }

  ghost predicate IsPlan(user: string, spec: seq<DatabaseSpec>, snap: seq<DatabaseSnapshot>, plan: Plan) {
    && AllFor(user, plan.globals)
    && Demands(plan.globals) == DatabaseDemands(spec, snap) + OrphanDatabaseDemands(spec, snap)
    && IsGroups(user, spec, snap, plan.groups)
  }

  /**
   The plan repeats nothing when names are distinct, and lists object privileges in order: apart from the order
   of statements and of database and schema privileges, it is determined.
   */
  ghost predicate IsTidy(spec: seq<DatabaseSpec>, plan: Plan) {
    && (DistinctNames(spec) ==> NoRepeats(plan.globals) && forall d :: d in plan.groups ==> NoRepeats(plan.groups[d]))
    && (forall d :: d in plan.groups ==> ObjectsInOrder(plan.groups[d]))
  }

  /** Lists that ask for different things can be joined. */
  lemma NoRepeatsSum(a: seq<Stmt>, b: seq<Stmt>)
    requires NoRepeats(a) && NoRepeats(b)
    requires Demands(a) !! Demands(b)
    ensures NoRepeats(a + b)
  {
    forall i, j | 0 <= i < j < |a + b| ensures DemandOf((a + b)[i]) != DemandOf((a + b)[j]) {
      if i < |a| <= j {
        assert DemandOf(a[i]) in Demands(a) && DemandOf(b[j - |a|]) in Demands(b);
      }
    }
  }

  lemma DemandsOfSum(a: seq<Stmt>, b: seq<Stmt>)
    ensures Demands(a + b) == Demands(a) + Demands(b)
    ensures forall u :: AllFor(u, a + b) <==> AllFor(u, a) && AllFor(u, b)
    ensures ObjectsInOrder(a + b) <==> ObjectsInOrder(a) && ObjectsInOrder(b)
  {
    if ObjectsInOrder(a + b) {
      assert forall s :: s in a ==> s in a + b;
      assert forall s :: s in b ==> s in a + b;
    }
    forall u | AllFor(u, a + b) ensures AllFor(u, a) && AllFor(u, b) {
      assert forall s :: s in a ==> s in a + b;
      assert forall s :: s in b ==> s in a + b;
    }
  }

  lemma AsksDemand(stmts: seq<Stmt>, user: string, verb: Verb, target: Target, privs: set<string>)
    requires Asks(stmts, user, verb, target, privs)
    ensures Demands(stmts) == if privs == {} then {} else {Demand(verb, privs, target)}
    ensures AllFor(user, stmts)
  {
    if privs != {} {
      assert stmts == [stmts[0]];
      assert DemandOf(stmts[0]) == Demand(verb, privs, target);
    }
  }

  lemma DiffIsTidy(user: string, target: Target, actual: set<string>, desired: set<string>, diff: PrivilegeDiff)
    requires IsDiff(user, target, actual, desired, diff)
    ensures NoRepeats(diff.toRevoke + diff.toGrant)
    ensures !AboutObjects(target) || PrivilegesSorted(diff) ==> ObjectsInOrder(diff.toRevoke + diff.toGrant)
  {
    assert |diff.toRevoke| <= 1 && |diff.toGrant| <= 1;
    assert forall s :: s in diff.toRevoke ==> s.verb.Revoke? && s.target == target && Distinct(s.privs);
    assert forall s :: s in diff.toGrant ==> s.verb.Grant? && s.target == target && Distinct(s.privs);
  }

  /** The statements of a diff, REVOKE first, ask for exactly the difference. */
  lemma DiffAsks(user: string, target: Target, actual: set<string>, desired: set<string>, diff: PrivilegeDiff)
    requires IsDiff(user, target, actual, desired, diff)
    ensures Demands(diff.toRevoke + diff.toGrant) == DiffDemands(target, actual, desired)
    ensures AllFor(user, diff.toRevoke + diff.toGrant)
    ensures NoRepeats(diff.toRevoke + diff.toGrant)
    ensures !AboutObjects(target) || PrivilegesSorted(diff) ==> ObjectsInOrder(diff.toRevoke + diff.toGrant)
  {
    DiffIsTidy(user, target, actual, desired, diff);
    DemandsOfSum(diff.toRevoke, diff.toGrant);
    AsksDemand(diff.toGrant, user, Grant, target, desired - actual);
    AsksDemand(diff.toRevoke, user, Revoke, target, actual - desired);
  }

  method FindObjectPrivilege(objects: seq<ObjectPrivilege>, name: string) returns (found: ObjectPrivilege)
    ensures found == ObjectNamed(objects, name)
    ensures found.name == name
    ensures name in ObjectNames(objects) ==> exists i ::
      0 <= i < |objects| && found == objects[i] && name !in ObjectNames(objects[..i])
    ensures name !in ObjectNames(objects) ==> found.privileges == [] && !found.withGrantOption
  {
    for i := 0 to |objects|
      invariant ObjectNamed(objects, name) == ObjectNamed(objects[i..], name)
      invariant name !in ObjectNames(objects[..i])
    {
      assert objects[i..][1..] == objects[i + 1..];
      assert objects[..i + 1] == objects[..i] + [objects[i]];
      if objects[i].name == name {
        return objects[i];
      }
    }
    assert objects[..|objects|] == objects;
    return ObjectPrivilege(name, [], false);
  }

  function WholesaleRevokes(k: Kind, schema: string, names: set<string>): set<Demand> {
    set n | n in names :: Demand(Revoke, {"ALL"}, TargetFor(k, schema, n))
  }

  /** A list of wholesale revocations: what it asks for and that it is tidy. */
  ghost predicate RevokesWholesale(user: string, k: Kind, schema: string, stmts: seq<Stmt>, names: set<string>) {
    Demands(stmts) == WholesaleRevokes(k, schema, names) && AllFor(user, stmts) && NoRepeats(stmts)
      && ObjectsInOrder(stmts)
  }

  lemma OneMoreOrphan(user: string, k: Kind, schema: string, stmts: seq<Stmt>, names: set<string>, n: string)
    requires RevokesWholesale(user, k, schema, stmts, names) && n !in names
    ensures RevokesWholesale(user, k, schema, stmts + [Stmt(Revoke, ["ALL"], TargetFor(k, schema, n), user)],
      names + {n})
  {
    var s := Stmt(Revoke, ["ALL"], TargetFor(k, schema, n), user);
    DemandsOfSum(stmts, [s]);
    assert AsSet(s.privs) == {"ALL"};
    assert Demands([s]) == {DemandOf(s)};
    assert DemandOf(s) !in WholesaleRevokes(k, schema, names);
    NoRepeatsSum(stmts, [s]);
    assert WholesaleRevokes(k, schema, names + {n}) == WholesaleRevokes(k, schema, names) + {DemandOf(s)};
  }

  method EmitOrphans(user: string, k: Kind, schema: string, orphans: set<string>, hasWildcard: bool)
    returns (stmts: seq<Stmt>)
    ensures RevokesWholesale(user, k, schema, stmts, set n | n in orphans && (n == "*" || !hasWildcard))
  {
    stmts := [];
    var todo := orphans;
    ghost var emitted: set<string> := {};
    while todo != {}
      invariant todo <= orphans
      invariant emitted == set n | n in orphans - todo && (n == "*" || !hasWildcard)
      invariant RevokesWholesale(user, k, schema, stmts, emitted)
    {
      var n :| n in todo;
      todo := todo - {n};
      if n == "*" || !hasWildcard {
        OneMoreOrphan(user, k, schema, stmts, emitted, n);
        stmts := stmts + [Stmt(Revoke, ["ALL"], TargetFor(k, schema, n), user)];
        emitted := emitted + {n};
      }
    }
  }

  method RevokeOrphans(user: string, k: Kind, schema: string, entries: seq<ObjectSpec>, actual: seq<ObjectPrivilege>)
    returns (stmts: seq<Stmt>)
    ensures Demands(stmts) == OrphanDemands(k, schema, entries, actual)
    ensures AllFor(user, stmts) && NoRepeats(stmts) && ObjectsInOrder(stmts)
  {
    var orphans := {};
    for i := 0 to |actual|
      invariant orphans == ObjectNames(actual[..i])
    {
      assert actual[..i + 1] == actual[..i] + [actual[i]];
      orphans := orphans + {actual[i].name};
    }
    assert actual[..|actual|] == actual;

    var hasWildcard := false;
    for i := 0 to |entries|
      invariant hasWildcard == Declares(entries[..i], "*")
      invariant orphans == set n | n in ObjectNames(actual) && !Declares(entries[..i], n)
    {
      assert entries[..i + 1] == entries[..i] + [entries[i]];
      if entries[i].name == "*" {
        hasWildcard := true;
      }
      orphans := orphans - {entries[i].name};
    }
    assert entries[..|entries|] == entries;
    stmts := EmitOrphans(user, k, schema, orphans, hasWildcard);
  }

  lemma EntriesGrow(k: Kind, schema: string, entries: seq<ObjectSpec>, actual: seq<ObjectPrivilege>, i: nat)
    requires i < |entries|
    ensures var e := entries[i];
      EntryDemands(k, schema, entries[..i + 1], actual) == EntryDemands(k, schema, entries[..i], actual)
        + DiffDemands(TargetFor(k, schema, e.name), AsSet(ObjectNamed(actual, e.name).privileges), AsSet(e.privileges))
  {
    assert entries[..i + 1] == entries[..i] + [entries[i]];
  }

  /** Entries of different names ask for different things. */
  lemma EntriesApart(k: Kind, schema: string, entries: seq<ObjectSpec>, actual: seq<ObjectPrivilege>, i: nat)
    requires i < |entries| && DistinctEntries(entries)
    ensures var e := entries[i];
      EntryDemands(k, schema, entries[..i], actual)
        !! DiffDemands(TargetFor(k, schema, e.name), AsSet(ObjectNamed(actual, e.name).privileges), AsSet(e.privileges))
  {
    forall x | x in EntryDemands(k, schema, entries[..i], actual)
      ensures x.target != TargetFor(k, schema, entries[i].name)
    {
      var f :| f in entries[..i]
        && x in DiffDemands(TargetFor(k, schema, f.name), AsSet(ObjectNamed(actual, f.name).privileges),
          AsSet(f.privileges));
      assert f.name != entries[i].name;
    }
  }

  method ReconcileEntries(user: string, k: Kind, schema: string, entries: seq<ObjectSpec>, actual: seq<ObjectPrivilege>)
    returns (stmts: seq<Stmt>)
    ensures Demands(stmts) == EntryDemands(k, schema, entries, actual)
    ensures AllFor(user, stmts) && ObjectsInOrder(stmts) && (DistinctEntries(entries) ==> NoRepeats(stmts))
  {
    stmts := [];
    for i := 0 to |entries|
      invariant Demands(stmts) == EntryDemands(k, schema, entries[..i], actual)
      invariant AllFor(user, stmts) && ObjectsInOrder(stmts) && (DistinctEntries(entries) ==> NoRepeats(stmts))
    {
      var e := entries[i];
      var held := FindObjectPrivilege(actual, e.name);
      var diff := CalculateObjectDiff(user, k, schema, held, e.name, e.privileges);
      DiffAsks(user, TargetFor(k, schema, e.name), AsSet(held.privileges), AsSet(e.privileges), diff);
      DemandsOfSum(stmts, diff.toRevoke + diff.toGrant);
      if DistinctEntries(entries) {
        EntriesApart(k, schema, entries, actual, i);
        NoRepeatsSum(stmts, diff.toRevoke + diff.toGrant);
      }
      EntriesGrow(k, schema, entries, actual, i);
      stmts := stmts + (diff.toRevoke + diff.toGrant);
    }
    assert entries[..|entries|] == entries;
  }

  /** Demands of one kind are about objects of that kind, and of the schema. */
  lemma KindDemandsShape(k: Kind, schema: string, entries: seq<ObjectSpec>, actual: seq<ObjectPrivilege>, x: Demand)
    requires x in OrphanDemands(k, schema, entries, actual) || x in EntryDemands(k, schema, entries, actual)
    ensures AboutObjects(x.target) && x.target.kind == k && x.target.schema == schema
  {
  }

  lemma OrphanKindsApart(ks: seq<Kind>, spec: SchemaSpec, actual: Option<SchemaSnapshot>, i: nat)
    requires i < |ks| && Distinct(ks)
    ensures OrphansOf(ks[..i], spec, actual)
      !! OrphanDemands(ks[i], spec.name, spec.objects.Of(ks[i]), HeldObjects(actual, ks[i]))
  {
    forall x | x in OrphansOf(ks[..i], spec, actual)
      ensures x !in OrphanDemands(ks[i], spec.name, spec.objects.Of(ks[i]), HeldObjects(actual, ks[i]))
    {
      var k :| k in ks[..i] && x in OrphanDemands(k, spec.name, spec.objects.Of(k), HeldObjects(actual, k));
      KindDemandsShape(k, spec.name, spec.objects.Of(k), HeldObjects(actual, k), x);
      assert k != ks[i];
    }
  }

  lemma EntryKindsApart(ks: seq<Kind>, spec: SchemaSpec, actual: Option<SchemaSnapshot>, i: nat)
    requires i < |ks| && Distinct(ks)
    ensures EntriesOf(ks[..i], spec, actual)
      !! EntryDemands(ks[i], spec.name, spec.objects.Of(ks[i]), HeldObjects(actual, ks[i]))
  {
    forall x | x in EntriesOf(ks[..i], spec, actual)
      ensures x !in EntryDemands(ks[i], spec.name, spec.objects.Of(ks[i]), HeldObjects(actual, ks[i]))
    {
      var k :| k in ks[..i] && x in EntryDemands(k, spec.name, spec.objects.Of(k), HeldObjects(actual, k));
      KindDemandsShape(k, spec.name, spec.objects.Of(k), HeldObjects(actual, k), x);
      if x in EntryDemands(ks[i], spec.name, spec.objects.Of(ks[i]), HeldObjects(actual, ks[i])) {
        KindDemandsShape(ks[i], spec.name, spec.objects.Of(ks[i]), HeldObjects(actual, ks[i]), x);
      }
      assert k != ks[i];
    }
  }

  /** An orphan has no entry, so what is asked of orphans is asked of no entry. */
  lemma OrphansApartFromEntries(ks: seq<Kind>, spec: SchemaSpec, actual: Option<SchemaSnapshot>)
    ensures OrphansOf(ks, spec, actual) !! EntriesOf(ks, spec, actual)
  {
    forall x | x in OrphansOf(ks, spec, actual) && x in EntriesOf(ks, spec, actual) ensures false {
      var k :| k in ks && x in OrphanDemands(k, spec.name, spec.objects.Of(k), HeldObjects(actual, k));
      var l :| l in ks && x in EntryDemands(l, spec.name, spec.objects.Of(l), HeldObjects(actual, l));
      KindDemandsShape(k, spec.name, spec.objects.Of(k), HeldObjects(actual, k), x);
      KindDemandsShape(l, spec.name, spec.objects.Of(l), HeldObjects(actual, l), x);
    }
  }

  method RevokeAllOrphans(user: string, ks: seq<Kind>, spec: SchemaSpec, actual: Option<SchemaSnapshot>)
    returns (stmts: seq<Stmt>)
    ensures Demands(stmts) == OrphansOf(ks, spec, actual)
    ensures AllFor(user, stmts) && ObjectsInOrder(stmts) && (Distinct(ks) ==> NoRepeats(stmts))
  {
    stmts := [];
    for i := 0 to |ks|
      invariant AllFor(user, stmts) && ObjectsInOrder(stmts) && (Distinct(ks) ==> NoRepeats(stmts))
      invariant Demands(stmts) == OrphansOf(ks[..i], spec, actual)
    {
      var more := RevokeOrphans(user, ks[i], spec.name, spec.objects.Of(ks[i]), HeldObjects(actual, ks[i]));
      DemandsOfSum(stmts, more);
      if Distinct(ks) {
        OrphanKindsApart(ks, spec, actual, i);
        NoRepeatsSum(stmts, more);
      }
      assert ks[..i + 1] == ks[..i] + [ks[i]];
      stmts := stmts + more;
    }
    assert ks[..|ks|] == ks;
  }

  method ReconcileAllEntries(user: string, ks: seq<Kind>, spec: SchemaSpec, actual: Option<SchemaSnapshot>)
    returns (stmts: seq<Stmt>)
    ensures Demands(stmts) == EntriesOf(ks, spec, actual)
    ensures AllFor(user, stmts) && ObjectsInOrder(stmts)
    ensures Distinct(ks) && (forall k :: k in ks ==> DistinctEntries(spec.objects.Of(k))) ==> NoRepeats(stmts)
  {
    stmts := [];
    for i := 0 to |ks|
      invariant AllFor(user, stmts) && ObjectsInOrder(stmts)
      invariant Distinct(ks) && (forall k :: k in ks ==> DistinctEntries(spec.objects.Of(k))) ==> NoRepeats(stmts)
      invariant Demands(stmts) == EntriesOf(ks[..i], spec, actual)
    {
      var more := ReconcileEntries(user, ks[i], spec.name, spec.objects.Of(ks[i]), HeldObjects(actual, ks[i]));
      DemandsOfSum(stmts, more);
      if Distinct(ks) && forall k :: k in ks ==> DistinctEntries(spec.objects.Of(k)) {
        EntryKindsApart(ks, spec, actual, i);
        NoRepeatsSum(stmts, more);
      }
      assert ks[..i + 1] == ks[..i] + [ks[i]];
      stmts := stmts + more;
    }
    assert ks[..|ks|] == ks;
  }

  ghost predicate DistinctObjects(spec: SchemaSpec) {
    forall k :: k in KINDS ==> DistinctEntries(spec.objects.Of(k))
  }

  /** The statements about the objects of one schema entry; a schema missing from the snapshot has no orphans. */
  method ReconcileObjects(user: string, spec: SchemaSpec, actual: Option<SchemaSnapshot>) returns (stmts: seq<Stmt>)
    ensures Demands(stmts) == OrphansOf(KINDS, spec, actual) + EntriesOf(KINDS, spec, actual)
    ensures AllFor(user, stmts) && ObjectsInOrder(stmts) && (DistinctObjects(spec) ==> NoRepeats(stmts))
  {
    var orphans := [];
    if actual.Some? {
      orphans := RevokeAllOrphans(user, KINDS, spec, actual);
    } else {
      assert OrphansOf(KINDS, spec, actual) == {};
    }
    var entries := ReconcileAllEntries(user, KINDS, spec, actual);
    DemandsOfSum(orphans, entries);
    if DistinctObjects(spec) {
      OrphansApartFromEntries(KINDS, spec, actual);
      NoRepeatsSum(orphans, entries);
    }
    stmts := orphans + entries;
  }

  /** The statements of one schema entry. */
  method ReconcileSchema(user: string, spec: SchemaSpec, actual: Option<SchemaSnapshot>) returns (stmts: seq<Stmt>)
    ensures Demands(stmts) == SchemaDemands(spec, actual)
    ensures AllFor(user, stmts) && ObjectsInOrder(stmts) && (DistinctObjects(spec) ==> NoRepeats(stmts))
  {
    var diff := CalculateSchemaDiff(user, Held(actual), spec);
    DiffAsks(user, OnSchema(spec.name), AsSet(Held(actual)), AsSet(spec.privileges), diff);
    var objects := ReconcileObjects(user, spec, actual);
    DemandsOfSum(diff.toRevoke + diff.toGrant, objects);
    if DistinctObjects(spec) {
      SchemaPartsApart(KINDS, spec, actual);
      NoRepeatsSum(diff.toRevoke + diff.toGrant, objects);
    }
    stmts := diff.toRevoke + diff.toGrant + objects;
  }

  /** What is asked of a schema is asked of none of its objects. */
  lemma SchemaPartsApart(ks: seq<Kind>, spec: SchemaSpec, actual: Option<SchemaSnapshot>)
    ensures DiffDemands(OnSchema(spec.name), AsSet(Held(actual)), AsSet(spec.privileges))
      !! OrphansOf(ks, spec, actual) + EntriesOf(ks, spec, actual)
  {
    forall x | x in OrphansOf(ks, spec, actual) + EntriesOf(ks, spec, actual) ensures AboutObjects(x.target) {
      var k :| k in ks && (
        || x in OrphanDemands(k, spec.name, spec.objects.Of(k), HeldObjects(actual, k))
        || x in EntryDemands(k, spec.name, spec.objects.Of(k), HeldObjects(actual, k)));
      KindDemandsShape(k, spec.name, spec.objects.Of(k), HeldObjects(actual, k), x);
    }
  }

  /** A schema entry's demands are about that schema. */
  lemma SchemaDemandsShape(spec: SchemaSpec, actual: Option<SchemaSnapshot>, x: Demand)
    requires x in SchemaDemands(spec, actual)
    ensures !x.target.OnDatabase? && x.target.schema == spec.name
  {
  }

  lemma SchemasGrow(schemas: seq<SchemaSpec>, actual: Option<DatabaseSnapshot>, i: nat)
    requires i < |schemas|
    ensures SchemasDemands(schemas[..i + 1], actual)
      == SchemasDemands(schemas[..i], actual) + SchemaDemands(schemas[i], SchemaIn(actual, schemas[i].name))
  {
    assert schemas[..i + 1] == schemas[..i] + [schemas[i]];
  }

  lemma SchemasApart(schemas: seq<SchemaSpec>, actual: Option<DatabaseSnapshot>, i: nat)
    requires i < |schemas| && DistinctSchemas(schemas)
    ensures SchemasDemands(schemas[..i], actual) !! SchemaDemands(schemas[i], SchemaIn(actual, schemas[i].name))
  {
    forall x | x in SchemasDemands(schemas[..i], actual)
      && x in SchemaDemands(schemas[i], SchemaIn(actual, schemas[i].name))
      ensures false
    {
      var s :| s in schemas[..i] && x in SchemaDemands(s, SchemaIn(actual, s.name));
      SchemaDemandsShape(s, SchemaIn(actual, s.name), x);
      SchemaDemandsShape(schemas[i], SchemaIn(actual, schemas[i].name), x);
    }
  }

  method ReconcileSchemas(user: string, schemas: seq<SchemaSpec>, actual: Option<DatabaseSnapshot>)
    returns (stmts: seq<Stmt>)
    ensures Demands(stmts) == SchemasDemands(schemas, actual)
    ensures AllFor(user, stmts) && ObjectsInOrder(stmts) && (DistinctSchemas(schemas) ==> NoRepeats(stmts))
  {
    stmts := [];
    for i := 0 to |schemas|
      invariant AllFor(user, stmts) && ObjectsInOrder(stmts) && (DistinctSchemas(schemas) ==> NoRepeats(stmts))
      invariant Demands(stmts) == SchemasDemands(schemas[..i], actual)
    {
      var snap := FindSchema(actual, schemas[i].name);
      var more := ReconcileSchema(user, schemas[i], snap);
      DemandsOfSum(stmts, more);
      if DistinctSchemas(schemas) {
        SchemasApart(schemas, actual, i);
        NoRepeatsSum(stmts, more);
      }
      SchemasGrow(schemas, actual, i);
      stmts := stmts + more;
    }
    assert schemas[..|schemas|] == schemas;
  }

  /** The lookup through actualSchemaMap. */
  method FindSchema(actual: Option<DatabaseSnapshot>, name: string) returns (found: Option<SchemaSnapshot>)
    ensures found == SchemaIn(actual, name)
  {
    var schemaMap: map<string, SchemaSnapshot> := map[];
    if actual.Some? {
      var schemas := actual.value.schemas;
      for i := 0 to |schemas|
        invariant forall n :: SchemaNamed(schemas[..i], n) == if n in schemaMap then Some(schemaMap[n]) else None
      {
        assert schemas[..i + 1][..i] == schemas[..i];
        schemaMap := schemaMap[schemas[i].name := schemas[i]];
      }
      assert schemas[..|schemas|] == schemas;
    }
    found := if name in schemaMap then Some(schemaMap[name]) else None;
  }

  /** actualDBMap */
  method IndexDatabases(snap: seq<DatabaseSnapshot>) returns (dbMap: map<string, DatabaseSnapshot>)
    ensures forall n :: DatabaseNamed(snap, n) == if n in dbMap then Some(dbMap[n]) else None
    ensures dbMap.Keys == set a | a in snap :: a.name
  {
    dbMap := map[];
    for i := 0 to |snap|
      invariant forall n :: DatabaseNamed(snap[..i], n) == if n in dbMap then Some(dbMap[n]) else None
      invariant dbMap.Keys == set a | a in snap[..i] :: a.name
    {
      assert snap[..i + 1][..i] == snap[..i];
      assert snap[..i + 1] == snap[..i] + [snap[i]];
      dbMap := dbMap[snap[i].name := snap[i]];
    }
    assert snap[..|snap|] == snap;
  }

  ghost predicate RevokesDatabases(user: string, stmts: seq<Stmt>, names: set<string>) {
    && Demands(stmts) == (set n | n in names :: Demand(Revoke, {"ALL"}, OnDatabase(n)))
    && AllFor(user, stmts) && NoRepeats(stmts)
  }

  lemma OneMoreDatabase(user: string, stmts: seq<Stmt>, names: set<string>, n: string)
    requires RevokesDatabases(user, stmts, names) && n !in names
    ensures RevokesDatabases(user, stmts + [Stmt(Revoke, ["ALL"], OnDatabase(n), user)], names + {n})
  {
    var s := Stmt(Revoke, ["ALL"], OnDatabase(n), user);
    DemandsOfSum(stmts, [s]);
    assert AsSet(s.privs) == {"ALL"};
    assert Demands([s]) == {DemandOf(s)};
    NoRepeatsSum(stmts, [s]);
  }

  /** The search for a held database among the declared ones. */
  method FindDeclared(spec: seq<DatabaseSpec>, name: string) returns (found: bool)
    ensures found == DeclaresDatabase(spec, name)
  {
    found := false;
    for i := 0 to |spec|
      invariant !found && !DeclaresDatabase(spec[..i], name)
    {
      assert spec[..i + 1] == spec[..i] + [spec[i]];
      if spec[i].name == name {
        assert spec[i] in spec;
        return true;
      }
    }
    assert spec[..|spec|] == spec;
  }

  method RevokeOrphanDatabases(user: string, spec: seq<DatabaseSpec>, ghost snap: seq<DatabaseSnapshot>,
                               dbMap: map<string, DatabaseSnapshot>)
    returns (stmts: seq<Stmt>)
    requires forall n :: DatabaseNamed(snap, n) == if n in dbMap then Some(dbMap[n]) else None
    requires dbMap.Keys == set a | a in snap :: a.name
    ensures Demands(stmts) == OrphanDatabaseDemands(spec, snap)
    ensures AllFor(user, stmts) && NoRepeats(stmts)
  {
    stmts := [];
    var todo := dbMap.Keys;
    ghost var emitted: set<string> := {};
    while todo != {}
      invariant todo <= dbMap.Keys
      invariant emitted == set n | n in dbMap.Keys - todo && !DeclaresDatabase(spec, n) && dbMap[n].privileges != []
      invariant RevokesDatabases(user, stmts, emitted)
    {
      var n :| n in todo;
      todo := todo - {n};
      var found := FindDeclared(spec, n);
      if !found && |dbMap[n].privileges| > 0 {
        OneMoreDatabase(user, stmts, emitted, n);
        stmts := stmts + [Stmt(Revoke, ["ALL"], OnDatabase(n), user)];
        emitted := emitted + {n};
      }
    }
    assert emitted == set a | a in snap && !DeclaresDatabase(spec, a.name)
      && HeldOnDatabase(DatabaseNamed(snap, a.name)) != [] :: a.name;
  }

  lemma SpecExtend(spec: seq<DatabaseSpec>, i: nat, snap: seq<DatabaseSnapshot>, d: string)
    requires i < |spec|
    ensures GroupDemands(spec[..i + 1], snap, d) == GroupDemands(spec[..i], snap, d)
      + if spec[i].name == d then SchemasDemands(spec[i].schemas, DatabaseNamed(snap, d)) else {}
    ensures DeclaresDatabase(spec[..i + 1], d) == (DeclaresDatabase(spec[..i], d) || spec[i].name == d)
    ensures !DeclaresDatabase(spec[..i], d) ==> GroupDemands(spec[..i], snap, d) == {}
    ensures DatabaseDemands(spec[..i + 1], snap) == DatabaseDemands(spec[..i], snap)
      + DiffDemands(OnDatabase(spec[i].name), AsSet(HeldOnDatabase(DatabaseNamed(snap, spec[i].name))),
        AsSet(spec[i].privileges))
  {
    assert spec[..i + 1] == spec[..i] + [spec[i]];
  }

  ghost predicate GroupsTidy(distinct: bool, groups: map<string, seq<Stmt>>) {
    forall d :: d in groups ==> ObjectsInOrder(groups[d]) && (distinct ==> NoRepeats(groups[d]))
  }

  /** Appends a declared database's nested statements to its group, creating the group if needed. */
  method ExtendGroups(user: string, spec: seq<DatabaseSpec>, i: nat, actual: Option<DatabaseSnapshot>,
                      groups: map<string, seq<Stmt>>, ghost snap: seq<DatabaseSnapshot>)
    returns (extended: map<string, seq<Stmt>>)
    requires i < |spec| && IsGroups(user, spec[..i], snap, groups) && GroupsTidy(DistinctNames(spec), groups)
    requires actual == DatabaseNamed(snap, spec[i].name)
    ensures IsGroups(user, spec[..i + 1], snap, extended) && GroupsTidy(DistinctNames(spec), extended)
  {
    var d := spec[i].name;
    var more := ReconcileSchemas(user, spec[i].schemas, actual);
    var group := if d in groups then groups[d] else [];
    DemandsOfSum(group, more);
    if DistinctNames(spec) {
      assert d !in groups && group + more == more;
    }
    extended := groups[d := group + more];
    forall n
      ensures n in extended <==> DeclaresDatabase(spec[..i + 1], n)
      ensures n in extended ==>
        AllFor(user, extended[n]) && Demands(extended[n]) == GroupDemands(spec[..i + 1], snap, n)
    {
      SpecExtend(spec, i, snap, n);
    }
  }

  lemma DatabasesApart(spec: seq<DatabaseSpec>, snap: seq<DatabaseSnapshot>, i: nat)
    requires i < |spec| && DistinctNames(spec)
    ensures var e := spec[i];
      DatabaseDemands(spec[..i], snap)
        !! DiffDemands(OnDatabase(e.name), AsSet(HeldOnDatabase(DatabaseNamed(snap, e.name))), AsSet(e.privileges))
  {
    forall x | x in DatabaseDemands(spec[..i], snap) ensures x.target != OnDatabase(spec[i].name) {
      var f :| f in spec[..i]
        && x in DiffDemands(OnDatabase(f.name), AsSet(HeldOnDatabase(DatabaseNamed(snap, f.name))),
          AsSet(f.privileges));
      assert f.name != spec[i].name;
    }
  }

  lemma OrphanDatabasesApart(spec: seq<DatabaseSpec>, snap: seq<DatabaseSnapshot>)
    ensures DatabaseDemands(spec, snap) !! OrphanDatabaseDemands(spec, snap)
  {
  }

  /** Appends a declared database's own diff to the global statements. */
  method ExtendGlobals(user: string, spec: seq<DatabaseSpec>, i: nat, actual: Option<DatabaseSnapshot>,
                       globals: seq<Stmt>, ghost snap: seq<DatabaseSnapshot>)
    returns (extended: seq<Stmt>)
    requires i < |spec| && actual == DatabaseNamed(snap, spec[i].name)
    requires AllFor(user, globals) && Demands(globals) == DatabaseDemands(spec[..i], snap)
    requires DistinctNames(spec) ==> NoRepeats(globals)
    ensures AllFor(user, extended) && Demands(extended) == DatabaseDemands(spec[..i + 1], snap)
    ensures DistinctNames(spec) ==> NoRepeats(extended)
  {
    var e := spec[i];
    var diff := CalculateDatabaseDiff(user, HeldOnDatabase(actual), e);
    DiffAsks(user, OnDatabase(e.name), AsSet(HeldOnDatabase(actual)), AsSet(e.privileges), diff);
    DemandsOfSum(globals, diff.toRevoke + diff.toGrant);
    SpecExtend(spec, i, snap, e.name);
    if DistinctNames(spec) {
      DatabasesApart(spec, snap, i);
      NoRepeatsSum(globals, diff.toRevoke + diff.toGrant);
    }
    extended := globals + (diff.toRevoke + diff.toGrant);
  }

  /** The planning half of syncPrivileges. */
  method PlanPrivileges(user: string, spec: seq<DatabaseSpec>, snap: seq<DatabaseSnapshot>) returns (plan: Plan)
    ensures IsPlan(user, spec, snap, plan) && IsTidy(spec, plan)
  {
    var dbMap := IndexDatabases(snap);
    var globals: seq<Stmt> := [];
    var groups: map<string, seq<Stmt>> := map[];
    for i := 0 to |spec|
      invariant AllFor(user, globals) && (DistinctNames(spec) ==> NoRepeats(globals))
      invariant Demands(globals) == DatabaseDemands(spec[..i], snap)
      invariant IsGroups(user, spec[..i], snap, groups) && GroupsTidy(DistinctNames(spec), groups)
    {
      var e := spec[i];
      var actual := if e.name in dbMap then Some(dbMap[e.name]) else None;
      globals := ExtendGlobals(user, spec, i, actual, globals, snap);
      groups := ExtendGroups(user, spec, i, actual, groups, snap);
    }
    assert spec[..|spec|] == spec;
    var orphans := RevokeOrphanDatabases(user, spec, snap, dbMap);
    DemandsOfSum(globals, orphans);
    if DistinctNames(spec) {
      OrphanDatabasesApart(spec, snap);
      NoRepeatsSum(globals, orphans);
    }
    plan := Plan(globals + orphans, groups);
  }
}
