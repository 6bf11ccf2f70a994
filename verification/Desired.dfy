/**
 What the declared grants mean: the value each cell should end a pass with. `Goal` never
 mentions statements; the lemmas below show that a plan's effect is the goal.
 */
module Desired {
  import opened Sql
  import opened Privileges
  import opened Wrappers
  import opened Planner
  import opened Server
  import opened Routing
  import opened Effect

  // ---------- reading the declaration ----------

  function DeclaredDatabase(spec: seq<DatabaseSpec>, d: string): Option<DatabaseSpec> {
    if spec == [] then None
    else if spec[0].name == d then Some(spec[0])
    else DeclaredDatabase(spec[1..], d)
  }

  function SchemaEntry(schemas: seq<SchemaSpec>, s: string): Option<SchemaSpec> {
    if schemas == [] then None
    else if schemas[0].name == s then Some(schemas[0])
    else SchemaEntry(schemas[1..], s)
  }

  function DeclaredSchema(spec: seq<DatabaseSpec>, d: string, s: string): Option<SchemaSpec> {
    var e := DeclaredDatabase(spec, d);
    if e.Some? then SchemaEntry(e.value.schemas, s) else None
  }

  function ObjectEntry(entries: seq<ObjectSpec>, n: string): Option<ObjectSpec> {
    if entries == [] then None
    else if entries[0].name == n then Some(entries[0])
    else ObjectEntry(entries[1..], n)
  }

  /** What a list of declared privileges means on a place: ALL is the place's whole universe. */
  function Wanted(p: Place, privs: seq<string>): set<string> {
    Expand(p, AsSet(privs))
  }

  function WantedBy(p: Place, e: Option<ObjectSpec>): set<string> {
    if e.Some? then Wanted(p, e.value.privileges) else {}
  }

  function SnapshotOf(snap: seq<DatabaseSnapshot>, d: string, s: string): Option<SchemaSnapshot> {
    SchemaIn(DatabaseNamed(snap, d), s)
  }

  /** What the declaration asks for on a place. */
  function Asked(spec: seq<DatabaseSpec>, p: Place): set<string> {
    match p
    case DatabasePlace(d) =>
      var e := DeclaredDatabase(spec, d);
      if e.Some? then Wanted(p, e.value.privileges) else {}
    case SchemaPlace(d, s) =>
      var e := DeclaredSchema(spec, d, s);
      if e.Some? then Wanted(p, e.value.privileges) else {}
    case ObjectPlace(d, k, s, n) =>
      var e := DeclaredSchema(spec, d, s);
      if e.None? then {}
      else WantedBy(p, ObjectEntry(e.value.objects.Of(k), n)) + WantedBy(p, ObjectEntry(e.value.objects.Of(k), "*"))
  }

  /**
   Does a place keep what it holds? Undeclared schemas do, places the snapshot does not list do,
   and so do objects without an entry of their own under a wildcard entry.
   */
  predicate Kept(spec: seq<DatabaseSpec>, snap: seq<DatabaseSnapshot>, p: Place) {
    match p
    case DatabasePlace(d) => DatabaseNamed(snap, d).None?
    case SchemaPlace(d, s) => DeclaredSchema(spec, d, s).None? || SnapshotOf(snap, d, s).None?
    case ObjectPlace(d, k, s, n) =>
      var e := DeclaredSchema(spec, d, s);
      || e.None? || SnapshotOf(snap, d, s).None?
      || (ObjectEntry(e.value.objects.Of(k), n).None? && ObjectEntry(e.value.objects.Of(k), "*").Some?)
  }

  /** The value a place should end with, given what the snapshot lists and its value `v` before. */
  function Goal(spec: seq<DatabaseSpec>, snap: seq<DatabaseSnapshot>, p: Place, v: set<string>): set<string> {
    (if Kept(spec, snap, p) then v else {}) + Asked(spec, p)
  }

  // ---------- hypotheses ----------

  /** Held privileges are ones the place can have, and no object is called `*`. */
  ghost predicate WellTyped(cells: Cells) {
    forall c :: c in cells ==> cells[c] <= Universe(c.place) && (c.place.ObjectPlace? ==> c.place.name != "*")
  }

  /**
   What the snapshot lists is what the server holds, and lists are complete: a database with
   privileges is listed, and in a listed database every schema with schema-level privileges,
   and in a listed schema every object with privileges.
   */
  ghost predicate Faithful(user: string, snap: seq<DatabaseSnapshot>, cells: Cells) {
    && (forall d :: DatabaseNamed(snap, d).Some? ==> FaithfulDatabase(user, d, DatabaseNamed(snap, d).value, cells))
    && (forall d :: Cell(user, DatabasePlace(d)) in cells && cells[Cell(user, DatabasePlace(d))] != {} ==>
         DatabaseNamed(snap, d).Some?)
  }

  ghost predicate FaithfulDatabase(user: string, d: string, db: DatabaseSnapshot, cells: Cells) {
    && Holds(user, DatabasePlace(d), db.privileges, cells)
    && (forall s ::
      SchemaNamed(db.schemas, s).Some? ==> FaithfulSchema(user, d, s, SchemaNamed(db.schemas, s).value, cells))
    && (forall s :: Cell(user, SchemaPlace(d, s)) in cells && cells[Cell(user, SchemaPlace(d, s))] != {} ==>
         SchemaNamed(db.schemas, s).Some?)
  }

  ghost predicate FaithfulSchema(user: string, d: string, s: string, sc: SchemaSnapshot, cells: Cells) {
    && Holds(user, SchemaPlace(d, s), sc.privileges, cells)
    && (forall k, n :: n in ObjectNames(sc.objects.Of(k)) ==>
         var o := ObjectNamed(sc.objects.Of(k), n);
         Holds(user, ObjectPlace(d, k, s, n), o.privileges, cells) && o.privileges != [])
    && (forall k, n ::
      Cell(user, ObjectPlace(d, k, s, n)) in cells && cells[Cell(user, ObjectPlace(d, k, s, n))] != {} ==>
         n in ObjectNames(sc.objects.Of(k)))
  }

  ghost predicate Holds(user: string, p: Place, privs: seq<string>, cells: Cells) {
    Cell(user, p) in cells && cells[Cell(user, p)] == AsSet(privs)
  }

  // ---------- lookups under distinct names ----------

  lemma {:induction false} DeclaredDatabaseUnique(spec: seq<DatabaseSpec>, d: string)
    requires forall i, j :: 0 <= i < j < |spec| ==> spec[i].name != spec[j].name
    ensures forall e :: e in spec && e.name == d <==> DeclaredDatabase(spec, d) == Some(e)
    ensures DeclaresDatabase(spec, d) <==> DeclaredDatabase(spec, d).Some?
  {
    if spec != [] {
      DeclaredDatabaseUnique(spec[1..], d);
      assert forall e :: e in spec <==> e == spec[0] || e in spec[1..];
      assert forall e :: e in spec[1..] ==> e.name != spec[0].name;
    }
  }

  lemma {:induction false} SchemaEntryUnique(schemas: seq<SchemaSpec>, s: string)
    requires forall i, j :: 0 <= i < j < |schemas| ==> schemas[i].name != schemas[j].name
    ensures forall e :: e in schemas && e.name == s <==> SchemaEntry(schemas, s) == Some(e)
  {
    if schemas != [] {
      SchemaEntryUnique(schemas[1..], s);
      assert forall e :: e in schemas <==> e == schemas[0] || e in schemas[1..];
      assert forall e :: e in schemas[1..] ==> e.name != schemas[0].name;
    }
  }

  lemma {:induction false} ObjectEntryUnique(entries: seq<ObjectSpec>, n: string)
    requires DistinctEntries(entries)
    ensures forall e :: e in entries && e.name == n <==> ObjectEntry(entries, n) == Some(e)
    ensures Declares(entries, n) <==> ObjectEntry(entries, n).Some?
  {
    if entries != [] {
      ObjectEntryUnique(entries[1..], n);
      assert forall e :: e in entries <==> e == entries[0] || e in entries[1..];
      assert forall e :: e in entries[1..] ==> e.name != entries[0].name;
    }
  }

  lemma {:induction false} ObjectNamedAbsent(objects: seq<ObjectPrivilege>, n: string)
    requires n !in ObjectNames(objects)
    ensures ObjectNamed(objects, n).privileges == []
  {
    if objects != [] {
      assert objects[0] in objects;
      ObjectNamedAbsent(objects[1..], n);
    }
  }

  // ---------- demands by target ----------

  lemma DiffTarget(target: Target, actual: set<string>, desired: set<string>)
    ensures forall x :: x in DiffDemands(target, actual, desired) ==> x.target == target && x.privs != {}
  {
  }

  /** The demands about schema `s` of database `d` come from its one entry. */
  lemma GroupBySchema(spec: seq<DatabaseSpec>, snap: seq<DatabaseSnapshot>, d: string, s: string, x: Demand)
    requires DistinctNames(spec)
    requires !x.target.OnDatabase? && x.target.schema == s
    ensures x in GroupDemands(spec, snap, d) <==>
      DeclaredSchema(spec, d, s).Some? && x in SchemaDemands(DeclaredSchema(spec, d, s).value, SnapshotOf(snap, d, s))
  {
    DeclaredDatabaseUnique(spec, d);
    var e := DeclaredDatabase(spec, d);
    if e.Some? {
      SchemaEntryUnique(e.value.schemas, s);
      if x in GroupDemands(spec, snap, d) {
        assert x in SchemasDemands(e.value.schemas, DatabaseNamed(snap, d));
        var t :| t in e.value.schemas && x in SchemaDemands(t, SnapshotOf(snap, d, t.name));
        SchemaDemandsShape(t, SnapshotOf(snap, d, t.name), x);
      }
      if DeclaredSchema(spec, d, s).Some?
        && x in SchemaDemands(DeclaredSchema(spec, d, s).value, SnapshotOf(snap, d, s)) {
        assert x in SchemasDemands(e.value.schemas, DatabaseNamed(snap, d));
      }
    }
  }

  lemma SchemaLevelDemands(spec: SchemaSpec, actual: Option<SchemaSnapshot>, x: Demand)
    requires x.target == OnSchema(spec.name)
    ensures x in SchemaDemands(spec, actual) <==>
      x in DiffDemands(OnSchema(spec.name), AsSet(Held(actual)), AsSet(spec.privileges))
  {
  }

  lemma KindListed(k: Kind)
    ensures k in KINDS
  {
    match k
    case Table => assert KINDS[0] == k;
    case View => assert KINDS[1] == k;
    case MaterializedView => assert KINDS[2] == k;
    case Source => assert KINDS[3] == k;
    case Sink => assert KINDS[4] == k;
    case Secret => assert KINDS[5] == k;
    case Function => assert KINDS[6] == k;
  }

  lemma KindLevelDemands(spec: SchemaSpec, actual: Option<SchemaSnapshot>, k: Kind, x: Demand)
    requires x.target.OnObject? || x.target.OnAllObjects?
    requires x.target.kind == k
    ensures x in SchemaDemands(spec, actual) <==>
      || x in OrphanDemands(k, spec.name, spec.objects.Of(k), HeldObjects(actual, k))
      || x in EntryDemands(k, spec.name, spec.objects.Of(k), HeldObjects(actual, k))
  {
    KindListed(k);
    var ks := KINDS;
    if x in OrphansOf(ks, spec, actual) {
      var l :| l in ks && x in OrphanDemands(l, spec.name, spec.objects.Of(l), HeldObjects(actual, l));
      KindDemandsShape(l, spec.name, spec.objects.Of(l), HeldObjects(actual, l), x);
    }
    if x in EntriesOf(ks, spec, actual) {
      var l :| l in ks && x in EntryDemands(l, spec.name, spec.objects.Of(l), HeldObjects(actual, l));
      KindDemandsShape(l, spec.name, spec.objects.Of(l), HeldObjects(actual, l), x);
    }
    DiffTarget(OnSchema(spec.name), AsSet(Held(actual)), AsSet(spec.privileges));
  }

  // ---------- the effect of demands is the goal ----------

  /** Taking what is held and not wanted, then giving what is wanted and not held. */
  lemma DiffReaches(p: Place, actual: set<string>, desired: set<string>)
    requires "ALL" !in actual
    ensures (actual - Expand(p, actual - desired)) + Expand(p, desired - actual) == Expand(p, desired)
  {
  }

  lemma DiffEffect(target: Target, p: Place, actual: set<string>, desired: set<string>)
    requires Covers(target, p.database, p)
    ensures GivenBy(DiffDemands(target, actual, desired), p) == Expand(p, desired - actual)
    ensures TakenBy(DiffDemands(target, actual, desired), p) == Expand(p, actual - desired)
  {
    var demands := DiffDemands(target, actual, desired);
    if desired - actual != {} { assert Demand(Grant, desired - actual, target) in demands; }
    if actual - desired != {} { assert Demand(Revoke, actual - desired, target) in demands; }
  }

  /** Only the demands that cover a place matter to it. */
  lemma SameEffect(a: set<Demand>, b: set<Demand>, p: Place)
    requires forall x: Demand :: Covers(x.target, p.database, p) ==> (x in a <==> x in b)
    ensures GivenBy(a, p) == GivenBy(b, p) && TakenBy(a, p) == TakenBy(b, p)
  {
  }

  lemma EffectOfSum(a: set<Demand>, b: set<Demand>, p: Place)
    ensures GivenBy(a + b, p) == GivenBy(a, p) + GivenBy(b, p)
    ensures TakenBy(a + b, p) == TakenBy(a, p) + TakenBy(b, p)
  {
  }

  lemma {:induction false} DatabaseListed(snap: seq<DatabaseSnapshot>, d: string)
    ensures DatabaseNamed(snap, d).Some? <==> exists a :: a in snap && a.name == d
    ensures DatabaseNamed(snap, d).Some? ==>
      DatabaseNamed(snap, d).value in snap && DatabaseNamed(snap, d).value.name == d
  {
    if snap != [] {
      DatabaseListed(snap[..|snap| - 1], d);
      assert snap == snap[..|snap| - 1] + [snap[|snap| - 1]];
      assert forall a :: a in snap <==> a in snap[..|snap| - 1] || a == snap[|snap| - 1];
    }
  }

  /** The one revocation an undeclared thing gets. */
  function Wholesale(target: Target): set<Demand> {
    {Demand(Revoke, {"ALL"}, target)}
  }

  lemma WholesaleEffect(target: Target, p: Place)
    requires Covers(target, p.database, p)
    ensures GivenBy(Wholesale(target), p) == {} && TakenBy(Wholesale(target), p) == Universe(p)
  {
    var x := Demand(Revoke, {"ALL"}, target);
    assert x in Wholesale(target);
    assert Expand(p, x.privs) == Universe(p);
  }

  /** The demands about database `d` itself. */
  function DatabasePart(spec: seq<DatabaseSpec>, snap: seq<DatabaseSnapshot>, d: string): set<Demand> {
    var e, a := DeclaredDatabase(spec, d), DatabaseNamed(snap, d);
    if e.Some? then DiffDemands(OnDatabase(d), AsSet(HeldOnDatabase(a)), AsSet(e.value.privileges))
    else if HeldOnDatabase(a) != [] then Wholesale(OnDatabase(d))
    else {}
  }

  lemma DatabaseDecides(user: string, spec: seq<DatabaseSpec>, snap: seq<DatabaseSnapshot>, plan: Plan, d: string,
                        x: Demand)
    requires IsPlan(user, spec, snap, plan) && DistinctNames(spec) && x.target == OnDatabase(d)
    ensures x in Deciding(plan, DatabasePlace(d)) <==> x in DatabasePart(spec, snap, d)
  {
    DeclaredDatabaseUnique(spec, d);
    DatabaseListed(snap, d);
    var e, a := DeclaredDatabase(spec, d), DatabaseNamed(snap, d);
    if x in OrphanDatabaseDemands(spec, snap) {
      assert x == Demand(Revoke, {"ALL"}, OnDatabase(d));
    }
    if e.None? && a.Some? && a.value.privileges != [] {
      assert a.value in snap;
      assert Demand(Revoke, {"ALL"}, OnDatabase(a.value.name)) in OrphanDatabaseDemands(spec, snap);
    }
    if x in DatabaseDemands(spec, snap) {
      var f :| f in spec
        && x in DiffDemands(OnDatabase(f.name), AsSet(HeldOnDatabase(DatabaseNamed(snap, f.name))),
          AsSet(f.privileges));
      DiffTarget(OnDatabase(f.name), AsSet(HeldOnDatabase(DatabaseNamed(snap, f.name))), AsSet(f.privileges));
    }
  }

  lemma DatabaseReachesGoal(user: string, spec: seq<DatabaseSpec>, snap: seq<DatabaseSnapshot>, plan: Plan,
                            cells: Cells, d: string)
    requires IsPlan(user, spec, snap, plan) && DistinctNames(spec)
    requires WellTyped(cells) && Faithful(user, snap, cells) && Cell(user, DatabasePlace(d)) in cells
    ensures var p := DatabasePlace(d); var v := cells[Cell(user, p)];
      && (v - TakenBy(Deciding(plan, p), p)) + GivenBy(Deciding(plan, p), p) == Goal(spec, snap, p, v)
      && (Kept(spec, snap, p) ==> TakenBy(Deciding(plan, p), p) == {})
  {
    var p := DatabasePlace(d);
    var e, a, held := DeclaredDatabase(spec, d), DatabaseNamed(snap, d), AsSet(HeldOnDatabase(DatabaseNamed(snap, d)));
    forall x: Demand | Covers(x.target, d, p) ensures x in Deciding(plan, p) <==> x in DatabasePart(spec, snap, d) {
      DatabaseDecides(user, spec, snap, plan, d, x);
    }
    SameEffect(Deciding(plan, p), DatabasePart(spec, snap, d), p);
    assert held <= Universe(p);
    if e.Some? {
      DiffEffect(OnDatabase(d), p, held, AsSet(e.value.privileges));
      DiffReaches(p, held, AsSet(e.value.privileges));
    } else if HeldOnDatabase(a) != [] {
      WholesaleEffect(OnDatabase(d), p);
    } else {
      assert a.Some? ==> held == {};
    }
  }

  /** Places inside a database are decided by its group's demands. */
  lemma GroupDecides(user: string, spec: seq<DatabaseSpec>, snap: seq<DatabaseSnapshot>, plan: Plan, p: Place,
                     x: Demand)
    requires IsPlan(user, spec, snap, plan) && PlanShaped(plan) && Named(plan.groups)
    requires !p.DatabasePlace? && Covers(x.target, p.database, p)
    ensures x in Deciding(plan, p) <==> x in GroupDemands(spec, snap, p.database)
  {
    var d := p.database;
    if !DeclaresDatabase(spec, d) {
      assert GroupDemands(spec, snap, d) == {};
    }
    assert forall s :: s in plan.globals ==> DemandOf(s).target.OnDatabase?;
  }

  /** The demands about a schema itself. */
  function SchemaPart(e: Option<SchemaSpec>, s: string, actual: Option<SchemaSnapshot>): set<Demand> {
    if e.Some? then DiffDemands(OnSchema(s), AsSet(Held(actual)), AsSet(e.value.privileges)) else {}
  }

  lemma SchemaDecides(user: string, spec: seq<DatabaseSpec>, snap: seq<DatabaseSnapshot>, plan: Plan, d: string,
                      s: string, x: Demand)
    requires IsPlan(user, spec, snap, plan) && PlanShaped(plan) && Named(plan.groups) && DistinctNames(spec)
    requires x.target == OnSchema(s)
    ensures x in Deciding(plan, SchemaPlace(d, s)) <==>
      x in SchemaPart(DeclaredSchema(spec, d, s), s, SnapshotOf(snap, d, s))
  {
    SchemaEntryNamed(spec, d, s);
    GroupDecides(user, spec, snap, plan, SchemaPlace(d, s), x);
    GroupBySchema(spec, snap, d, s, x);
    if DeclaredSchema(spec, d, s).Some? {
      SchemaLevelDemands(DeclaredSchema(spec, d, s).value, SnapshotOf(snap, d, s), x);
    }
  }

  lemma SchemaReachesGoal(user: string, spec: seq<DatabaseSpec>, snap: seq<DatabaseSnapshot>, plan: Plan, cells: Cells,
                          d: string, s: string)
    requires IsPlan(user, spec, snap, plan) && PlanShaped(plan) && Named(plan.groups) && DistinctNames(spec)
    requires WellTyped(cells) && Faithful(user, snap, cells) && Cell(user, SchemaPlace(d, s)) in cells
    ensures var p := SchemaPlace(d, s); var v := cells[Cell(user, p)];
      && (v - TakenBy(Deciding(plan, p), p)) + GivenBy(Deciding(plan, p), p) == Goal(spec, snap, p, v)
      && (Kept(spec, snap, p) ==> TakenBy(Deciding(plan, p), p) == {})
  {
    var p := SchemaPlace(d, s);
    var v := cells[Cell(user, p)];
    var e, actual := DeclaredSchema(spec, d, s), SnapshotOf(snap, d, s);
    var held := if actual.Some? then v else {};
    assert AsSet(Held(actual)) == held && v <= Universe(p) by {
      assert actual.Some? ==> FaithfulSchema(user, d, s, actual.value, cells);
    }
    var taken, given := TakenBy(Deciding(plan, p), p), GivenBy(Deciding(plan, p), p);
    assert if e.None? then taken == {} && given == {}
      else taken == Expand(p, held - AsSet(e.value.privileges)) && given == Expand(p, AsSet(e.value.privileges) - held)
    by {
      SchemaEffect(user, spec, snap, plan, d, s);
    }
    if e.Some? {
      DiffReaches(p, held, AsSet(e.value.privileges));
    }
  }

  lemma SchemaEffect(user: string, spec: seq<DatabaseSpec>, snap: seq<DatabaseSnapshot>, plan: Plan, d: string,
                     s: string)
    requires IsPlan(user, spec, snap, plan) && PlanShaped(plan) && Named(plan.groups) && DistinctNames(spec)
    ensures var p, e, held := SchemaPlace(d, s), DeclaredSchema(spec, d, s), AsSet(Held(SnapshotOf(snap, d, s)));
      if e.None? then GivenBy(Deciding(plan, p), p) == {} && TakenBy(Deciding(plan, p), p) == {}
      else
        && GivenBy(Deciding(plan, p), p) == Expand(p, AsSet(e.value.privileges) - held)
        && TakenBy(Deciding(plan, p), p) == Expand(p, held - AsSet(e.value.privileges))
  {
    var p, e, actual := SchemaPlace(d, s), DeclaredSchema(spec, d, s), SnapshotOf(snap, d, s);
    forall x: Demand | Covers(x.target, d, p) ensures x in Deciding(plan, p) <==> x in SchemaPart(e, s, actual) {
      SchemaDecides(user, spec, snap, plan, d, s, x);
    }
    SameEffect(Deciding(plan, p), SchemaPart(e, s, actual), p);
    if e.Some? {
      DiffEffect(OnSchema(s), p, AsSet(Held(actual)), AsSet(e.value.privileges));
    }
  }

  lemma SchemaEntryNamed(spec: seq<DatabaseSpec>, d: string, s: string)
    requires DistinctNames(spec)
    ensures DeclaredSchema(spec, d, s).Some? ==>
      && DeclaredSchema(spec, d, s).value.name == s
      && forall k :: k in KINDS ==> DistinctEntries(DeclaredSchema(spec, d, s).value.objects.Of(k))
  {
    DeclaredDatabaseUnique(spec, d);
    if DeclaredDatabase(spec, d).Some? {
      SchemaEntryUnique(DeclaredDatabase(spec, d).value.schemas, s);
    }
  }

  /** The demands about one object: its own entry's, the wildcard entry's, or its revocation as an orphan. */
  function ObjectPart(k: Kind, s: string, n: string, entries: seq<ObjectSpec>,
                      actual: seq<ObjectPrivilege>): set<Demand> {
    var own, all := ObjectEntry(entries, n), ObjectEntry(entries, "*");
    (if own.Some? then DiffDemands(OnObject(k, s, n), AsSet(ObjectNamed(actual, n).privileges),
      AsSet(own.value.privileges)) else {})
    + (if all.Some? then DiffDemands(OnAllObjects(k, s), {}, AsSet(all.value.privileges)) else {})
    + (if own.None? && all.None? && n in ObjectNames(actual) then Wholesale(OnObject(k, s, n)) else {})
  }

  function ObjectGiven(p: Place, own: Option<ObjectSpec>, all: Option<ObjectSpec>, held: set<string>): set<string> {
    (if own.Some? then Expand(p, AsSet(own.value.privileges) - held) else {}) + WantedBy(p, all)
  }

  function ObjectTaken(p: Place, own: Option<ObjectSpec>, all: Option<ObjectSpec>, held: set<string>,
                       listed: bool): set<string> {
    if own.Some? then Expand(p, held - AsSet(own.value.privileges))
    else if all.None? && listed then Universe(p)
    else {}
  }

  lemma EntriesDecide(k: Kind, s: string, n: string, entries: seq<ObjectSpec>, actual: seq<ObjectPrivilege>, x: Demand)
    requires DistinctEntries(entries) && n != "*" && "*" !in ObjectNames(actual)
    requires x.target == OnObject(k, s, n) || x.target == OnAllObjects(k, s)
    ensures x in EntryDemands(k, s, entries, actual) <==>
      var own, all := ObjectEntry(entries, n), ObjectEntry(entries, "*");
      || (own.Some? && x in DiffDemands(OnObject(k, s, n), AsSet(ObjectNamed(actual, n).privileges),
        AsSet(own.value.privileges)))
      || (all.Some? && x in DiffDemands(OnAllObjects(k, s), {}, AsSet(all.value.privileges)))
  {
    ObjectEntryUnique(entries, n);
    ObjectEntryUnique(entries, "*");
    ObjectNamedAbsent(actual, "*");
    assert AsSet(ObjectNamed(actual, "*").privileges) == {};
    var own, all := ObjectEntry(entries, n), ObjectEntry(entries, "*");
    if own.Some? && x in DiffDemands(OnObject(k, s, n), AsSet(ObjectNamed(actual, n).privileges),
      AsSet(own.value.privileges)) {
      assert own.value in entries && TargetFor(k, s, own.value.name) == OnObject(k, s, n);
    }
    if all.Some? && x in DiffDemands(OnAllObjects(k, s), {}, AsSet(all.value.privileges)) {
      assert all.value in entries && all.value.name == "*" && TargetFor(k, s, all.value.name) == OnAllObjects(k, s);
      assert x in DiffDemands(TargetFor(k, s, "*"), AsSet(ObjectNamed(actual, "*").privileges),
        AsSet(all.value.privileges));
    }
    if x in EntryDemands(k, s, entries, actual) {
      var e :| e in entries
        && x in DiffDemands(TargetFor(k, s, e.name), AsSet(ObjectNamed(actual, e.name).privileges),
          AsSet(e.privileges));
      DiffTarget(TargetFor(k, s, e.name), AsSet(ObjectNamed(actual, e.name).privileges), AsSet(e.privileges));
      if e.name == "*" {
        assert all == Some(e);
      } else {
        assert e.name == n && own == Some(e);
      }
    }
  }

  lemma OrphansDecide(k: Kind, s: string, n: string, entries: seq<ObjectSpec>, actual: seq<ObjectPrivilege>, x: Demand)
    requires DistinctEntries(entries) && n != "*" && "*" !in ObjectNames(actual)
    requires x.target == OnObject(k, s, n) || x.target == OnAllObjects(k, s)
    ensures x in OrphanDemands(k, s, entries, actual) <==>
      && ObjectEntry(entries, n).None? && ObjectEntry(entries, "*").None? && n in ObjectNames(actual)
      && x in Wholesale(OnObject(k, s, n))
  {
    ObjectEntryUnique(entries, n);
    ObjectEntryUnique(entries, "*");
  }

  lemma ObjectPartEffect(p: Place, entries: seq<ObjectSpec>, actual: seq<ObjectPrivilege>)
    requires p.ObjectPlace? && p.name != "*"
    requires "ALL" !in AsSet(ObjectNamed(actual, p.name).privileges)
    ensures var own, all := ObjectEntry(entries, p.name), ObjectEntry(entries, "*");
      var held, part := AsSet(ObjectNamed(actual, p.name).privileges),
        ObjectPart(p.kind, p.schema, p.name, entries, actual);
      && GivenBy(part, p) == ObjectGiven(p, own, all, held)
      && TakenBy(part, p) == ObjectTaken(p, own, all, held, p.name in ObjectNames(actual))
  {
    var own, all := ObjectEntry(entries, p.name), ObjectEntry(entries, "*");
    var held := AsSet(ObjectNamed(actual, p.name).privileges);
    var a := if own.Some? then DiffDemands(OnObject(p.kind, p.schema, p.name), held, AsSet(own.value.privileges))
      else {};
    var b := if all.Some? then DiffDemands(OnAllObjects(p.kind, p.schema), {}, AsSet(all.value.privileges)) else {};
    var c := if own.None? && all.None? && p.name in ObjectNames(actual)
      then Wholesale(OnObject(p.kind, p.schema, p.name)) else {};
    EffectOfSum(a + b, c, p);
    EffectOfSum(a, b, p);
    if own.Some? { DiffEffect(OnObject(p.kind, p.schema, p.name), p, held, AsSet(own.value.privileges)); }
    if all.Some? {
      DiffEffect(OnAllObjects(p.kind, p.schema), p, {}, AsSet(all.value.privileges));
      assert AsSet(all.value.privileges) - {} == AsSet(all.value.privileges);
    }
    if c != {} { WholesaleEffect(OnObject(p.kind, p.schema, p.name), p); }
  }

  lemma ObjectDecides(user: string, spec: seq<DatabaseSpec>, snap: seq<DatabaseSnapshot>, plan: Plan, p: Place,
                      x: Demand)
    requires IsPlan(user, spec, snap, plan) && PlanShaped(plan) && Named(plan.groups) && DistinctNames(spec)
    requires p.ObjectPlace? && p.name != "*" && Covers(x.target, p.database, p)
    requires "*" !in ObjectNames(HeldObjects(SnapshotOf(snap, p.database, p.schema), p.kind))
    ensures var e := DeclaredSchema(spec, p.database, p.schema);
      x in Deciding(plan, p) <==> e.Some? && x in ObjectPart(p.kind, p.schema, p.name, e.value.objects.Of(p.kind),
                                                          HeldObjects(SnapshotOf(snap, p.database, p.schema), p.kind))
  {
    var e, actual := DeclaredSchema(spec, p.database, p.schema), SnapshotOf(snap, p.database, p.schema);
    GroupDecides(user, spec, snap, plan, p, x);
    GroupBySchema(spec, snap, p.database, p.schema, x);
    SchemaEntryNamed(spec, p.database, p.schema);
    if e.Some? {
      KindLevelDemands(e.value, actual, p.kind, x);
      EntriesDecide(p.kind, p.schema, p.name, e.value.objects.Of(p.kind), HeldObjects(actual, p.kind), x);
      OrphansDecide(p.kind, p.schema, p.name, e.value.objects.Of(p.kind), HeldObjects(actual, p.kind), x);
    }
  }

  /** What a faithful snapshot says about one object. */
  lemma ObjectHeld(user: string, snap: seq<DatabaseSnapshot>, cells: Cells, p: Place)
    requires WellTyped(cells) && Faithful(user, snap, cells)
    requires p.ObjectPlace? && Cell(user, p) in cells
    ensures var actual := HeldObjects(SnapshotOf(snap, p.database, p.schema), p.kind);
      && "*" !in ObjectNames(actual)
      && AsSet(ObjectNamed(actual, p.name).privileges)
         == (if SnapshotOf(snap, p.database, p.schema).Some? then cells[Cell(user, p)] else {})
      && (p.name in ObjectNames(actual) <==> SnapshotOf(snap, p.database, p.schema).Some? && cells[Cell(user, p)] != {})
  {
    var sc := SnapshotOf(snap, p.database, p.schema);
    var actual := HeldObjects(sc, p.kind);
    if p.name !in ObjectNames(actual) {
      ObjectNamedAbsent(actual, p.name);
    }
    if sc.Some? {
      assert FaithfulSchema(user, p.database, p.schema, sc.value, cells);
      if p.name in ObjectNames(actual) {
        var o := ObjectNamed(actual, p.name);
        assert o.privileges[0] in AsSet(o.privileges);
      }
    }
  }

  /** The arithmetic of one object: own entry, wildcard entry, orphan. */
  lemma ObjectArithmetic(p: Place, v: set<string>, known: bool, own: Option<ObjectSpec>, all: Option<ObjectSpec>)
    requires v <= Universe(p)
    ensures var held, listed := if known then v else {}, known && v != {};
      var kept := !known || (own.None? && all.Some?);
      && (v - ObjectTaken(p, own, all, held, listed)) + ObjectGiven(p, own, all, held)
         == (if kept then v else {}) + (WantedBy(p, own) + WantedBy(p, all))
      && (kept ==> ObjectTaken(p, own, all, held, listed) == {})
  {
    if own.Some? {
      DiffReaches(p, if known then v else {}, AsSet(own.value.privileges));
      assert (if known then v else {}) - AsSet(own.value.privileges) <= Universe(p);
    }
  }

  lemma ObjectReachesGoal(user: string, spec: seq<DatabaseSpec>, snap: seq<DatabaseSnapshot>, plan: Plan, cells: Cells,
                          p: Place)
    requires IsPlan(user, spec, snap, plan) && PlanShaped(plan) && Named(plan.groups) && DistinctNames(spec)
    requires WellTyped(cells) && Faithful(user, snap, cells)
    requires p.ObjectPlace? && Cell(user, p) in cells
    ensures var v := cells[Cell(user, p)];
      && (v - TakenBy(Deciding(plan, p), p)) + GivenBy(Deciding(plan, p), p) == Goal(spec, snap, p, v)
      && (Kept(spec, snap, p) ==> TakenBy(Deciding(plan, p), p) == {})
  {
    var v := cells[Cell(user, p)];
    assert v <= Universe(p) && p.name != "*";
    var e, sc := DeclaredSchema(spec, p.database, p.schema), SnapshotOf(snap, p.database, p.schema);
    var taken, given := TakenBy(Deciding(plan, p), p), GivenBy(Deciding(plan, p), p);
    assert if e.None? then taken == {} && given == {}
      else
        var own, all := ObjectEntry(e.value.objects.Of(p.kind), p.name), ObjectEntry(e.value.objects.Of(p.kind), "*");
        var held := if sc.Some? then v else {};
        given == ObjectGiven(p, own, all, held) && taken == ObjectTaken(p, own, all, held, sc.Some? && v != {})
    by {
      ObjectHeld(user, snap, cells, p);
      ObjectEffect(user, spec, snap, plan, p);
    }
    if e.Some? {
      ObjectArithmetic(p, v, sc.Some?, ObjectEntry(e.value.objects.Of(p.kind), p.name),
        ObjectEntry(e.value.objects.Of(p.kind), "*"));
    }
  }

  lemma ObjectEffect(user: string, spec: seq<DatabaseSpec>, snap: seq<DatabaseSnapshot>, plan: Plan, p: Place)
    requires IsPlan(user, spec, snap, plan) && PlanShaped(plan) && Named(plan.groups) && DistinctNames(spec)
    requires p.ObjectPlace? && p.name != "*"
    requires var held := HeldObjects(SnapshotOf(snap, p.database, p.schema), p.kind);
      "*" !in ObjectNames(held) && "ALL" !in AsSet(ObjectNamed(held, p.name).privileges)
    ensures var e, actual := DeclaredSchema(spec, p.database, p.schema),
      HeldObjects(SnapshotOf(snap, p.database, p.schema), p.kind);
      if e.None? then GivenBy(Deciding(plan, p), p) == {} && TakenBy(Deciding(plan, p), p) == {}
      else
        var own, all := ObjectEntry(e.value.objects.Of(p.kind), p.name), ObjectEntry(e.value.objects.Of(p.kind), "*");
        var held := AsSet(ObjectNamed(actual, p.name).privileges);
        && GivenBy(Deciding(plan, p), p) == ObjectGiven(p, own, all, held)
        && TakenBy(Deciding(plan, p), p) == ObjectTaken(p, own, all, held, p.name in ObjectNames(actual))
  {
    var e, actual := DeclaredSchema(spec, p.database, p.schema),
      HeldObjects(SnapshotOf(snap, p.database, p.schema), p.kind);
    var part := if e.Some? then ObjectPart(p.kind, p.schema, p.name, e.value.objects.Of(p.kind), actual) else {};
    forall x: Demand | Covers(x.target, p.database, p) ensures x in Deciding(plan, p) <==> x in part {
      ObjectDecides(user, spec, snap, plan, p, x);
    }
    SameEffect(Deciding(plan, p), part, p);
    if e.Some? {
      ObjectPartEffect(p, e.value.objects.Of(p.kind), actual);
    }
  }

  /** What a plan takes from a declared object is held and not declared. */
  lemma TakesOnlyUndeclared(user: string, spec: seq<DatabaseSpec>, snap: seq<DatabaseSnapshot>, plan: Plan,
                            cells: Cells, p: Place, own: ObjectSpec)
    requires IsPlan(user, spec, snap, plan) && PlanShaped(plan) && Named(plan.groups) && DistinctNames(spec)
    requires WellTyped(cells) && Faithful(user, snap, cells)
    requires p.ObjectPlace? && Cell(user, p) in cells && DeclaredSchema(spec, p.database, p.schema).Some?
    requires ObjectEntry(DeclaredSchema(spec, p.database, p.schema).value.objects.Of(p.kind), p.name) == Some(own)
    ensures TakenBy(Deciding(plan, p), p) <= cells[Cell(user, p)] - AsSet(own.privileges)
  {
    var v := cells[Cell(user, p)];
    var held := if SnapshotOf(snap, p.database, p.schema).Some? then v else {};
    var taken := TakenBy(Deciding(plan, p), p);
    assert v <= Universe(p) && p.name != "*";
    assert taken == Expand(p, held - AsSet(own.privileges)) by {
      ObjectHeld(user, snap, cells, p);
      ObjectEffect(user, spec, snap, plan, p);
    }
    ExpandConcrete(p, held - AsSet(own.privileges));
  }

  /** What a plan takes from a declared schema is held and not declared. */
  lemma SchemaTakesOnlyUndeclared(user: string, spec: seq<DatabaseSpec>, snap: seq<DatabaseSnapshot>, plan: Plan,
                                  cells: Cells, d: string, s: string)
    requires IsPlan(user, spec, snap, plan) && PlanShaped(plan) && Named(plan.groups) && DistinctNames(spec)
    requires WellTyped(cells) && Faithful(user, snap, cells) && Cell(user, SchemaPlace(d, s)) in cells
    requires DeclaredSchema(spec, d, s).Some?
    ensures TakenBy(Deciding(plan, SchemaPlace(d, s)), SchemaPlace(d, s))
      <= cells[Cell(user, SchemaPlace(d, s))] - AsSet(DeclaredSchema(spec, d, s).value.privileges)
  {
    var p, actual, declared :=
      SchemaPlace(d, s), SnapshotOf(snap, d, s), AsSet(DeclaredSchema(spec, d, s).value.privileges);
    var held := AsSet(Held(actual));
    assert held <= cells[Cell(user, p)] <= Universe(p) by {
      assert actual.Some? ==> FaithfulSchema(user, d, s, actual.value, cells);
    }
    SchemaEffect(user, spec, snap, plan, d, s);
    ExpandConcrete(p, held - declared);
  }

  /** What a plan takes from a declared database is held and not declared. */
  lemma DatabaseTakesOnlyUndeclared(user: string, spec: seq<DatabaseSpec>, snap: seq<DatabaseSnapshot>, plan: Plan,
                                    cells: Cells, d: string)
    requires IsPlan(user, spec, snap, plan) && DistinctNames(spec)
    requires WellTyped(cells) && Faithful(user, snap, cells) && Cell(user, DatabasePlace(d)) in cells
    requires DeclaredDatabase(spec, d).Some?
    ensures TakenBy(Deciding(plan, DatabasePlace(d)), DatabasePlace(d))
      <= cells[Cell(user, DatabasePlace(d))] - AsSet(DeclaredDatabase(spec, d).value.privileges)
  {
    var p, declared := DatabasePlace(d), AsSet(DeclaredDatabase(spec, d).value.privileges);
    var held := AsSet(HeldOnDatabase(DatabaseNamed(snap, d)));
    forall x: Demand | Covers(x.target, d, p) ensures x in Deciding(plan, p) <==> x in DatabasePart(spec, snap, d) {
      DatabaseDecides(user, spec, snap, plan, d, x);
    }
    SameEffect(Deciding(plan, p), DatabasePart(spec, snap, d), p);
    DiffEffect(OnDatabase(d), p, held, declared);
    assert held <= cells[Cell(user, p)] <= Universe(p);
    ExpandConcrete(p, held - declared);
  }

  lemma ExpandConcrete(p: Place, privs: set<string>)
    requires privs <= Universe(p)
    ensures Expand(p, privs) == privs
  {
  }

  lemma NothingCalledStar(user: string, snap: seq<DatabaseSnapshot>, cells: Cells, d: string, s: string, k: Kind)
    requires WellTyped(cells) && SnapshotOf(snap, d, s).Some?
    requires FaithfulSchema(user, d, s, SnapshotOf(snap, d, s).value, cells)
    ensures "*" !in ObjectNames(HeldObjects(SnapshotOf(snap, d, s), k))
  {
    var objects := SnapshotOf(snap, d, s).value.objects.Of(k);
    assert forall n :: n in ObjectNames(objects) ==> Cell(user, ObjectPlace(d, k, s, n)) in cells;
  }

  lemma ExpandMonotone(p: Place, a: set<string>, b: set<string>)
    requires a <= b
    ensures Expand(p, a) <= Expand(p, b)
  {
  }

  /** What a listed object is listed with is something it can have, and not ALL. */
  lemma ListedWithoutAll(user: string, snap: seq<DatabaseSnapshot>, cells: Cells, d: string, k: Kind, s: string,
                         n: string)
    requires WellTyped(cells) && Faithful(user, snap, cells)
    ensures "*" !in ObjectNames(HeldObjects(SnapshotOf(snap, d, s), k))
    ensures "ALL" !in AsSet(ObjectNamed(HeldObjects(SnapshotOf(snap, d, s), k), n).privileges)
  {
    var sc := SnapshotOf(snap, d, s);
    var actual := HeldObjects(sc, k);
    if sc.Some? {
      assert FaithfulSchema(user, d, s, sc.value, cells);
      NothingCalledStar(user, snap, cells, d, s, k);
    }
    if n in ObjectNames(actual) {
      assert Holds(user, ObjectPlace(d, k, s, n), ObjectNamed(actual, n).privileges, cells);
      assert "ALL" !in Universe(ObjectPlace(d, k, s, n));
    } else {
      ObjectNamedAbsent(actual, n);
    }
  }

  /** A plan gives a place only what is asked for there, whether or not the place exists. */
  lemma GivenIsAsked(user: string, spec: seq<DatabaseSpec>, snap: seq<DatabaseSnapshot>, plan: Plan, cells: Cells,
                     p: Place)
    requires IsPlan(user, spec, snap, plan) && PlanShaped(plan) && Named(plan.groups) && DistinctNames(spec)
    requires WellTyped(cells) && Faithful(user, snap, cells) && (p.ObjectPlace? ==> p.name != "*")
    ensures GivenBy(Deciding(plan, p), p) <= Asked(spec, p)
  {
    match p
    case DatabasePlace(d) => DatabaseGivenIsAsked(user, spec, snap, plan, d);
    case SchemaPlace(d, s) =>
      SchemaEffect(user, spec, snap, plan, d, s);
      var e, held := DeclaredSchema(spec, d, s), AsSet(Held(SnapshotOf(snap, d, s)));
      if e.Some? {
        ExpandMonotone(p, AsSet(e.value.privileges) - held, AsSet(e.value.privileges));
      }
    case ObjectPlace(d, k, s, n) =>
      ListedWithoutAll(user, snap, cells, d, k, s, n);
      ObjectGivenIsAsked(user, spec, snap, plan, p);
  }

  lemma DatabaseGivenIsAsked(user: string, spec: seq<DatabaseSpec>, snap: seq<DatabaseSnapshot>, plan: Plan, d: string)
    requires IsPlan(user, spec, snap, plan) && DistinctNames(spec)
    ensures GivenBy(Deciding(plan, DatabasePlace(d)), DatabasePlace(d)) <= Asked(spec, DatabasePlace(d))
  {
    var p, e, held := DatabasePlace(d), DeclaredDatabase(spec, d), AsSet(HeldOnDatabase(DatabaseNamed(snap, d)));
    forall x: Demand | Covers(x.target, d, p) ensures x in Deciding(plan, p) <==> x in DatabasePart(spec, snap, d) {
      DatabaseDecides(user, spec, snap, plan, d, x);
    }
    SameEffect(Deciding(plan, p), DatabasePart(spec, snap, d), p);
    if e.Some? {
      DiffEffect(OnDatabase(d), p, held, AsSet(e.value.privileges));
      ExpandMonotone(p, AsSet(e.value.privileges) - held, AsSet(e.value.privileges));
    } else {
      assert GivenBy(DatabasePart(spec, snap, d), p) == {};
    }
  }

  lemma ObjectGivenIsAsked(user: string, spec: seq<DatabaseSpec>, snap: seq<DatabaseSnapshot>, plan: Plan, p: Place)
    requires IsPlan(user, spec, snap, plan) && PlanShaped(plan) && Named(plan.groups) && DistinctNames(spec)
    requires p.ObjectPlace? && p.name != "*"
    requires var held := HeldObjects(SnapshotOf(snap, p.database, p.schema), p.kind);
      "*" !in ObjectNames(held) && "ALL" !in AsSet(ObjectNamed(held, p.name).privileges)
    ensures GivenBy(Deciding(plan, p), p) <= Asked(spec, p)
  {
    ObjectEffect(user, spec, snap, plan, p);
    var e := DeclaredSchema(spec, p.database, p.schema);
    if e.Some? {
      var own := ObjectEntry(e.value.objects.Of(p.kind), p.name);
      var held := AsSet(ObjectNamed(HeldObjects(SnapshotOf(snap, p.database, p.schema), p.kind), p.name).privileges);
      if own.Some? {
        ExpandMonotone(p, AsSet(own.value.privileges) - held, AsSet(own.value.privileges));
      }
    }
  }

  /** For every place, the effect of the plan is the goal. */
  lemma PlanReachesGoal(user: string, spec: seq<DatabaseSpec>, snap: seq<DatabaseSnapshot>, plan: Plan, cells: Cells,
                        p: Place)
    requires IsPlan(user, spec, snap, plan) && PlanShaped(plan) && Named(plan.groups) && DistinctNames(spec)
    requires WellTyped(cells) && Faithful(user, snap, cells) && Cell(user, p) in cells
    ensures var v := cells[Cell(user, p)];
      && (v - TakenBy(Deciding(plan, p), p)) + GivenBy(Deciding(plan, p), p) == Goal(spec, snap, p, v)
      && (Kept(spec, snap, p) ==> TakenBy(Deciding(plan, p), p) == {})
  {
    match p
    case DatabasePlace(d) => DatabaseReachesGoal(user, spec, snap, plan, cells, d);
    case SchemaPlace(d, s) => SchemaReachesGoal(user, spec, snap, plan, cells, d, s);
    case ObjectPlace(_, _, _, _) => ObjectReachesGoal(user, spec, snap, plan, cells, p);
  }
}
