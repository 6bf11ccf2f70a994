/** When further passes are silent, and the one case in which a second pass is not. */
module Stability {
  import opened Sql
  import opened Privileges
  import opened Wrappers
  import opened Planner
  import opened Server
  import opened Executor
  import opened Routing
  import opened Effect
  import opened Desired
  import opened Convergence
  import opened Runs

  /** Everything declared is something its place can have. */
  ghost predicate KnownPrivileges(spec: seq<DatabaseSpec>) {
    forall p :: Asked(spec, p) <= Universe(p)
  }

  /** The same place in another database. */
  function Moved(p: Place, d: string): Place {
    match p
    case DatabasePlace(_) => p
    case SchemaPlace(_, s) => SchemaPlace(d, s)
    case ObjectPlace(_, k, s, n) => ObjectPlace(d, k, s, n)
  }

  lemma CoversElsewhere(t: Target, session: string, p: Place, d: string)
    requires Covers(t, session, p)
    ensures Covers(t, d, Moved(p, d)) && Universe(Moved(p, d)) == Universe(p)
  {
  }

  /** A planned statement, wherever it runs, is demanded for the place it hits as that is in its own database. */
  lemma HitElsewhere(plan: Plan, s: Stmt, session: string, c: Cell) returns (p: Place)
    requires PlanShaped(plan) && Named(plan.groups) && Hits(s, session, c)
    requires s in plan.globals || exists d :: d in plan.groups && s in plan.groups[d]
    ensures p == c.place || p == Moved(c.place, p.database)
    ensures Universe(p) == Universe(c.place) && DemandOf(s) in Deciding(plan, p) && Covers(s.target, p.database, p)
  {
    var d := "";
    if s !in plan.globals {
      d :| d in plan.groups && s in plan.groups[d];
      p := Moved(c.place, d);
      CoversElsewhere(s.target, session, c.place, d);
    } else {
      p := c.place;
    }
    assert RunOf(p) == d && s in OwnGroup(plan, d);
  }

  lemma GrantIsKnown(user: string, spec: seq<DatabaseSpec>, snap: seq<DatabaseSnapshot>, plan: Plan, cells: Cells,
                     s: Stmt, session: string, c: Cell, q: string)
    requires IsPlan(user, spec, snap, plan) && PlanShaped(plan) && Named(plan.groups) && DistinctNames(spec)
    requires KnownPrivileges(spec) && WellTyped(cells) && Faithful(user, snap, cells) && c in cells
    requires s in plan.globals || exists d :: d in plan.groups && s in plan.groups[d]
    requires s.verb.Grant? && Hits(s, session, c) && q in Expand(c.place, AsSet(s.privs))
    ensures q in Universe(c.place)
  {
    var p := HitElsewhere(plan, s, session, c);
    assert q in Expand(p, DemandOf(s).privs);
    assert q in GivenBy(Deciding(plan, p), p);
    GivenIsAsked(user, spec, snap, plan, cells, p);
  }

  /** Whatever is granted on a cell, by strays as well, is something its place can have. */
  lemma GrantedIsKnown(user: string, spec: seq<DatabaseSpec>, pass: Pass, c: Cell, q: string)
    requires InformedPass(user, spec, pass) && DistinctNames(spec) && KnownPrivileges(spec) && c in pass.before
    requires Granted(pass.log, c, q)
    ensures q in Universe(c.place)
  {
    var i :| 0 <= i < |pass.log| && Grants(pass.log[i], c, q);
    var e := pass.log[i];
    PlanIsShaped(user, spec, pass.snap, pass.plan, pass.before);
    PassLogShaped(user, spec, pass);
    GrantIsKnown(user, spec, pass.snap, pass.plan, pass.before, e.stmt, e.session, c, q);
  }

  /** Passes, broken or not and whatever USEs were refused, keep the server within its universes. */
  lemma StaysWellTyped(user: string, spec: seq<DatabaseSpec>, pass: Pass)
    requires InformedPass(user, spec, pass) && DistinctNames(spec) && KnownPrivileges(spec)
    ensures WellTyped(pass.After()) && pass.After().Keys == pass.before.Keys
  {
    ReplayPerCell(pass.before, pass.log);
    LogRevokesFirst(user, spec, pass);
    forall c, q | c in pass.before && q in pass.After()[c] ensures q in Universe(c.place) {
      RevokesFirstValue(pass.before[c], c, pass.log, q);
      if Granted(pass.log, c, q) {
        GrantedIsKnown(user, spec, pass, c, q);
      }
    }
  }

  ghost predicate CompleteEverywhere(pass: Pass) {
    forall c :: c in pass.before ==> CompleteOn(pass, c)
  }

  /** A schema is listed only for a privilege on it, as the fetch does it. */
  ghost predicate ListsHeldSchemas(snap: seq<DatabaseSnapshot>) {
    forall d, s :: SnapshotOf(snap, d, s).Some? ==> Held(SnapshotOf(snap, d, s)) != []
  }

  /** A database listed without a privilege on it (its list names the user for nothing) was listed before. */
  ghost predicate ListsHeldOrKnown(user: string, earlier: seq<DatabaseSnapshot>, snap: seq<DatabaseSnapshot>,
                                   cells: Cells) {
    forall d :: DatabaseNamed(snap, d).Some? && !HoldsSomething(user, DatabasePlace(d), cells) ==>
      DatabaseNamed(earlier, d).Some?
  }

  ghost predicate HoldsSomething(user: string, p: Place, cells: Cells) {
    Cell(user, p) in cells && cells[Cell(user, p)] != {}
  }

  /** If a place is empty after a complete pass, it is empty after the next. */
  lemma EmptyStaysEmpty(user: string, spec: seq<DatabaseSpec>, first: Pass, second: Pass, p: Place)
    requires Consecutive(user, spec, first, second) && CompleteEverywhere(first) && CompleteEverywhere(second)
    requires HoldsSomething(user, p, second.After())
    ensures HoldsSomething(user, p, first.After())
  {
    ReplayPerCell(first.before, first.log);
    ReplayPerCell(second.before, second.log);
    ReachesGoal(user, spec, first, Cell(user, p));
    ReachesGoal(user, spec, second, Cell(user, p));
  }

  /** A database listed at the third pass was listed at the second. */
  lemma DatabaseStaysListed(user: string, spec: seq<DatabaseSpec>, first: Pass, second: Pass, third: Pass, d: string)
    requires Consecutive(user, spec, first, second) && Consecutive(user, spec, second, third)
    requires CompleteEverywhere(first) && CompleteEverywhere(second)
    requires ListsHeldOrKnown(user, second.snap, third.snap, third.before)
    ensures DatabaseNamed(third.snap, d).Some? ==> DatabaseNamed(second.snap, d).Some?
  {
    if HoldsSomething(user, DatabasePlace(d), third.before) {
      EmptyStaysEmpty(user, spec, first, second, DatabasePlace(d));
    }
  }

  /** So was a schema. */
  lemma SchemaStaysListed(user: string, spec: seq<DatabaseSpec>, first: Pass, second: Pass, third: Pass, d: string,
                          s: string)
    requires Consecutive(user, spec, first, second) && Consecutive(user, spec, second, third)
    requires CompleteEverywhere(first) && CompleteEverywhere(second)
    requires ListsHeldOrKnown(user, second.snap, third.snap, third.before) && ListsHeldSchemas(third.snap)
    ensures SnapshotOf(third.snap, d, s).Some? ==> SnapshotOf(second.snap, d, s).Some?
  {
    if SnapshotOf(third.snap, d, s).Some? {
      var sc := SnapshotOf(third.snap, d, s).value;
      assert FaithfulDatabase(user, d, DatabaseNamed(third.snap, d).value, third.before);
      assert sc.privileges[0] in AsSet(sc.privileges);
      EmptyStaysEmpty(user, spec, first, second, SchemaPlace(d, s));
      DatabaseStaysListed(user, spec, first, second, third, d);
      assert FaithfulDatabase(user, d, DatabaseNamed(second.snap, d).value, second.before);
    }
  }

  /** Two complete passes always suffice: from any start the third changes nothing. */
  lemma StableFromSecondPass(user: string, spec: seq<DatabaseSpec>, first: Pass, second: Pass, third: Pass, c: Cell)
    requires Consecutive(user, spec, first, second) && Consecutive(user, spec, second, third)
    requires CompleteEverywhere(first) && CompleteEverywhere(second) && CompleteEverywhere(third)
    requires ListsHeldOrKnown(user, second.snap, third.snap, third.before) && ListsHeldSchemas(third.snap)
    requires c in first.before && c.grantee == user
    ensures c in second.After() && c in third.After() && third.After()[c] == second.After()[c]
  {
    ReplayPerCell(first.before, first.log);
    ReplayPerCell(second.before, second.log);
    IdempotenceExact(user, spec, second, third, c);
    var p := c.place;
    DatabaseStaysListed(user, spec, first, second, third, p.database);
    if !p.DatabasePlace? {
      SchemaStaysListed(user, spec, first, second, third, p.database, p.schema);
    }
  }

  // ---------- silence ----------

  /** Every database and schema entry lists something, and nothing uses ALL or `*`. */
  ghost predicate Concrete(spec: seq<DatabaseSpec>) {
    forall e :: e in spec ==>
      && e.privileges != [] && "ALL" !in e.privileges
      && forall s :: s in e.schemas ==>
        && s.privileges != [] && "ALL" !in s.privileges
        && forall k, o :: k in KINDS && o in s.objects.Of(k) ==> o.name != "*" && "ALL" !in o.privileges
  }

  /** Nothing uses ALL, and no `*` entry lists anything. */
  ghost predicate Literal(spec: seq<DatabaseSpec>) {
    forall e :: e in spec ==>
      && "ALL" !in e.privileges
      && forall s :: s in e.schemas ==>
        && "ALL" !in s.privileges
        && forall k, o :: k in KINDS && o in s.objects.Of(k) ==> LiteralEntry(o)
  }

  predicate LiteralEntry(o: ObjectSpec) {
    "ALL" !in o.privileges && (o.name == "*" ==> o.privileges == [])
  }

  lemma ConcreteIsLiteral(spec: seq<DatabaseSpec>)
    requires Concrete(spec)
    ensures Literal(spec)
  {
  }

  /** Everything declared exists on the server. */
  ghost predicate PlacesExist(user: string, spec: seq<DatabaseSpec>, cells: Cells) {
    forall e :: e in spec ==>
      && Cell(user, DatabasePlace(e.name)) in cells
      && forall s :: s in e.schemas ==>
        && Cell(user, SchemaPlace(e.name, s.name)) in cells
        && forall k, o ::
          k in KINDS && o in s.objects.Of(k) && o.name != "*" ==>
            Cell(user, ObjectPlace(e.name, k, s.name, o.name)) in cells
  }

  /** Every cell of the user is at its goal. */
  ghost predicate AtGoal(user: string, spec: seq<DatabaseSpec>, snap: seq<DatabaseSnapshot>, cells: Cells) {
    forall p :: Cell(user, p) in cells ==> cells[Cell(user, p)] == Goal(spec, snap, p, cells[Cell(user, p)])
  }

  lemma NoAllMeansItself(p: Place, privs: seq<string>)
    requires "ALL" !in privs
    ensures Wanted(p, privs) == AsSet(privs)
  {
  }

  /** A settled state the planner looks at. */
  ghost predicate Settled(user: string, spec: seq<DatabaseSpec>, snap: seq<DatabaseSnapshot>, cells: Cells) {
    && DistinctNames(spec) && PlacesExist(user, spec, cells)
    && WellTyped(cells) && Faithful(user, snap, cells) && ListsDeclared(spec, snap) && AtGoal(user, spec, snap, cells)
  }

  lemma DatabasesSilent(user: string, spec: seq<DatabaseSpec>, snap: seq<DatabaseSnapshot>, cells: Cells)
    requires Settled(user, spec, snap, cells) && Literal(spec)
    ensures DatabaseDemands(spec, snap) == {} && OrphanDatabaseDemands(spec, snap) == {}
  {
    forall e | e in spec
      ensures AsSet(HeldOnDatabase(DatabaseNamed(snap, e.name))) == AsSet(e.privileges)
    {
      DeclaredDatabaseUnique(spec, e.name);
      assert DeclaredDatabase(spec, e.name) == Some(e);
      NoAllMeansItself(DatabasePlace(e.name), e.privileges);
      assert FaithfulDatabase(user, e.name, DatabaseNamed(snap, e.name).value, cells);
    }
    forall a | a in snap && HeldOnDatabase(DatabaseNamed(snap, a.name)) != []
      ensures DeclaresDatabase(spec, a.name)
    {
      DatabaseListed(snap, a.name);
      DeclaredDatabaseUnique(spec, a.name);
      var db := DatabaseNamed(snap, a.name).value;
      assert FaithfulDatabase(user, a.name, db, cells);
      assert db.privileges[0] in AsSet(db.privileges);
    }
  }

  /** The entry of a declared schema, and its faithful listing. */
  lemma EntryOf(user: string, spec: seq<DatabaseSpec>, snap: seq<DatabaseSnapshot>, cells: Cells, e: DatabaseSpec,
                s: SchemaSpec)
    requires Settled(user, spec, snap, cells) && e in spec && s in e.schemas
    ensures DeclaredSchema(spec, e.name, s.name) == Some(s)
    ensures SnapshotOf(snap, e.name, s.name).Some?
    ensures FaithfulSchema(user, e.name, s.name, SnapshotOf(snap, e.name, s.name).value, cells)
  {
    DeclaredDatabaseUnique(spec, e.name);
    assert DeclaredDatabase(spec, e.name) == Some(e);
    SchemaEntryUnique(e.schemas, s.name);
    assert FaithfulDatabase(user, e.name, DatabaseNamed(snap, e.name).value, cells);
  }

  /**
   In a listed schema, an object with an entry of its own, under a `*` entry for nothing if any, is to hold
   that entry's set.
  */
  lemma OwnGoal(spec: seq<DatabaseSpec>, snap: seq<DatabaseSnapshot>, p: Place, v: set<string>, own: ObjectSpec)
    requires p.ObjectPlace? && DeclaredSchema(spec, p.database, p.schema).Some?
    requires SnapshotOf(snap, p.database, p.schema).Some?
    requires ObjectEntry(DeclaredSchema(spec, p.database, p.schema).value.objects.Of(p.kind), p.name) == Some(own)
    requires var all := ObjectEntry(DeclaredSchema(spec, p.database, p.schema).value.objects.Of(p.kind), "*");
      all.Some? ==> all.value.privileges == []
    ensures Goal(spec, snap, p, v) == Wanted(p, own.privileges)
  {
    assert Wanted(p, []) == {};
  }

  /** Without any entry for it, it is to hold nothing. */
  lemma NoGoal(spec: seq<DatabaseSpec>, snap: seq<DatabaseSnapshot>, p: Place, v: set<string>)
    requires p.ObjectPlace? && DeclaredSchema(spec, p.database, p.schema).Some?
    requires SnapshotOf(snap, p.database, p.schema).Some?
    requires ObjectEntry(DeclaredSchema(spec, p.database, p.schema).value.objects.Of(p.kind), p.name).None?
    requires ObjectEntry(DeclaredSchema(spec, p.database, p.schema).value.objects.Of(p.kind), "*").None?
    ensures Goal(spec, snap, p, v) == {}
  {
  }

  lemma EntriesAreLiteral(spec: seq<DatabaseSpec>, e: DatabaseSpec, s: SchemaSpec, k: Kind)
    requires DistinctNames(spec) && Literal(spec) && e in spec && s in e.schemas && k in KINDS
    ensures forall n :: ObjectEntry(s.objects.Of(k), n).Some? ==>
      ObjectEntry(s.objects.Of(k), n).value.name == n && LiteralEntry(ObjectEntry(s.objects.Of(k), n).value)
  {
    forall n { ObjectEntryUnique(s.objects.Of(k), n); }
  }

  /** What an object of a settled state holds. */
  lemma ObjectSettled(user: string, spec: seq<DatabaseSpec>, snap: seq<DatabaseSnapshot>, cells: Cells,
                      e: DatabaseSpec, s: SchemaSpec, k: Kind, n: string)
    requires Settled(user, spec, snap, cells) && Literal(spec) && e in spec && s in e.schemas && k in KINDS
    requires Cell(user, ObjectPlace(e.name, k, s.name, n)) in cells
    ensures var own, v := ObjectEntry(s.objects.Of(k), n), cells[Cell(user, ObjectPlace(e.name, k, s.name, n))];
      && (own.Some? ==> v == AsSet(own.value.privileges))
      && (own.None? && ObjectEntry(s.objects.Of(k), "*").None? ==> v == {})
  {
    var p, own, all :=
      ObjectPlace(e.name, k, s.name, n), ObjectEntry(s.objects.Of(k), n), ObjectEntry(s.objects.Of(k), "*");
    EntryOf(user, spec, snap, cells, e, s);
    assert cells[Cell(user, p)] == Goal(spec, snap, p, cells[Cell(user, p)]);
    EntriesAreLiteral(spec, e, s, k);
    if own.Some? {
      OwnGoal(spec, snap, p, cells[Cell(user, p)], own.value);
      NoAllMeansItself(p, own.value.privileges);
    } else if all.None? {
      NoGoal(spec, snap, p, cells[Cell(user, p)]);
    }
  }

  lemma OrphansSilent(user: string, spec: seq<DatabaseSpec>, snap: seq<DatabaseSnapshot>, cells: Cells,
                      e: DatabaseSpec, s: SchemaSpec, k: Kind)
    requires Settled(user, spec, snap, cells) && Literal(spec) && e in spec && s in e.schemas && k in KINDS
    ensures OrphanDemands(k, s.name, s.objects.Of(k), HeldObjects(SnapshotOf(snap, e.name, s.name), k)) == {}
  {
    EntryOf(user, spec, snap, cells, e, s);
    var actual := HeldObjects(SnapshotOf(snap, e.name, s.name), k);
    forall n | n in ObjectNames(actual)
      ensures n != "*" && (Declares(s.objects.Of(k), n) || Declares(s.objects.Of(k), "*")) {
      ObjectEntryUnique(s.objects.Of(k), n);
      ObjectEntryUnique(s.objects.Of(k), "*");
      var o := ObjectNamed(actual, n);
      assert Holds(user, ObjectPlace(e.name, k, s.name, n), o.privileges, cells);
      assert o.privileges[0] in AsSet(o.privileges);
      ObjectSettled(user, spec, snap, cells, e, s, k, n);
    }
  }

  /** A declared object of a settled state is held as declared. */
  lemma EntryHeld(user: string, spec: seq<DatabaseSpec>, snap: seq<DatabaseSnapshot>, cells: Cells, e: DatabaseSpec,
                  s: SchemaSpec, k: Kind, o: ObjectSpec)
    requires Settled(user, spec, snap, cells) && Literal(spec) && e in spec && s in e.schemas && k in KINDS
      && o in s.objects.Of(k)
    ensures AsSet(ObjectNamed(HeldObjects(SnapshotOf(snap, e.name, s.name), k), o.name).privileges)
      == AsSet(o.privileges)
  {
    EntryOf(user, spec, snap, cells, e, s);
    if o.name == "*" {
      assert LiteralEntry(o);
      NothingCalledStar(user, snap, cells, e.name, s.name, k);
      ObjectNamedAbsent(HeldObjects(SnapshotOf(snap, e.name, s.name), k), o.name);
    } else {
      ObjectEntryUnique(s.objects.Of(k), o.name);
      ObjectSettled(user, spec, snap, cells, e, s, k, o.name);
      ObjectHeld(user, snap, cells, ObjectPlace(e.name, k, s.name, o.name));
    }
  }

  lemma EntriesSilent(user: string, spec: seq<DatabaseSpec>, snap: seq<DatabaseSnapshot>, cells: Cells,
                      e: DatabaseSpec, s: SchemaSpec, k: Kind)
    requires Settled(user, spec, snap, cells) && Literal(spec) && e in spec && s in e.schemas && k in KINDS
    ensures EntryDemands(k, s.name, s.objects.Of(k), HeldObjects(SnapshotOf(snap, e.name, s.name), k)) == {}
  {
    var entries, actual := s.objects.Of(k), HeldObjects(SnapshotOf(snap, e.name, s.name), k);
    forall o | o in entries
      ensures AsSet(ObjectNamed(actual, o.name).privileges) == AsSet(o.privileges)
    {
      EntryHeld(user, spec, snap, cells, e, s, k, o);
    }
  }

  lemma SchemaSilent(user: string, spec: seq<DatabaseSpec>, snap: seq<DatabaseSnapshot>, cells: Cells, e: DatabaseSpec,
                     s: SchemaSpec)
    requires Settled(user, spec, snap, cells) && Literal(spec) && e in spec && s in e.schemas
    ensures SchemaDemands(s, SnapshotOf(snap, e.name, s.name)) == {}
  {
    EntryOf(user, spec, snap, cells, e, s);
    NoAllMeansItself(SchemaPlace(e.name, s.name), s.privileges);
    var sc := SnapshotOf(snap, e.name, s.name);
    assert AsSet(Held(sc)) == AsSet(s.privileges);
    forall k | k in KINDS
      ensures OrphanDemands(k, s.name, s.objects.Of(k), HeldObjects(sc, k)) == {}
      ensures EntryDemands(k, s.name, s.objects.Of(k), HeldObjects(sc, k)) == {}
    {
      OrphansSilent(user, spec, snap, cells, e, s, k);
      EntriesSilent(user, spec, snap, cells, e, s, k);
    }
  }

  lemma NoDemandsNoStatements(stmts: seq<Stmt>)
    ensures Demands(stmts) == {} <==> stmts == []
  {
    if stmts != [] {
      assert DemandOf(stmts[0]) in Demands(stmts);
    }
  }

  predicate PlansNothing(plan: Plan) {
    plan.globals == [] && forall d <- plan.groups :: plan.groups[d] == []
  }

  /** In a settled state a literal declaration plans nothing. */
  lemma SettledPlanEmpty(user: string, spec: seq<DatabaseSpec>, snap: seq<DatabaseSnapshot>, cells: Cells, plan: Plan)
    requires Settled(user, spec, snap, cells) && Literal(spec) && IsPlan(user, spec, snap, plan)
    ensures PlansNothing(plan)
  {
    DatabasesSilent(user, spec, snap, cells);
    NoDemandsNoStatements(plan.globals);
    forall d | d in plan.groups ensures plan.groups[d] == [] {
      forall e, s | e in spec && e.name == d && s in e.schemas
        ensures SchemaDemands(s, SnapshotOf(snap, d, s.name)) == {}
      {
        SchemaSilent(user, spec, snap, cells, e, s);
      }
      assert GroupDemands(spec, snap, d) == {};
      NoDemandsNoStatements(plan.groups[d]);
    }
  }

  /** What is declared and not held is asked for. */
  lemma MissingIsAsked(target: Target, actual: set<string>, desired: set<string>, q: string)
    requires q in desired - actual
    ensures DiffDemands(target, actual, desired) != {}
  {
    assert Demand(Grant, desired - actual, target) in DiffDemands(target, actual, desired);
  }

  /** ALL is never held, so that it is always asked for. */
  lemma HeldIsNeverAll(user: string, p: Place, privs: seq<string>, cells: Cells)
    requires WellTyped(cells) && (privs == [] || Holds(user, p, privs, cells))
    ensures "ALL" !in AsSet(privs)
  {
    UniverseWords(p);
  }

  /** An entry that is not literal is never satisfied. */
  lemma EntryAlwaysAsks(user: string, spec: seq<DatabaseSpec>, snap: seq<DatabaseSnapshot>, cells: Cells,
                        e: DatabaseSpec, s: SchemaSpec, k: Kind, o: ObjectSpec)
    requires Settled(user, spec, snap, cells) && e in spec && s in e.schemas && k in KINDS && o in s.objects.Of(k)
    requires !LiteralEntry(o)
    ensures SchemaDemands(s, SnapshotOf(snap, e.name, s.name)) != {}
  {
    EntryOf(user, spec, snap, cells, e, s);
    var actual := HeldObjects(SnapshotOf(snap, e.name, s.name), k);
    var held := ObjectNamed(actual, o.name).privileges;
    NothingCalledStar(user, snap, cells, e.name, s.name, k);
    if o.name !in ObjectNames(actual) {
      ObjectNamedAbsent(actual, o.name);
    }
    HeldIsNeverAll(user, ObjectPlace(e.name, k, s.name, o.name), held, cells);
    var q := if "ALL" in o.privileges then "ALL" else o.privileges[0];
    MissingIsAsked(TargetFor(k, s.name, o.name), AsSet(held), AsSet(o.privileges), q);
    var x :| x in DiffDemands(TargetFor(k, s.name, o.name), AsSet(held), AsSet(o.privileges));
    assert x in EntryDemands(k, s.name, s.objects.Of(k), actual);
    assert x in EntriesOf(KINDS, s, SnapshotOf(snap, e.name, s.name));
  }

  lemma SchemaAlwaysAsks(user: string, spec: seq<DatabaseSpec>, snap: seq<DatabaseSnapshot>, cells: Cells,
                         e: DatabaseSpec, s: SchemaSpec)
    requires Settled(user, spec, snap, cells) && e in spec && s in e.schemas && "ALL" in s.privileges
    ensures SchemaDemands(s, SnapshotOf(snap, e.name, s.name)) != {}
  {
    EntryOf(user, spec, snap, cells, e, s);
    var held := Held(SnapshotOf(snap, e.name, s.name));
    HeldIsNeverAll(user, SchemaPlace(e.name, s.name), held, cells);
    MissingIsAsked(OnSchema(s.name), AsSet(held), AsSet(s.privileges), "ALL");
    var x :| x in DiffDemands(OnSchema(s.name), AsSet(held), AsSet(s.privileges));
    assert x in SchemaDemands(s, SnapshotOf(snap, e.name, s.name));
  }

  lemma DatabaseAlwaysAsks(user: string, spec: seq<DatabaseSpec>, snap: seq<DatabaseSnapshot>, cells: Cells,
                           e: DatabaseSpec)
    requires Settled(user, spec, snap, cells) && e in spec && "ALL" in e.privileges
    ensures DatabaseDemands(spec, snap) != {}
  {
    var held := HeldOnDatabase(DatabaseNamed(snap, e.name));
    HeldIsNeverAll(user, DatabasePlace(e.name), held, cells);
    MissingIsAsked(OnDatabase(e.name), AsSet(held), AsSet(e.privileges), "ALL");
    var x :| x in DiffDemands(OnDatabase(e.name), AsSet(held), AsSet(e.privileges));
    assert x in DatabaseDemands(spec, snap);
  }

  lemma SchemaDemandsArePlanned(user: string, spec: seq<DatabaseSpec>, snap: seq<DatabaseSnapshot>, plan: Plan,
                                e: DatabaseSpec, s: SchemaSpec)
    requires IsPlan(user, spec, snap, plan) && e in spec && s in e.schemas
    requires SchemaDemands(s, SnapshotOf(snap, e.name, s.name)) != {}
    ensures !PlansNothing(plan)
  {
    var x :| x in SchemaDemands(s, SnapshotOf(snap, e.name, s.name));
    assert x in SchemasDemands(e.schemas, DatabaseNamed(snap, e.name));
    assert x in GroupDemands(spec, snap, e.name) && DeclaresDatabase(spec, e.name);
    NoDemandsNoStatements(plan.groups[e.name]);
  }

  lemma NotLiteralPlans(user: string, spec: seq<DatabaseSpec>, snap: seq<DatabaseSnapshot>, cells: Cells, plan: Plan)
    requires Settled(user, spec, snap, cells) && !Literal(spec) && IsPlan(user, spec, snap, plan)
    ensures !PlansNothing(plan)
  {
    if e :| e in spec && "ALL" in e.privileges {
      DatabaseAlwaysAsks(user, spec, snap, cells, e);
      NoDemandsNoStatements(plan.globals);
    } else if e, s :| e in spec && s in e.schemas && "ALL" in s.privileges {
      SchemaAlwaysAsks(user, spec, snap, cells, e, s);
      SchemaDemandsArePlanned(user, spec, snap, plan, e, s);
    } else {
      var e, s, k, o :| e in spec && s in e.schemas && k in KINDS && o in s.objects.Of(k) && !LiteralEntry(o);
      EntryAlwaysAsks(user, spec, snap, cells, e, s, k, o);
      SchemaDemandsArePlanned(user, spec, snap, plan, e, s);
    }
  }

  /**
   When a state that is its own goal is left in silence: if and only if nothing declared uses ALL and no `*` entry
   lists anything. Otherwise every pass asks again for the same, as SettledRepeats states.
   */
  lemma SilentExactly(user: string, spec: seq<DatabaseSpec>, snap: seq<DatabaseSnapshot>, cells: Cells, plan: Plan)
    requires Settled(user, spec, snap, cells) && IsPlan(user, spec, snap, plan)
    ensures PlansNothing(plan) <==> Literal(spec)
  {
    if Literal(spec) {
      SettledPlanEmpty(user, spec, snap, cells, plan);
    } else {
      NotLiteralPlans(user, spec, snap, cells, plan);
    }
  }

  // ---------- the same demands again ----------

  /** Of the declared schemas, the two snapshots list the same ones. */
  ghost predicate ListsAlike(spec: seq<DatabaseSpec>, snap: seq<DatabaseSnapshot>, next: seq<DatabaseSnapshot>) {
    forall e, s :: e in spec && s in e.schemas ==>
      (SnapshotOf(snap, e.name, s.name).Some? <==> SnapshotOf(next, e.name, s.name).Some?)
  }

  ghost predicate SameDemands(spec: seq<DatabaseSpec>, snap: seq<DatabaseSnapshot>, next: seq<DatabaseSnapshot>) {
    && DatabaseDemands(spec, snap) == DatabaseDemands(spec, next)
    && OrphanDatabaseDemands(spec, snap) == OrphanDatabaseDemands(spec, next)
    && forall d :: GroupDemands(spec, snap, d) == GroupDemands(spec, next, d)
  }

  /** What a faithful snapshot says of a database is what is held, listed or not. */
  lemma SameOnDatabase(user: string, snap: seq<DatabaseSnapshot>, next: seq<DatabaseSnapshot>, cells: Cells, d: string)
    requires Faithful(user, snap, cells) && Faithful(user, next, cells)
    ensures AsSet(HeldOnDatabase(DatabaseNamed(snap, d))) == AsSet(HeldOnDatabase(DatabaseNamed(next, d)))
    ensures HeldOnDatabase(DatabaseNamed(snap, d)) != [] <==> HeldOnDatabase(DatabaseNamed(next, d)) != []
  {
    var one, two := HeldOnDatabase(DatabaseNamed(snap, d)), HeldOnDatabase(DatabaseNamed(next, d));
    assert one != [] ==> one[0] in AsSet(one);
    assert two != [] ==> two[0] in AsSet(two);
  }

  /** What faithful listings of one schema say of the objects in it. */
  lemma SameOnObjects(user: string, d: string, s: string, one: SchemaSnapshot, two: SchemaSnapshot, cells: Cells,
                      k: Kind, n: string)
    requires FaithfulSchema(user, d, s, one, cells) && FaithfulSchema(user, d, s, two, cells)
    ensures n in ObjectNames(one.objects.Of(k)) <==> n in ObjectNames(two.objects.Of(k))
    ensures AsSet(ObjectNamed(one.objects.Of(k), n).privileges) == AsSet(ObjectNamed(two.objects.Of(k), n).privileges)
  {
    var held, other := ObjectNamed(one.objects.Of(k), n).privileges, ObjectNamed(two.objects.Of(k), n).privileges;
    assert held != [] ==> held[0] in AsSet(held);
    assert other != [] ==> other[0] in AsSet(other);
    if n !in ObjectNames(one.objects.Of(k)) {
      ObjectNamedAbsent(one.objects.Of(k), n);
      ObjectNamedAbsent(two.objects.Of(k), n);
    }
  }

  lemma SameOnKind(k: Kind, schema: string, entries: seq<ObjectSpec>, one: seq<ObjectPrivilege>,
                   two: seq<ObjectPrivilege>)
    requires ObjectNames(one) == ObjectNames(two)
    requires forall n :: AsSet(ObjectNamed(one, n).privileges) == AsSet(ObjectNamed(two, n).privileges)
    ensures OrphanDemands(k, schema, entries, one) == OrphanDemands(k, schema, entries, two)
    ensures EntryDemands(k, schema, entries, one) == EntryDemands(k, schema, entries, two)
  {
  }

  lemma SameOnKinds(t: SchemaSpec, one: Option<SchemaSnapshot>, two: Option<SchemaSnapshot>)
    requires forall k ::
      OrphanDemands(k, t.name, t.objects.Of(k), HeldObjects(one, k))
      == OrphanDemands(k, t.name, t.objects.Of(k), HeldObjects(two, k))
    requires forall k ::
      EntryDemands(k, t.name, t.objects.Of(k), HeldObjects(one, k))
      == EntryDemands(k, t.name, t.objects.Of(k), HeldObjects(two, k))
    ensures OrphansOf(KINDS, t, one) == OrphansOf(KINDS, t, two) && EntriesOf(KINDS, t, one) == EntriesOf(KINDS, t, two)
  {
  }

  lemma SameOnSchema(user: string, d: string, t: SchemaSpec, one: SchemaSnapshot, two: SchemaSnapshot, cells: Cells)
    requires FaithfulSchema(user, d, t.name, one, cells) && FaithfulSchema(user, d, t.name, two, cells)
    ensures SchemaDemands(t, Some(one)) == SchemaDemands(t, Some(two))
  {
    forall k
      ensures OrphanDemands(k, t.name, t.objects.Of(k), HeldObjects(Some(one), k))
        == OrphanDemands(k, t.name, t.objects.Of(k), HeldObjects(Some(two), k))
      ensures EntryDemands(k, t.name, t.objects.Of(k), HeldObjects(Some(one), k))
        == EntryDemands(k, t.name, t.objects.Of(k), HeldObjects(Some(two), k))
    {
      forall n
        ensures n in ObjectNames(one.objects.Of(k)) <==> n in ObjectNames(two.objects.Of(k))
        ensures AsSet(ObjectNamed(one.objects.Of(k), n).privileges)
          == AsSet(ObjectNamed(two.objects.Of(k), n).privileges)
      {
        SameOnObjects(user, d, t.name, one, two, cells, k, n);
      }
      SameOnKind(k, t.name, t.objects.Of(k), one.objects.Of(k), two.objects.Of(k));
    }
    SameOnKinds(t, Some(one), Some(two));
  }

  lemma SameOnSchemas(e: DatabaseSpec, snap: seq<DatabaseSnapshot>, next: seq<DatabaseSnapshot>)
    requires forall t :: t in e.schemas ==>
      SchemaDemands(t, SnapshotOf(snap, e.name, t.name)) == SchemaDemands(t, SnapshotOf(next, e.name, t.name))
    ensures SchemasDemands(e.schemas, DatabaseNamed(snap, e.name))
      == SchemasDemands(e.schemas, DatabaseNamed(next, e.name))
  {
  }

  /**
   The state and which of the declared schemas are listed fix what is asked, whatever the order of the catalog's rows
   and whatever names repeat in the declaration.
   */
  lemma StateFixesDemands(user: string, spec: seq<DatabaseSpec>, snap: seq<DatabaseSnapshot>,
                          next: seq<DatabaseSnapshot>, cells: Cells)
    requires Faithful(user, snap, cells) && Faithful(user, next, cells) && ListsAlike(spec, snap, next)
    ensures SameDemands(spec, snap, next)
  {
    forall d
      ensures AsSet(HeldOnDatabase(DatabaseNamed(snap, d))) == AsSet(HeldOnDatabase(DatabaseNamed(next, d)))
      ensures HeldOnDatabase(DatabaseNamed(snap, d)) != [] <==> HeldOnDatabase(DatabaseNamed(next, d)) != []
    {
      SameOnDatabase(user, snap, next, cells, d);
    }
    forall a | a in snap + next && HeldOnDatabase(DatabaseNamed(snap, a.name)) != []
      ensures (exists b :: b in snap && b.name == a.name) && exists b :: b in next && b.name == a.name
    {
      DatabaseListed(snap, a.name);
      DatabaseListed(next, a.name);
    }
    forall e, t | e in spec && t in e.schemas
      ensures SchemaDemands(t, SnapshotOf(snap, e.name, t.name)) == SchemaDemands(t, SnapshotOf(next, e.name, t.name))
    {
      var one, two := SnapshotOf(snap, e.name, t.name), SnapshotOf(next, e.name, t.name);
      if one.Some? {
        SameOnSchema(user, e.name, t, one.value, two.value, cells);
      }
    }
    forall e | e in spec
      ensures SchemasDemands(e.schemas, DatabaseNamed(snap, e.name))
        == SchemasDemands(e.schemas, DatabaseNamed(next, e.name))
    {
      SameOnSchemas(e, snap, next);
    }
    forall d ensures GroupDemands(spec, snap, d) == GroupDemands(spec, next, d) {
      forall x ensures x in GroupDemands(spec, snap, d) <==> x in GroupDemands(spec, next, d) {
      }
    }
  }

  lemma DeclaredListsAlike(spec: seq<DatabaseSpec>, snap: seq<DatabaseSnapshot>, next: seq<DatabaseSnapshot>)
    requires DistinctNames(spec) && ListsDeclared(spec, snap) && ListsDeclared(spec, next)
    ensures ListsAlike(spec, snap, next)
  {
    forall e, t | e in spec && t in e.schemas
      ensures SnapshotOf(snap, e.name, t.name).Some? && SnapshotOf(next, e.name, t.name).Some?
    {
      DeclaredDatabaseUnique(spec, e.name);
      SchemaEntryUnique(e.schemas, t.name);
      assert DeclaredSchema(spec, e.name, t.name) == Some(t);
    }
  }

  lemma SettledCell(user: string, spec: seq<DatabaseSpec>, pass: Pass, c: Cell)
    requires SoundPass(user, spec, pass) && CompleteOn(pass, c) && AtGoal(user, spec, pass.snap, pass.before)
    requires c in pass.before
    ensures c in pass.After() && pass.After()[c] == pass.before[c]
  {
    ReplayPerCell(pass.before, pass.log);
    if c.grantee == user {
      ReachesGoal(user, spec, pass, c);
      assert c == Cell(user, c.place);
    } else {
      OthersUntouched(user, spec, pass, c, pass.before[c]);
    }
  }

  /** A complete pass leaves a settled state as it is. */
  lemma SettledStays(user: string, spec: seq<DatabaseSpec>, pass: Pass)
    requires SoundPass(user, spec, pass) && CompleteEverywhere(pass) && AtGoal(user, spec, pass.snap, pass.before)
    ensures pass.After() == pass.before
  {
    forall c | c in pass.before ensures c in pass.After() && pass.After()[c] == pass.before[c] {
      SettledCell(user, spec, pass, c);
    }
    CellByCell(pass, pass.before);
  }

  lemma SettledForBoth(user: string, spec: seq<DatabaseSpec>, snap: seq<DatabaseSnapshot>, next: seq<DatabaseSnapshot>,
                       cells: Cells)
    requires Settled(user, spec, snap, cells) && Faithful(user, next, cells) && ListsDeclared(spec, next)
    ensures Settled(user, spec, next, cells) && SameDemands(spec, snap, next)
  {
    forall p | Cell(user, p) in cells ensures cells[Cell(user, p)] == Goal(spec, next, p, cells[Cell(user, p)]) {
      GoalWhenListed(user, spec, snap, cells, p);
      GoalWhenListed(user, spec, next, cells, p);
    }
    DeclaredListsAlike(spec, snap, next);
    StateFixesDemands(user, spec, snap, next, cells);
  }

  lemma SameDemandsSamePlans(user: string, spec: seq<DatabaseSpec>, snap: seq<DatabaseSnapshot>,
                             next: seq<DatabaseSnapshot>, one: Plan, two: Plan)
    requires SameDemands(spec, snap, next) && IsPlan(user, spec, snap, one) && IsPlan(user, spec, next, two)
    ensures Demands(two.globals) == Demands(one.globals) && two.groups.Keys == one.groups.Keys
    ensures forall d :: d in two.groups ==> Demands(two.groups[d]) == Demands(one.groups[d])
  {
    forall d ensures d in two.groups <==> d in one.groups {
      assert d in two.groups <==> DeclaresDatabase(spec, d);
    }
  }

  /**
   A settled state stays as it is, and the plan after a complete pass asks for the same as the pass did: nothing for a
   literal declaration, and otherwise the same statements once more, pass after pass.
   */
  lemma SettledRepeats(user: string, spec: seq<DatabaseSpec>, pass: Pass, next: seq<DatabaseSnapshot>, plan: Plan)
    requires SoundPass(user, spec, pass) && CompleteEverywhere(pass) && Settled(user, spec, pass.snap, pass.before)
    requires Faithful(user, next, pass.After()) && ListsDeclared(spec, next) && IsPlan(user, spec, next, plan)
    ensures pass.After() == pass.before && Settled(user, spec, next, pass.After())
    ensures Demands(plan.globals) == Demands(pass.plan.globals) && plan.groups.Keys == pass.plan.groups.Keys
    ensures forall d :: d in plan.groups ==> Demands(plan.groups[d]) == Demands(pass.plan.groups[d])
    ensures PlansNothing(plan) <==> Literal(spec)
  {
    SettledStays(user, spec, pass);
    SettledForBoth(user, spec, pass.snap, next, pass.before);
    SameDemandsSamePlans(user, spec, pass.snap, next, pass.plan, plan);
    SilentExactly(user, spec, next, pass.before, plan);
  }

  /** ALL on one database, which holds everything a database can: settled, and taken and given again by every plan. */
  const ALL_SPEC: seq<DatabaseSpec> := [DatabaseSpec("d", ["ALL"], false, [])]

  const ALL_CELLS: Cells := map[Cell("u", DatabasePlace("d")) := {"CONNECT", "CREATE"}]

  const ALL_SNAPSHOT: seq<DatabaseSnapshot> := [DatabaseSnapshot("d", ["CONNECT", "CREATE"], false, [])]

  lemma AllIsSettled()
    ensures Settled("u", ALL_SPEC, ALL_SNAPSHOT, ALL_CELLS)
  {
    var snap := ALL_SNAPSHOT;
    assert snap[..0] == [] && AsSet(["CONNECT", "CREATE"]) == {"CONNECT", "CREATE"} && AsSet(["ALL"]) == {"ALL"};
    assert forall d :: DatabaseNamed(snap, d) == if d == "d" then Some(snap[0]) else None;
    assert FaithfulDatabase("u", "d", snap[0], ALL_CELLS);
    assert forall e :: e in ALL_SPEC ==> e == ALL_SPEC[0];
  }

  lemma AllIsNeverSilent(plan: Plan)
    requires IsPlan("u", ALL_SPEC, ALL_SNAPSHOT, plan)
    ensures Settled("u", ALL_SPEC, ALL_SNAPSHOT, ALL_CELLS) && !Literal(ALL_SPEC)
    ensures Demands(plan.globals)
      == {Demand(Revoke, {"CONNECT", "CREATE"}, OnDatabase("d")), Demand(Grant, {"ALL"}, OnDatabase("d"))}
  {
    AllIsSettled();
    assert ALL_SPEC[0] in ALL_SPEC;
    var snap, all := ALL_SNAPSHOT, {"CONNECT", "CREATE"};
    assert snap[..0] == [] && AsSet(["CONNECT", "CREATE"]) == all && AsSet(["ALL"]) == {"ALL"};
    assert DatabaseNamed(snap, "d") == Some(snap[0]);
    assert {"ALL"} - all == {"ALL"} && all - {"ALL"} == all;
    assert DiffDemands(OnDatabase("d"), all, {"ALL"})
      == {Demand(Revoke, all, OnDatabase("d")), Demand(Grant, {"ALL"}, OnDatabase("d"))};
    assert forall e :: e in ALL_SPEC ==> e == ALL_SPEC[0];
    assert HeldOnDatabase(DatabaseNamed(snap, "d")) == ["CONNECT", "CREATE"];
    assert DatabaseDemands(ALL_SPEC, snap) == DiffDemands(OnDatabase("d"), all, {"ALL"}) by {
      assert ALL_SPEC[0].name == "d" && ALL_SPEC[0].privileges == ["ALL"];
    }
    assert OrphanDatabaseDemands(ALL_SPEC, snap) == {};
  }

  /**
   After a complete pass that saw everything declared, a plan that sees it too is empty exactly for literal
   declarations.
  */
  lemma SecondPlanExactly(user: string, spec: seq<DatabaseSpec>, first: Pass, snap: seq<DatabaseSnapshot>, plan: Plan)
    requires SoundPass(user, spec, first) && CompleteEverywhere(first) && ListsDeclared(spec, first.snap)
    requires KnownPrivileges(spec) && PlacesExist(user, spec, first.before)
    requires Faithful(user, snap, first.After()) && ListsDeclared(spec, snap) && IsPlan(user, spec, snap, plan)
    ensures PlansNothing(plan) <==> Literal(spec)
  {
    AfterIsAtGoal(user, spec, first, snap);
    StaysWellTyped(user, spec, first);
    SilentExactly(user, spec, snap, first.After(), plan);
  }

  /** After a complete pass that saw everything declared, a concrete declaration plans nothing more. */
  lemma SecondPlanEmpty(user: string, spec: seq<DatabaseSpec>, first: Pass, snap: seq<DatabaseSnapshot>, plan: Plan)
    requires SoundPass(user, spec, first) && CompleteEverywhere(first) && ListsDeclared(spec, first.snap)
    requires Concrete(spec) && KnownPrivileges(spec) && PlacesExist(user, spec, first.before)
    requires Faithful(user, snap, first.After()) && IsPlan(user, spec, snap, plan)
    ensures PlansNothing(plan)
  {
    DeclaredThenListed(user, spec, first, snap);
    ConcreteIsLiteral(spec);
    SecondPlanExactly(user, spec, first, snap, plan);
  }

  /** From any start, after two complete passes a concrete declaration plans nothing more. */
  lemma ThirdPlanEmpty(user: string, spec: seq<DatabaseSpec>, first: Pass, second: Pass, snap: seq<DatabaseSnapshot>,
                       plan: Plan)
    requires Consecutive(user, spec, first, second) && CompleteEverywhere(first) && CompleteEverywhere(second)
    requires Concrete(spec) && KnownPrivileges(spec) && PlacesExist(user, spec, first.before)
    requires Faithful(user, snap, second.After()) && IsPlan(user, spec, snap, plan)
    ensures PlansNothing(plan)
  {
    DeclaredThenListed(user, spec, first, second.snap);
    ReplayPerCell(first.before, first.log);
    SecondPlanEmpty(user, spec, second, snap, plan);
  }

  /** What a pass leaves is the goal of what it leaves. */
  lemma AfterIsAtGoal(user: string, spec: seq<DatabaseSpec>, first: Pass, snap: seq<DatabaseSnapshot>)
    requires SoundPass(user, spec, first) && CompleteEverywhere(first) && ListsDeclared(spec, first.snap)
    requires Faithful(user, snap, first.After())
    ensures AtGoal(user, spec, snap, first.After())
  {
    forall p | Cell(user, p) in first.After()
      ensures first.After()[Cell(user, p)] == Goal(spec, snap, p, first.After()[Cell(user, p)])
    {
      SameCells(first, Cell(user, p));
      ReachesGoal(user, spec, first, Cell(user, p));
      GoalTwice(user, spec, first.snap, snap, first.before, p);
    }
  }

  lemma SameCells(pass: Pass, c: Cell)
    ensures c in pass.After() <==> c in pass.before
  {
    ReplayPerCell(pass.before, pass.log);
  }

  lemma CellByCell(pass: Pass, after: Cells)
    requires after.Keys == pass.before.Keys
    requires forall c :: c in after ==> c in pass.After() && pass.After()[c] == after[c]
    ensures pass.After() == after
  {
    ReplayPerCell(pass.before, pass.log);
    assert pass.After().Keys == after.Keys;
  }

  /** From a snapshot that lists everything declared, the goal is its own goal. */
  lemma GoalTwice(user: string, spec: seq<DatabaseSpec>, snap: seq<DatabaseSnapshot>, next: seq<DatabaseSnapshot>,
                  cells: Cells, p: Place)
    requires ListsDeclared(spec, snap) && Faithful(user, snap, cells) && Cell(user, p) in cells
    ensures var v := Goal(spec, snap, p, cells[Cell(user, p)]); Goal(spec, next, p, v) == v
  {
  }

  lemma DatabaseThenListed(user: string, spec: seq<DatabaseSpec>, first: Pass, snap: seq<DatabaseSnapshot>, d: string)
    requires SoundPass(user, spec, first) && CompleteEverywhere(first)
    requires Concrete(spec) && PlacesExist(user, spec, first.before)
    requires Faithful(user, snap, first.After())
    ensures DeclaredDatabase(spec, d).Some? ==> DatabaseNamed(snap, d).Some?
  {
    DeclaredDatabaseUnique(spec, d);
    if DeclaredDatabase(spec, d).Some? {
      var e := DeclaredDatabase(spec, d).value;
      ReachesGoal(user, spec, first, Cell(user, DatabasePlace(d)));
      NoAllMeansItself(DatabasePlace(d), e.privileges);
      assert e.privileges[0] in AsSet(e.privileges);
    }
  }

  lemma SchemaThenListed(user: string, spec: seq<DatabaseSpec>, first: Pass, snap: seq<DatabaseSnapshot>, d: string,
                         s: string)
    requires SoundPass(user, spec, first) && CompleteEverywhere(first)
    requires Concrete(spec) && PlacesExist(user, spec, first.before)
    requires Faithful(user, snap, first.After()) && DatabaseNamed(snap, d).Some?
    ensures DeclaredSchema(spec, d, s).Some? ==> SnapshotOf(snap, d, s).Some?
  {
    DeclaredDatabaseUnique(spec, d);
    if DeclaredSchema(spec, d, s).Some? {
      SchemaEntryUnique(DeclaredDatabase(spec, d).value.schemas, s);
      var t := DeclaredSchema(spec, d, s).value;
      ReachesGoal(user, spec, first, Cell(user, SchemaPlace(d, s)));
      NoAllMeansItself(SchemaPlace(d, s), t.privileges);
      assert t.privileges[0] in AsSet(t.privileges);
      assert FaithfulDatabase(user, d, DatabaseNamed(snap, d).value, first.After());
    }
  }

  lemma DeclaredThenListed(user: string, spec: seq<DatabaseSpec>, first: Pass, snap: seq<DatabaseSnapshot>)
    requires SoundPass(user, spec, first) && CompleteEverywhere(first)
    requires Concrete(spec) && PlacesExist(user, spec, first.before)
    requires Faithful(user, snap, first.After())
    ensures ListsDeclared(spec, snap)
  {
    forall d | DeclaredDatabase(spec, d).Some?
      ensures DatabaseNamed(snap, d).Some?
      ensures forall s :: DeclaredSchema(spec, d, s).Some? ==> SnapshotOf(snap, d, s).Some?
    {
      DatabaseThenListed(user, spec, first, snap, d);
      forall s ensures DeclaredSchema(spec, d, s).Some? ==> SnapshotOf(snap, d, s).Some? {
        SchemaThenListed(user, spec, first, snap, d, s);
      }
    }
  }

  // ---------- disjoint texts ----------

  predicate SharesSchema(spec: seq<DatabaseSpec>, d: string, e: string, s: string) {
    DeclaredSchema(spec, d, s).Some? && DeclaredSchema(spec, e, s).Some?
  }

  /** No schema name is declared in two databases. */
  ghost predicate SchemaNamesDisjoint(spec: seq<DatabaseSpec>) {
    forall d, e, s :: d != e ==> !SharesSchema(spec, d, e, s)
  }

  lemma GroupTargetsDeclared(user: string, spec: seq<DatabaseSpec>, snap: seq<DatabaseSnapshot>, plan: Plan, d: string,
                             s: Stmt)
    requires IsPlan(user, spec, snap, plan) && PlanShaped(plan) && DistinctNames(spec) && d in plan.groups
      && s in plan.groups[d]
    ensures DeclaredSchema(spec, d, s.target.schema).Some?
  {
    assert DemandOf(s) in Demands(plan.groups[d]);
    GroupBySchema(spec, snap, d, s.target.schema, DemandOf(s));
  }

  /** A text shared by two groups is about a schema declared in both databases. */
  lemma SharedTextSharedSchema(user: string, spec: seq<DatabaseSpec>, snap: seq<DatabaseSnapshot>, plan: Plan,
                               d: string, e: string, s: Stmt)
    requires IsPlan(user, spec, snap, plan) && PlanShaped(plan) && DistinctNames(spec)
    requires d in plan.groups && e in plan.groups && s in plan.groups[d] && HasText(plan.groups[e], s)
    ensures SharesSchema(spec, d, e, s.target.schema)
  {
    TextIsMember(plan, e, s);
    GroupTargetsDeclared(user, spec, snap, plan, d, s);
    GroupTargetsDeclared(user, spec, snap, plan, e, s);
  }

  lemma NoSharedText(user: string, spec: seq<DatabaseSpec>, snap: seq<DatabaseSnapshot>, plan: Plan, d: string,
                     e: string, s: Stmt)
    requires IsPlan(user, spec, snap, plan) && PlanShaped(plan) && DistinctNames(spec)
    requires d in plan.groups && e in plan.groups && s in plan.groups[d]
    requires s.target.OnDatabase? || !SharesSchema(spec, d, e, s.target.schema)
    ensures !HasText(plan.groups[e], s)
  {
    if HasText(plan.groups[e], s) {
      SharedTextSharedSchema(user, spec, snap, plan, d, e, s);
    }
  }

  /** A check on the declaration alone that rules out shared texts. */
  lemma DisjointSchemasDisjointTexts(user: string, spec: seq<DatabaseSpec>, snap: seq<DatabaseSnapshot>, plan: Plan)
    requires IsPlan(user, spec, snap, plan) && PlanShaped(plan) && DistinctNames(spec) && SchemaNamesDisjoint(spec)
    ensures DisjointTexts(plan.groups)
  {
    var groups := plan.groups;
    forall d, e, s | d in groups && e in groups && d != e && s in groups[d]
      ensures !HasText(groups[e], s)
    {
      assert !s.target.OnDatabase?;
      assert !SharesSchema(spec, d, e, s.target.schema);
      NoSharedText(user, spec, snap, plan, d, e, s);
    }
    assert DisjointTexts(groups);
  }

  // ---------- a second pass that does change something ----------

  const NO_ENTRIES: Listing<ObjectSpec> := Listing([], [], [], [], [], [], [])

  /** USAGE on a schema the user holds nothing on yet, with a privilege on one of its tables left over. */
  const LATE_SPEC: seq<DatabaseSpec> :=
    [DatabaseSpec("d", ["CONNECT"], false, [SchemaSpec("s", ["USAGE"], false, NO_ENTRIES)])]

  function LateCells(usage: set<string>): Cells {
    map[Cell("u", DatabasePlace("d")) := {"CONNECT"},
        Cell("u", SchemaPlace("d", "s")) := usage,
        Cell("u", ObjectPlace("d", Table, "s", "t")) := {"SELECT"}]
  }

  function LateSnapshot(schemas: seq<SchemaSnapshot>): seq<DatabaseSnapshot> {
    [DatabaseSnapshot("d", ["CONNECT"], false, schemas)]
  }

  const LATE_SCHEMA: SchemaSnapshot :=
    SchemaSnapshot("s", ["USAGE"], false, Listing([ObjectPrivilege("t", ["SELECT"], false)], [], [], [], [], [], []))

  lemma LateLookups(schemas: seq<SchemaSnapshot>)
    requires schemas == [] || schemas == [LATE_SCHEMA]
    ensures forall d ::
              DatabaseNamed(LateSnapshot(schemas), d) ==
              (if d == "d" then Some(DatabaseSnapshot("d", ["CONNECT"], false, schemas)) else None)
    ensures forall s ::
              SchemaNamed(schemas, s) == (if s == "s" && schemas != [] then Some(LATE_SCHEMA) else None)
  {
    var snap := LateSnapshot(schemas);
    assert snap[..0] == [] && schemas[..0] == [];
  }

  lemma LateBefore()
    ensures Faithful("u", LateSnapshot([]), LateCells({}))
  {
    LateLookups([]);
    assert AsSet(["CONNECT"]) == {"CONNECT"};
    var cells := LateCells({});
    assert cells[Cell("u", SchemaPlace("d", "s"))] == {};
    assert FaithfulDatabase("u", "d", LateSnapshot([])[0], cells);
  }

  lemma LateAfter()
    ensures Faithful("u", LateSnapshot([LATE_SCHEMA]), LateCells({"USAGE"}))
  {
    LateLookups([LATE_SCHEMA]);
    assert AsSet(["CONNECT"]) == {"CONNECT"} && AsSet(["USAGE"]) == {"USAGE"} && AsSet(["SELECT"]) == {"SELECT"};
    var cells := LateCells({"USAGE"});
    var tables := LATE_SCHEMA.objects.Of(Table);
    assert tables[0].name == "t" && ObjectNames(tables) == {"t"};
    assert FaithfulSchema("u", "d", "s", LATE_SCHEMA, cells) by {
      assert forall k, n :: n in ObjectNames(LATE_SCHEMA.objects.Of(k)) ==> k == Table && n == "t";
    }
    assert FaithfulDatabase("u", "d", LateSnapshot([LATE_SCHEMA])[0], cells);
  }

  lemma LateDeclared()
    ensures DistinctNames(LATE_SPEC) && WordsDeclared(LATE_SPEC) && !DeclaresDatabase(LATE_SPEC, "")
  {
    var spec := LATE_SPEC;
    assert forall e :: e in spec ==> e == spec[0];
    assert "CONNECT" in Universe(DatabasePlace("d")) && "USAGE" in Universe(SchemaPlace("d", "s"));
    UniverseWords(DatabasePlace("d"));
    UniverseWords(SchemaPlace("d", "s"));
  }

  lemma LateTyped(usage: set<string>)
    requires usage <= {"USAGE"}
    ensures WellTyped(LateCells(usage))
  {
  }

  lemma OneDatabaseDisjoint(spec: seq<DatabaseSpec>, snap: seq<DatabaseSnapshot>)
    requires |spec| == 1
    ensures DisjointDemands(spec, snap)
  {
    forall d, e | d != e ensures GroupDemands(spec, snap, d) !! GroupDemands(spec, snap, e) {
      assert forall x :: x in spec ==> x == spec[0];
      assert spec[0].name != d ==> GroupDemands(spec, snap, d) == {};
      assert spec[0].name != e ==> GroupDemands(spec, snap, e) == {};
    }
  }

  const LATE_TABLE: Place := ObjectPlace("d", Table, "s", "t")

  lemma LateGoals()
    ensures forall c :: c in LateCells({}) ==>
      LateCells({"USAGE"})[c] == Goal(LATE_SPEC, LateSnapshot([]), c.place, LateCells({})[c])
    ensures Goal(LATE_SPEC, LateSnapshot([LATE_SCHEMA]), LATE_TABLE, {"SELECT"}) == {}
  {
    LateLookups([]);
    LateLookups([LATE_SCHEMA]);
    assert AsSet(["CONNECT"]) == {"CONNECT"} && AsSet(["USAGE"]) == {"USAGE"};
  }

  ghost function LateFirst(start: string): Pass {
    PassOf("u", LATE_SPEC, LateSnapshot([]), LateCells({}), start, "d")
  }

  ghost function LateSecond(start: string): Pass {
    PassOf("u", LATE_SPEC, LateSnapshot([LATE_SCHEMA]), LateCells({"USAGE"}), start, "d")
  }

  /** A complete pass leaves the server as the goals of its cells say. */
  lemma AfterIsGoals(user: string, spec: seq<DatabaseSpec>, pass: Pass, goals: Cells)
    requires SoundPass(user, spec, pass) && CompleteEverywhere(pass) && goals.Keys == pass.before.Keys
    requires forall c :: c in goals ==> c.grantee == user && goals[c] == Goal(spec, pass.snap, c.place, pass.before[c])
    ensures pass.After() == goals
  {
    forall c | c in goals ensures c in pass.After() && pass.After()[c] == goals[c] {
      ReachesGoal(user, spec, pass, c);
    }
    CellByCell(pass, goals);
  }

  /** What a sound pass over these needs. */
  ghost predicate Runnable(user: string, spec: seq<DatabaseSpec>, snap: seq<DatabaseSnapshot>, cells: Cells) {
    && DistinctNames(spec) && WordsDeclared(spec) && WellTyped(cells) && Faithful(user, snap, cells)
    && !DeclaresDatabase(spec, "") && DisjointDemands(spec, snap)
  }

  /** The goal of every cell. */
  ghost predicate AreGoals(user: string, spec: seq<DatabaseSpec>, snap: seq<DatabaseSnapshot>, cells: Cells,
                           goals: Cells) {
    && goals.Keys == cells.Keys
    && forall c :: c in goals ==> c.grantee == user && goals[c] == Goal(spec, snap, c.place, cells[c])
  }

  lemma GoalsAreReached(user: string, spec: seq<DatabaseSpec>, snap: seq<DatabaseSnapshot>, cells: Cells, start: string,
                        e: string, goals: Cells)
    requires Runnable(user, spec, snap, cells) && AreGoals(user, spec, snap, cells, goals)
    ensures var pass := PassOf(user, spec, snap, cells, start, e);
      SoundPass(user, spec, pass) && CompleteEverywhere(pass) && pass.After() == goals
  {
    var pass := PassOf(user, spec, snap, cells, start, e);
    SoundPassExists(user, spec, snap, cells, start, e);
    PassExists(user, spec, snap, cells, start, e);
    AfterIsGoals(user, spec, pass, goals);
  }

  lemma LateRunnable()
    ensures Runnable("u", LATE_SPEC, LateSnapshot([]), LateCells({}))
  {
    LateDeclared();
    LateTyped({});
    LateBefore();
    OneDatabaseDisjoint(LATE_SPEC, LateSnapshot([]));
  }

  lemma LateAreGoals()
    ensures AreGoals("u", LATE_SPEC, LateSnapshot([]), LateCells({}), LateCells({"USAGE"}))
  {
    LateGoals();
    assert LateCells({}).Keys == LateCells({"USAGE"}).Keys;
  }

  lemma LateFirstPass(start: string)
    ensures SoundPass("u", LATE_SPEC, LateFirst(start)) && CompleteEverywhere(LateFirst(start))
    ensures LateFirst(start).After() == LateCells({"USAGE"})
  {
    LateRunnable();
    LateAreGoals();
    GoalsAreReached("u", LATE_SPEC, LateSnapshot([]), LateCells({}), start, "d", LateCells({"USAGE"}));
  }

  lemma LateSecondPass(start: string)
    ensures SoundPass("u", LATE_SPEC, LateSecond(start)) && CompleteEverywhere(LateSecond(start))
    ensures Cell("u", LATE_TABLE) in LateSecond(start).After() && LateSecond(start).After()[Cell("u", LATE_TABLE)] == {}
  {
    LateDeclared();
    LateTyped({"USAGE"});
    LateAfter();
    OneDatabaseDisjoint(LATE_SPEC, LateSnapshot([LATE_SCHEMA]));
    SoundPassExists("u", LATE_SPEC, LateSnapshot([LATE_SCHEMA]), LateCells({"USAGE"}), start, "d");
    PassExists("u", LATE_SPEC, LateSnapshot([LATE_SCHEMA]), LateCells({"USAGE"}), start, "d");
    LateGoals();
    ReachesGoal("u", LATE_SPEC, LateSecond(start), Cell("u", LATE_TABLE));
  }

  /**
   Two complete passes, the second where the first stopped: the first leaves the table alone because its
   schema is unlisted, its USAGE makes the schema visible, and the second takes the table's privilege.
   */
  lemma SecondPassCanChange(start: string)
    ensures Consecutive("u", LATE_SPEC, LateFirst(start), LateSecond(start))
    ensures CompleteEverywhere(LateFirst(start)) && CompleteEverywhere(LateSecond(start))
    ensures var c := Cell("u", LATE_TABLE);
      && c in LateFirst(start).After() && LateFirst(start).After()[c] == {"SELECT"}
      && c in LateSecond(start).After() && LateSecond(start).After()[c] == {}
  {
    LateFirstPass(start);
    LateSecondPass(start);
  }
}
