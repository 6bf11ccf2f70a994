/**
 What passes achieve: one complete pass reaches the goal, a broken pass loses nothing, retries
 end where one pass would have, and further passes change nothing.
 */
module Convergence {
  import opened Sql
  import opened Privileges
  import opened Wrappers
  import opened Planner
  import opened Server
  import opened Executor
  import opened Routing
  import opened Effect
  import opened Desired

  // ---------- hypotheses on a pass ----------

  /** Declared privileges are words, as every declared constant is. */
  ghost predicate WordsDeclared(spec: seq<DatabaseSpec>) {
    forall e :: e in spec ==>
      && AreWords(e.privileges)
      && forall s :: s in e.schemas ==>
        && AreWords(s.privileges)
        && forall k, o :: k in KINDS && o in s.objects.Of(k) ==> AreWords(o.privileges)
  }

  ghost predicate WordDemand(x: Demand) {
    forall q :: q in x.privs ==> IsWord(q)
  }

  /** The snapshot is faithful and statement texts are disjoint. Replies are arbitrary, and so are refused USEs. */
  ghost predicate InformedPass(user: string, spec: seq<DatabaseSpec>, pass: Pass) {
    && IsPass(user, spec, pass)
    && WordsDeclared(spec)
    && WellTyped(pass.before) && Faithful(user, pass.snap, pass.before)
    && Named(pass.plan.groups) && DisjointTexts(pass.plan.groups)
  }

  /** Names are distinct as well, and every statement ran where it was meant to. */
  ghost predicate SoundPass(user: string, spec: seq<DatabaseSpec>, pass: Pass) {
    InformedPass(user, spec, pass) && DistinctNames(spec) && Routed(pass.log)
  }

  /** All statements were sent and those acting on the cell succeeded. */
  ghost predicate CompleteOn(pass: Pass, c: Cell) {
    Completed(pass) && SucceedsOn(pass.log, c)
  }

  // ---------- plans are well shaped ----------

  lemma UniverseWords(p: Place)
    ensures forall q :: q in Universe(p) ==> IsWord(q)
    ensures IsWord("ALL") && "ALL" !in Universe(p)
  {
  }

  lemma HeldAreWords(user: string, p: Place, privs: seq<string>, cells: Cells)
    requires WellTyped(cells) && (privs == [] || Holds(user, p, privs, cells))
    ensures forall q :: q in AsSet(privs) ==> IsWord(q)
  {
    UniverseWords(p);
  }

  lemma AreWordsMembers(privs: seq<string>)
    ensures AreWords(privs) <==> forall q :: q in AsSet(privs) ==> IsWord(q)
  {
    if forall q :: q in AsSet(privs) ==> IsWord(q) {
      forall i | 0 <= i < |privs| ensures IsWord(privs[i]) { assert privs[i] in AsSet(privs); }
    }
  }

  lemma EntryWords(user: string, spec: SchemaSpec, snap: seq<DatabaseSnapshot>, d: string, k: Kind, cells: Cells,
                   x: Demand)
    requires WellTyped(cells) && Faithful(user, snap, cells)
    requires forall o :: o in spec.objects.Of(k) ==> AreWords(o.privileges)
    requires x in EntryDemands(k, spec.name, spec.objects.Of(k), HeldObjects(SnapshotOf(snap, d, spec.name), k))
    ensures WordDemand(x)
  {
    var actual := HeldObjects(SnapshotOf(snap, d, spec.name), k);
    var o :| o in spec.objects.Of(k)
      && x in DiffDemands(TargetFor(k, spec.name, o.name), AsSet(ObjectNamed(actual, o.name).privileges),
        AsSet(o.privileges));
    AreWordsMembers(o.privileges);
    if o.name in ObjectNames(actual) {
      var sc := SnapshotOf(snap, d, spec.name);
      assert FaithfulSchema(user, d, spec.name, sc.value, cells);
      assert o.name in ObjectNames(sc.value.objects.Of(k));
    } else {
      ObjectNamedAbsent(actual, o.name);
    }
    HeldAreWords(user, ObjectPlace(d, k, spec.name, o.name), ObjectNamed(actual, o.name).privileges, cells);
  }

  lemma SchemaWords(user: string, spec: SchemaSpec, snap: seq<DatabaseSnapshot>, d: string, cells: Cells, x: Demand)
    requires WellTyped(cells) && Faithful(user, snap, cells)
    requires AreWords(spec.privileges)
    requires forall k, o :: k in KINDS && o in spec.objects.Of(k) ==> AreWords(o.privileges)
    requires x in SchemaDemands(spec, SnapshotOf(snap, d, spec.name))
    ensures WordDemand(x)
  {
    var actual := SnapshotOf(snap, d, spec.name);
    UniverseWords(DatabasePlace(d));
    AreWordsMembers(spec.privileges);
    if x in OrphansOf(KINDS, spec, actual) {
      assert x.privs == {"ALL"};
    } else if x in EntriesOf(KINDS, spec, actual) {
      var k :| k in KINDS && x in EntryDemands(k, spec.name, spec.objects.Of(k), HeldObjects(actual, k));
      EntryWords(user, spec, snap, d, k, cells, x);
    } else {
      if actual.Some? { assert FaithfulSchema(user, d, spec.name, actual.value, cells); }
      HeldAreWords(user, SchemaPlace(d, spec.name), Held(actual), cells);
    }
  }

  lemma DatabaseWords(user: string, spec: seq<DatabaseSpec>, snap: seq<DatabaseSnapshot>, cells: Cells, x: Demand)
    requires WellTyped(cells) && Faithful(user, snap, cells) && WordsDeclared(spec)
    requires x in DatabaseDemands(spec, snap) + OrphanDatabaseDemands(spec, snap)
    ensures WordDemand(x) && x.target.OnDatabase?
  {
    if x in OrphanDatabaseDemands(spec, snap) {
      UniverseWords(DatabasePlace(""));
      assert x.privs == {"ALL"};
    } else {
      var e :| e in spec
        && x in DiffDemands(OnDatabase(e.name), AsSet(HeldOnDatabase(DatabaseNamed(snap, e.name))),
          AsSet(e.privileges));
      AreWordsMembers(e.privileges);
      HeldAreWords(user, DatabasePlace(e.name), HeldOnDatabase(DatabaseNamed(snap, e.name)), cells);
    }
  }

  lemma PlanIsShaped(user: string, spec: seq<DatabaseSpec>, snap: seq<DatabaseSnapshot>, plan: Plan, cells: Cells)
    requires IsPlan(user, spec, snap, plan)
    requires WordsDeclared(spec) && WellTyped(cells) && Faithful(user, snap, cells)
    ensures PlanShaped(plan)
  {
    forall s | s in plan.globals ensures WellFormed(s) && s.target.OnDatabase? {
      assert DemandOf(s) in Demands(plan.globals);
      DatabaseWords(user, spec, snap, cells, DemandOf(s));
      AreWordsMembers(s.privs);
    }
    forall d, s | d in plan.groups && s in plan.groups[d] ensures WellFormed(s) && !s.target.OnDatabase? {
      var x := DemandOf(s);
      assert x in Demands(plan.groups[d]);
      assert x in GroupDemands(spec, snap, d);
      var e :| e in spec && e.name == d && x in SchemasDemands(e.schemas, DatabaseNamed(snap, d));
      var t :| t in e.schemas && x in SchemaDemands(t, SchemaIn(DatabaseNamed(snap, d), t.name));
      SchemaWords(user, t, snap, d, cells, x);
      SchemaDemandsShape(t, SnapshotOf(snap, d, t.name), x);
      AreWordsMembers(s.privs);
    }
  }

  lemma InformedIsPlanned(user: string, spec: seq<DatabaseSpec>, pass: Pass)
    requires InformedPass(user, spec, pass)
    ensures WellPlanned(user, spec, pass)
  {
    PlanIsShaped(user, spec, pass.snap, pass.plan, pass.before);
  }

  lemma SoundIsRouted(user: string, spec: seq<DatabaseSpec>, pass: Pass)
    requires SoundPass(user, spec, pass)
    ensures WellRouted(user, spec, pass)
  {
    InformedIsPlanned(user, spec, pass);
  }

  // ---------- convergence ----------

  /** One complete pass leaves every cell of the user at the goal and every other cell alone. */
  lemma ReachesGoal(user: string, spec: seq<DatabaseSpec>, pass: Pass, c: Cell)
    requires SoundPass(user, spec, pass) && CompleteOn(pass, c) && c in pass.before
    ensures c in pass.After()
    ensures pass.After()[c]
      == if c.grantee == user then Goal(spec, pass.snap, c.place, pass.before[c]) else pass.before[c]
  {
    SoundIsRouted(user, spec, pass);
    ReplayPerCell(pass.before, pass.log);
    if c.grantee == user {
      CompleteValue(user, spec, pass, c, pass.before[c]);
      PlanReachesGoal(user, spec, pass.snap, pass.plan, pass.before, c.place);
    } else {
      OthersUntouched(user, spec, pass, c, pass.before[c]);
    }
  }

  /**
   In a listed schema and a kind without a wildcard entry: exactly the declared set, and nothing for the
   undeclared.
  */
  lemma ExactConvergence(user: string, spec: seq<DatabaseSpec>, pass: Pass, d: string, k: Kind, s: string, n: string)
    requires var c := Cell(user, ObjectPlace(d, k, s, n));
      SoundPass(user, spec, pass) && CompleteOn(pass, c) && c in pass.before
    requires DeclaredSchema(spec, d, s).Some? && SnapshotOf(pass.snap, d, s).Some?
    requires ObjectEntry(DeclaredSchema(spec, d, s).value.objects.Of(k), "*").None?
    ensures var c := Cell(user, ObjectPlace(d, k, s, n));
      var own := ObjectEntry(DeclaredSchema(spec, d, s).value.objects.Of(k), n);
      c in pass.After() && pass.After()[c] == if own.Some? then Wanted(c.place, own.value.privileges) else {}
  {
    ReachesGoal(user, spec, pass, Cell(user, ObjectPlace(d, k, s, n)));
  }

  /**
   Listed databases and schemas end with exactly their declared set; an undeclared listed database ends with
   nothing.
  */
  lemma ExactConvergenceAbove(user: string, spec: seq<DatabaseSpec>, pass: Pass, d: string, s: string)
    requires SoundPass(user, spec, pass)
    requires CompleteOn(pass, Cell(user, DatabasePlace(d))) && CompleteOn(pass, Cell(user, SchemaPlace(d, s)))
    requires Cell(user, DatabasePlace(d)) in pass.before && Cell(user, SchemaPlace(d, s)) in pass.before
    requires DatabaseNamed(pass.snap, d).Some?
    ensures Cell(user, DatabasePlace(d)) in pass.After() && Cell(user, SchemaPlace(d, s)) in pass.After()
    ensures var e := DeclaredDatabase(spec, d);
      pass.After()[Cell(user, DatabasePlace(d))] == if e.Some? then Wanted(DatabasePlace(d), e.value.privileges) else {}
    ensures var e := DeclaredSchema(spec, d, s);
      e.Some? && SnapshotOf(pass.snap, d, s).Some? ==>
        pass.After()[Cell(user, SchemaPlace(d, s))] == Wanted(SchemaPlace(d, s), e.value.privileges)
  {
    ReachesGoal(user, spec, pass, Cell(user, DatabasePlace(d)));
    ReachesGoal(user, spec, pass, Cell(user, SchemaPlace(d, s)));
  }

  /**
   With a wildcard entry: a named object ends with its own set and the wildcard's, another keeps what it had
   as well.
  */
  lemma WildcardMeaning(user: string, spec: seq<DatabaseSpec>, pass: Pass, d: string, k: Kind, s: string, n: string)
    requires var c := Cell(user, ObjectPlace(d, k, s, n));
      SoundPass(user, spec, pass) && CompleteOn(pass, c) && c in pass.before
    requires DeclaredSchema(spec, d, s).Some? && SnapshotOf(pass.snap, d, s).Some?
    requires ObjectEntry(DeclaredSchema(spec, d, s).value.objects.Of(k), "*").Some?
    ensures var c := Cell(user, ObjectPlace(d, k, s, n)); var entries := DeclaredSchema(spec, d, s).value.objects.Of(k);
      var w := Wanted(c.place, ObjectEntry(entries, "*").value.privileges); var own := ObjectEntry(entries, n);
      c in pass.After()
        && pass.After()[c] == (if own.Some? then Wanted(c.place, own.value.privileges) else pass.before[c]) + w
  {
    ReachesGoal(user, spec, pass, Cell(user, ObjectPlace(d, k, s, n)));
  }

  lemma NothingForUnnamed(k: Kind, s: string, n: string, entries: seq<ObjectSpec>, actual: seq<ObjectPrivilege>,
                          x: Demand)
    requires DistinctEntries(entries) && n != "*" && x.target == OnObject(k, s, n)
    requires ObjectEntry(entries, "*").Some? && ObjectEntry(entries, n).None?
    ensures x !in OrphanDemands(k, s, entries, actual) && x !in EntryDemands(k, s, entries, actual)
  {
    ObjectEntryUnique(entries, n);
    ObjectEntryUnique(entries, "*");
    assert forall o :: o in entries ==> o.name != n;
  }

  /** Under a wildcard entry no statement at all is planned for an unnamed object. */
  lemma WildcardSparesOrphans(spec: seq<DatabaseSpec>, snap: seq<DatabaseSnapshot>, d: string, k: Kind, s: string,
                              n: string, x: Demand)
    requires DistinctNames(spec) && n != "*" && DeclaredSchema(spec, d, s).Some?
    requires ObjectEntry(DeclaredSchema(spec, d, s).value.objects.Of(k), "*").Some?
    requires ObjectEntry(DeclaredSchema(spec, d, s).value.objects.Of(k), n).None?
    requires x.target == OnObject(k, s, n)
    ensures x !in GroupDemands(spec, snap, d)
  {
    var e, actual := DeclaredSchema(spec, d, s).value, SnapshotOf(snap, d, s);
    SchemaEntryNamed(spec, d, s);
    KindListed(k);
    NothingForUnnamed(k, s, n, e.objects.Of(k), HeldObjects(actual, k), x);
    KindLevelDemands(e, actual, k, x);
    GroupBySchema(spec, snap, d, s, x);
  }

  /**
   What the snapshot does not list is only added to; undeclared schemas are left alone; undeclared databases
   lose their own privileges only.
  */
  lemma FrameAndMonotonicity(user: string, spec: seq<DatabaseSpec>, pass: Pass, c: Cell)
    requires SoundPass(user, spec, pass) && CompleteOn(pass, c) && c in pass.before && c.grantee == user
    ensures c in pass.After()
    ensures DatabaseNamed(pass.snap, c.place.database).None? ==>
      pass.After()[c] == pass.before[c] + Asked(spec, c.place)
    ensures !c.place.DatabasePlace? && SnapshotOf(pass.snap, c.place.database, c.place.schema).None? ==>
      pass.After()[c] == pass.before[c] + Asked(spec, c.place)
    ensures !c.place.DatabasePlace? && DeclaredSchema(spec, c.place.database, c.place.schema).None? ==>
      pass.After()[c] == pass.before[c]
    ensures DeclaredDatabase(spec, c.place.database).None? ==>
      pass.After()[c] == if c.place.DatabasePlace? then {} else pass.before[c]
  {
    ReachesGoal(user, spec, pass, c);
  }

  // ---------- safety at every prefix ----------

  /**
   Whatever was sent, however it was answered and whatever USEs were refused: other users lose and gain nothing; a
   cell holds no more than it held and is asked for, if and only if no stray GRANT gives more; and a kept place
   loses nothing, if and only if what stray REVOKEs take from it is granted again.
   */
  lemma PrefixBounds(user: string, spec: seq<DatabaseSpec>, pass: Pass, c: Cell)
    requires InformedPass(user, spec, pass) && DistinctNames(spec) && c in pass.before
    ensures c in pass.After()
    ensures c.grantee != user ==> pass.After()[c] == pass.before[c]
    ensures c.grantee == user ==>
      (pass.After()[c] <= pass.before[c] + Asked(spec, c.place) <==>
       forall q :: GrantedAstray(pass.log, c, q) ==> q in pass.before[c] + Asked(spec, c.place))
    ensures c.grantee == user && Kept(spec, pass.snap, c.place) ==>
      (pass.before[c] <= pass.After()[c] <==>
       forall q :: q in pass.before[c] && RevokedAstray(pass.log, c, q) ==> Granted(pass.log, c, q))
  {
    InformedIsPlanned(user, spec, pass);
    ReplayPerCell(pass.before, pass.log);
    if c.grantee == user {
      PlanReachesGoal(user, spec, pass.snap, pass.plan, pass.before, c.place);
      UpperExactly(user, spec, pass, c, pass.before[c], pass.before[c] + Asked(spec, c.place));
      if Kept(spec, pass.snap, c.place) {
        LowerExactly(user, spec, pass, c, pass.before[c], pass.before[c]);
      }
    } else {
      OthersUntouched(user, spec, pass, c, pass.before[c]);
    }
  }

  /** Where every statement ran in its own database, both bounds hold. */
  lemma RoutedBounds(user: string, spec: seq<DatabaseSpec>, pass: Pass, c: Cell)
    requires SoundPass(user, spec, pass) && c in pass.before && c.grantee == user
    ensures c in pass.After() && pass.After()[c] <= pass.before[c] + Asked(spec, c.place)
    ensures Kept(spec, pass.snap, c.place) ==> pass.before[c] <= pass.After()[c]
  {
    PrefixBounds(user, spec, pass, c);
    forall q { RoutedMeansNoStrays(pass.log, c, q); }
  }

  /** A cell keeps what it held and is declared, if and only if what stray REVOKEs take of that is granted again. */
  ghost predicate KeepsExactly(pass: Pass, c: Cell, declared: set<string>)
    requires c in pass.before && c in pass.After()
  {
    pass.before[c] * declared <= pass.After()[c] <==>
      forall q :: q in pass.before[c] * declared && RevokedAstray(pass.log, c, q) ==> Granted(pass.log, c, q)
  }

  /** A cell gains only what it is declared, if and only if no stray GRANT gives it more. */
  ghost predicate GainsExactly(pass: Pass, c: Cell, wanted: set<string>)
    requires c in pass.before && c in pass.After()
  {
    pass.After()[c] <= pass.before[c] + wanted <==>
      forall q :: GrantedAstray(pass.log, c, q) ==> q in pass.before[c] + wanted
  }

  /** What is held and not taken by the plan. */
  lemma KeepsUntaken(user: string, spec: seq<DatabaseSpec>, pass: Pass, p: Place, declared: set<string>)
    requires InformedPass(user, spec, pass) && Cell(user, p) in pass.before
    requires TakenBy(Deciding(pass.plan, p), p) <= pass.before[Cell(user, p)] - declared
    ensures Cell(user, p) in pass.After() && KeepsExactly(pass, Cell(user, p), declared)
  {
    InformedIsPlanned(user, spec, pass);
    LowerExactly(user, spec, pass, Cell(user, p), pass.before[Cell(user, p)], pass.before[Cell(user, p)] * declared);
    ReplayPerCell(pass.before, pass.log);
  }

  /** What is held and declared on an object. */
  lemma KeepsDeclared(user: string, spec: seq<DatabaseSpec>, pass: Pass, p: Place, own: ObjectSpec)
    requires InformedPass(user, spec, pass) && DistinctNames(spec) && Cell(user, p) in pass.before && p.ObjectPlace?
    requires DeclaredSchema(spec, p.database, p.schema).Some?
    requires ObjectEntry(DeclaredSchema(spec, p.database, p.schema).value.objects.Of(p.kind), p.name) == Some(own)
    ensures Cell(user, p) in pass.After() && KeepsExactly(pass, Cell(user, p), AsSet(own.privileges))
  {
    PlanIsShaped(user, spec, pass.snap, pass.plan, pass.before);
    TakesOnlyUndeclared(user, spec, pass.snap, pass.plan, pass.before, p, own);
    KeepsUntaken(user, spec, pass, p, AsSet(own.privileges));
  }

  /** The bounds of PrefixSafety for declared databases, where they hold whatever USEs were refused. */
  lemma DatabasePrefixSafety(user: string, spec: seq<DatabaseSpec>, pass: Pass, d: string)
    requires InformedPass(user, spec, pass) && DistinctNames(spec) && Cell(user, DatabasePlace(d)) in pass.before
    requires DeclaredDatabase(spec, d).Some?
    ensures var c, e := Cell(user, DatabasePlace(d)), DeclaredDatabase(spec, d).value;
      && c in pass.After() && pass.before[c] * AsSet(e.privileges) <= pass.After()[c]
      && pass.After()[c] <= pass.before[c] + Wanted(c.place, e.privileges)
  {
    InformedIsPlanned(user, spec, pass);
    forall q { NoStraysOnDatabases(user, spec, pass, Cell(user, DatabasePlace(d)), q); }
    PrefixBounds(user, spec, pass, Cell(user, DatabasePlace(d)));
    DatabaseTakesOnlyUndeclared(user, spec, pass.snap, pass.plan, pass.before, d);
    KeepsUntaken(user, spec, pass, DatabasePlace(d), AsSet(DeclaredDatabase(spec, d).value.privileges));
  }

  /** The bounds of PrefixSafety for declared schemas. */
  lemma SchemaPrefixSafety(user: string, spec: seq<DatabaseSpec>, pass: Pass, d: string, s: string)
    requires InformedPass(user, spec, pass) && DistinctNames(spec) && Cell(user, SchemaPlace(d, s)) in pass.before
    requires DeclaredSchema(spec, d, s).Some?
    ensures var c, e := Cell(user, SchemaPlace(d, s)), DeclaredSchema(spec, d, s).value;
      && c in pass.After() && KeepsExactly(pass, c, AsSet(e.privileges))
      && GainsExactly(pass, c, Wanted(c.place, e.privileges))
  {
    PrefixBounds(user, spec, pass, Cell(user, SchemaPlace(d, s)));
    PlanIsShaped(user, spec, pass.snap, pass.plan, pass.before);
    SchemaTakesOnlyUndeclared(user, spec, pass.snap, pass.plan, pass.before, d, s);
    KeepsUntaken(user, spec, pass, SchemaPlace(d, s), AsSet(DeclaredSchema(spec, d, s).value.privileges));
  }

  /** Without a wildcard entry an object is asked for what its own entry says. */
  lemma AskedOfOwnEntry(spec: seq<DatabaseSpec>, p: Place)
    requires p.ObjectPlace? && DeclaredSchema(spec, p.database, p.schema).Some?
    requires ObjectEntry(DeclaredSchema(spec, p.database, p.schema).value.objects.Of(p.kind), "*").None?
    ensures Asked(spec, p)
      == WantedBy(p, ObjectEntry(DeclaredSchema(spec, p.database, p.schema).value.objects.Of(p.kind), p.name))
  {
  }

  /**
   For an object in a kind without a wildcard entry, after every prefix of the run, with any answers and any refused
   USEs: it holds at least what was held and declared, exactly when stray REVOKEs on that are made up for, and at most
   what was held or declared, exactly when no stray GRANT gives more.
   */
  lemma PrefixSafety(user: string, spec: seq<DatabaseSpec>, pass: Pass, p: Place)
    requires InformedPass(user, spec, pass) && DistinctNames(spec) && Cell(user, p) in pass.before && p.ObjectPlace?
    requires DeclaredSchema(spec, p.database, p.schema).Some?
    requires ObjectEntry(DeclaredSchema(spec, p.database, p.schema).value.objects.Of(p.kind), "*").None?
    ensures Cell(user, p) in pass.After()
    ensures var own := ObjectEntry(DeclaredSchema(spec, p.database, p.schema).value.objects.Of(p.kind), p.name);
      && GainsExactly(pass, Cell(user, p), WantedBy(p, own))
      && (own.Some? ==> KeepsExactly(pass, Cell(user, p), AsSet(own.value.privileges)))
  {
    PrefixBounds(user, spec, pass, Cell(user, p));
    AskedOfOwnEntry(spec, p);
    var own := ObjectEntry(DeclaredSchema(spec, p.database, p.schema).value.objects.Of(p.kind), p.name);
    if own.Some? {
      KeepsDeclared(user, spec, pass, p, own.value);
    }
  }

  /**
   Once a GRANT was sent and the REVOKEs about the cell landed, a place that is not kept holds nothing that is not
   asked for, if and only if no stray GRANT gives it such.
   */
  lemma GrantPhaseSafety(user: string, spec: seq<DatabaseSpec>, pass: Pass, c: Cell, g: nat)
    requires InformedPass(user, spec, pass) && DistinctNames(spec) && c in pass.before && c.grantee == user
    requires RevokesLand(pass.log, c) && g < |pass.log| && pass.log[g].stmt.verb.Grant?
    requires !Kept(spec, pass.snap, c.place)
    ensures c in pass.After()
    ensures pass.After()[c] <= Asked(spec, c.place) <==>
      forall q :: GrantedAstray(pass.log, c, q) ==> q in Asked(spec, c.place)
  {
    InformedIsPlanned(user, spec, pass);
    ReplayPerCell(pass.before, pass.log);
    GrantPhaseValue(user, spec, pass, c, pass.before[c], g);
    PlanReachesGoal(user, spec, pass.snap, pass.plan, pass.before, c.place);
  }

  // ---------- retries ----------

  /** The snapshot lists every declared database and schema. */
  ghost predicate ListsDeclared(spec: seq<DatabaseSpec>, snap: seq<DatabaseSnapshot>) {
    forall d :: DeclaredDatabase(spec, d).Some? ==>
      && DatabaseNamed(snap, d).Some?
      && forall s :: DeclaredSchema(spec, d, s).Some? ==> SnapshotOf(snap, d, s).Some?
  }

  /**
   Places no pass takes from, whatever its snapshot lists: undeclared schemas, and unnamed objects under a
   wildcard entry.
  */
  predicate Spared(spec: seq<DatabaseSpec>, p: Place) {
    match p
    case DatabasePlace(_) => false
    case SchemaPlace(d, s) => DeclaredSchema(spec, d, s).None?
    case ObjectPlace(d, k, s, n) =>
      var e := DeclaredSchema(spec, d, s);
      e.None? || (ObjectEntry(e.value.objects.Of(k), n).None? && ObjectEntry(e.value.objects.Of(k), "*").Some?)
  }

  /** With everything declared listed, the goal depends on the value before only for spared places. */
  lemma GoalWhenListed(user: string, spec: seq<DatabaseSpec>, snap: seq<DatabaseSnapshot>, cells: Cells, p: Place)
    requires ListsDeclared(spec, snap) && Faithful(user, snap, cells) && Cell(user, p) in cells
    ensures var v := cells[Cell(user, p)];
      Goal(spec, snap, p, v) == (if Spared(spec, p) then v else {}) + Asked(spec, p)
  {
  }

  /** What strays did to a cell is within what is asked, and what they took is granted again. */
  ghost predicate StraysHarmless(spec: seq<DatabaseSpec>, pass: Pass, c: Cell)
    requires c in pass.before
  {
    && (forall q :: GrantedAstray(pass.log, c, q) ==> q in pass.before[c] + Asked(spec, c.place))
    && (forall q :: q in pass.before[c] && RevokedAstray(pass.log, c, q) ==> Granted(pass.log, c, q))
  }

  /** Passes on one server, each starting where the one before stopped, wherever that was. */
  ghost predicate Retries(user: string, spec: seq<DatabaseSpec>, passes: seq<Pass>) {
    && DistinctNames(spec)
    && (forall i :: 0 <= i < |passes| ==> InformedPass(user, spec, passes[i]))
    && (forall i :: 0 <= i < |passes| - 1 ==> passes[i + 1].before == passes[i].After())
  }

  ghost predicate AllStraysHarmless(spec: seq<DatabaseSpec>, passes: seq<Pass>, c: Cell) {
    forall i :: 0 <= i < |passes| - 1 ==> c in passes[i].before && StraysHarmless(spec, passes[i], c)
  }

  /** Broken passes whose strays are harmless only add what is asked for to spared places. */
  lemma {:induction false} SparedThroughRetries(user: string, spec: seq<DatabaseSpec>, passes: seq<Pass>, c: Cell)
    requires Retries(user, spec, passes) && passes != [] && c in passes[0].before && c.grantee == user
    requires Spared(spec, c.place) && AllStraysHarmless(spec, passes, c)
    ensures c in passes[|passes| - 1].before
    ensures passes[0].before[c] <= passes[|passes| - 1].before[c] <= passes[0].before[c] + Asked(spec, c.place)
  {
    if |passes| > 1 {
      PrefixBounds(user, spec, passes[0], c);
      assert StraysHarmless(spec, passes[0], c);
      SparedThroughRetries(user, spec, passes[1..], c);
    }
  }

  /**
   One complete pass that lists everything declared ends where a single undisturbed pass from another start would
   have: always for a place passes may take from, and for a spared one if and only if the two starts differ in
   nothing but what is asked for. Nothing is asked of what happened before, refused USEs included.
   */
  lemma LastPassDecides(user: string, spec: seq<DatabaseSpec>, last: Pass, single: Pass, c: Cell)
    requires c.grantee == user && c in single.before && c in last.before
    requires SoundPass(user, spec, last) && ListsDeclared(spec, last.snap) && CompleteOn(last, c)
    requires SoundPass(user, spec, single) && ListsDeclared(spec, single.snap) && CompleteOn(single, c)
    ensures c in last.After() && c in single.After()
    ensures last.After()[c] == single.After()[c] <==>
      (Spared(spec, c.place) ==>
       last.before[c] + Asked(spec, c.place) == single.before[c] + Asked(spec, c.place))
  {
    ReachesGoal(user, spec, last, c);
    GoalWhenListed(user, spec, last.snap, last.before, c.place);
    ReachesGoal(user, spec, single, c);
    GoalWhenListed(user, spec, single.snap, single.before, c.place);
  }

  /**
   After any number of passes broken anywhere, one complete pass ends where a single undisturbed pass from the same
   start would have, if it lists everything declared. What the broken passes saw listed does not matter, nor which
   USEs they were refused, as long as strays are harmless to spared places.
   */
  lemma RetryConvergence(user: string, spec: seq<DatabaseSpec>, passes: seq<Pass>, single: Pass, c: Cell)
    requires Retries(user, spec, passes) && passes != [] && c in passes[0].before && c.grantee == user
    requires passes[0].before == single.before
    requires Spared(spec, c.place) ==> AllStraysHarmless(spec, passes, c)
    requires var last := passes[|passes| - 1];
      SoundPass(user, spec, last) && ListsDeclared(spec, last.snap) && CompleteOn(last, c)
    requires SoundPass(user, spec, single) && ListsDeclared(spec, single.snap) && CompleteOn(single, c)
    ensures var last := passes[|passes| - 1];
      c in last.After() && c in single.After() && last.After()[c] == single.After()[c]
  {
    PlacesStay(user, spec, passes, c);
    if Spared(spec, c.place) {
      SparedThroughRetries(user, spec, passes, c);
    }
    LastPassDecides(user, spec, passes[|passes| - 1], single, c);
  }

  lemma {:induction false} PlacesStay(user: string, spec: seq<DatabaseSpec>, passes: seq<Pass>, c: Cell)
    requires Retries(user, spec, passes) && passes != [] && c in passes[0].before
    ensures c in passes[|passes| - 1].before
  {
    if |passes| > 1 {
      ReplayPerCell(passes[0].before, passes[0].log);
      PlacesStay(user, spec, passes[1..], c);
    }
  }

  // ---------- idempotence ----------

  ghost predicate Consecutive(user: string, spec: seq<DatabaseSpec>, first: Pass, second: Pass) {
    SoundPass(user, spec, first) && SoundPass(user, spec, second) && second.before == first.After()
  }

  /**
   A second complete pass changes a cell if and only if its place was kept by the first pass (not
   listed then), is not kept by the second (listed now), and held something that is not asked for.
   */
  lemma IdempotenceExact(user: string, spec: seq<DatabaseSpec>, first: Pass, second: Pass, c: Cell)
    requires Consecutive(user, spec, first, second) && c in first.before && c.grantee == user
    requires CompleteOn(first, c) && CompleteOn(second, c)
    ensures c in first.After() && c in second.After()
    ensures second.After()[c] != first.After()[c] <==>
      Kept(spec, first.snap, c.place) && !Kept(spec, second.snap, c.place) && !(first.before[c] <= Asked(spec, c.place))
  {
    ReachesGoal(user, spec, first, c);
    ReachesGoal(user, spec, second, c);
  }

  /** When the first pass saw every declared database and schema, a second complete pass changes nothing. */
  lemma Idempotence(user: string, spec: seq<DatabaseSpec>, first: Pass, second: Pass, c: Cell)
    requires Consecutive(user, spec, first, second) && c in first.before && c.grantee == user
    requires CompleteOn(first, c) && CompleteOn(second, c)
    requires ListsDeclared(spec, first.snap)
    ensures c in first.After() && c in second.After() && second.After()[c] == first.After()[c]
  {
    IdempotenceExact(user, spec, first, second, c);
  }
}
