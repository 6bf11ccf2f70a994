/**
 What a refused USE does: the executor goes on in the database the session is in, where statements meant for
 another database give and take.
 */
module Refusals {
  import opened Sql
  import opened Privileges
  import opened Planner
  import opened Server
  import opened Executor
  import opened Routing
  import opened Effect
  import opened Desired
  import opened Convergence
  import opened Runs
  import opened Stability
  import opened Wrappers

  /** An environment that refuses every USE and accepts every statement. */
  function Refused(n: nat): seq<Turn> { seq(n, i => Turn(false, Done)) }

  lemma {:induction false} RefusedStays(start: string, n: nat, log: seq<Sent>, i: nat)
    requires Switches(start, Refused(n), log) && i < |log| <= n
    ensures log[i].session == start
  {
    assert SwitchedAt(start, Refused(n), log, i) && TurnAt(Refused(n), i) == Turn(false, Done);
    if i > 0 {
      RefusedStays(start, n, log, i - 1);
    }
  }

  /** A pass of a session that stays in `start`. */
  ghost function RefusedPass(user: string, spec: seq<DatabaseSpec>, snap: seq<DatabaseSnapshot>, cells: Cells,
                             start: string)
    : Pass
  {
    PassIn(user, spec, snap, cells, start, Refused(|PassOf(user, spec, snap, cells, start, "").sorted|), "")
  }

  lemma RefusedPassExists(user: string, spec: seq<DatabaseSpec>, snap: seq<DatabaseSnapshot>, cells: Cells,
                          start: string)
    ensures var pass := RefusedPass(user, spec, snap, cells, start);
      && IsPass(user, spec, pass) && IsTidy(spec, pass.plan) && Completed(pass) && pass.before == cells
        && pass.snap == snap
      && GoodLog(pass.plan.groups, pass.sorted, start, Refused(|pass.sorted|), pass.log)
      && forall i :: 0 <= i < |pass.log| ==> pass.log[i].session == start && pass.log[i].reply.Done?
  {
    var pass := RefusedPass(user, spec, snap, cells, start);
    PassInExists(user, spec, snap, cells, start, Refused(|pass.sorted|), "");
    forall i | 0 <= i < |pass.log| ensures pass.log[i].session == start && pass.log[i].reply.Done? {
      RefusedStays(start, |pass.sorted|, pass.log, i);
      assert pass.log[i].reply == TurnAt(Refused(|pass.sorted|), i).reply;
    }
  }

  /** What is asked of any database is sent in the session's. */
  lemma SentInStart(user: string, spec: seq<DatabaseSpec>, pass: Pass, start: string, d: string, x: Demand)
    returns (i: nat)
    requires IsPass(user, spec, pass) && |pass.log| == |pass.sorted|
    requires forall i :: 0 <= i < |pass.log| ==> pass.log[i].session == start && pass.log[i].reply.Done?
    requires x in GroupDemands(spec, pass.snap, d)
    ensures i < |pass.log| && DemandOf(pass.log[i].stmt) == x && pass.log[i].stmt.user == user
  {
    DemandOfDatabase(spec, pass.snap, d, x);
    assert x in Demands(pass.plan.groups[d]);
    var s :| s in pass.plan.groups[d] && DemandOf(s) == x;
    Listed(user, spec, pass, s);
    i :| 0 <= i < |pass.sorted| && pass.sorted[i] == s;
    assert pass.log[i].stmt == s;
  }

  /** With every USE refused, what is asked of any database is granted in the session's. */
  lemma GrantLandsInStart(user: string, spec: seq<DatabaseSpec>, pass: Pass, start: string, d: string, x: Demand,
                          c: Cell, q: string)
    requires IsPass(user, spec, pass) && |pass.log| == |pass.sorted|
    requires forall i :: 0 <= i < |pass.log| ==> pass.log[i].session == start && pass.log[i].reply.Done?
    requires x in GroupDemands(spec, pass.snap, d) && x.verb.Grant? && Covers(x.target, start, c.place)
    requires c in pass.before && c.grantee == user && q in Expand(c.place, x.privs)
    ensures c in pass.After() && q in pass.After()[c]
  {
    var i := SentInStart(user, spec, pass, start, d, x);
    assert Grants(pass.log[i], c, q);
    LogRevokesFirst(user, spec, pass);
    RevokesFirstValue(pass.before[c], c, pass.log, q);
    ReplayPerCell(pass.before, pass.log);
  }

  /** No statement of a database or a group grants on a cell in the session's database. */
  ghost predicate NothingGranted(spec: seq<DatabaseSpec>, snap: seq<DatabaseSnapshot>, start: string, c: Cell) {
    forall g, x :: x in GroupDemands(spec, snap, g) && x.verb.Grant? ==> !Covers(x.target, start, c.place)
  }

  lemma NotGranted(user: string, spec: seq<DatabaseSpec>, pass: Pass, start: string, c: Cell, q: string)
    requires IsPass(user, spec, pass) && PlanShaped(pass.plan) && NothingGranted(spec, pass.snap, start, c)
    requires forall i :: 0 <= i < |pass.log| ==> pass.log[i].session == start
    requires !c.place.DatabasePlace?
    ensures !Granted(pass.log, c, q)
  {
    forall i | 0 <= i < |pass.log| ensures !Grants(pass.log[i], c, q) {
      var s := pass.sorted[i];
      assert pass.log[i].stmt == s;
      Listed(user, spec, pass, s);
      if s !in pass.plan.globals {
        var g :| g in pass.plan.groups && s in pass.plan.groups[g];
        assert DemandOf(s) in Demands(pass.plan.groups[g]);
      }
    }
  }

  /** With every USE refused, what is to be revoked in any database is revoked in the session's. */
  lemma RevokeLandsInStart(user: string, spec: seq<DatabaseSpec>, pass: Pass, start: string, d: string, x: Demand,
                           c: Cell, q: string)
    requires IsPass(user, spec, pass) && PlanShaped(pass.plan) && |pass.log| == |pass.sorted|
    requires forall i :: 0 <= i < |pass.log| ==> pass.log[i].session == start && pass.log[i].reply.Done?
    requires x in GroupDemands(spec, pass.snap, d) && x.verb.Revoke? && Covers(x.target, start, c.place)
    requires c in pass.before && c.grantee == user && !c.place.DatabasePlace? && q in Expand(c.place, x.privs)
    requires NothingGranted(spec, pass.snap, start, c)
    ensures c in pass.After() && q !in pass.After()[c]
  {
    var i := SentInStart(user, spec, pass, start, d, x);
    assert Revokes(pass.log[i], c, q);
    NotGranted(user, spec, pass, start, c, q);
    LogRevokesFirst(user, spec, pass);
    RevokesFirstValue(pass.before[c], c, pass.log, q);
    ReplayPerCell(pass.before, pass.log);
  }

  lemma OneDatabaseInforms(user: string, spec: seq<DatabaseSpec>, pass: Pass)
    requires |spec| == 1 && spec[0].name != "" && IsPass(user, spec, pass)
    requires WordsDeclared(spec) && WellTyped(pass.before) && Faithful(user, pass.snap, pass.before)
    ensures InformedPass(user, spec, pass) && PlanShaped(pass.plan)
  {
    assert forall d :: d in pass.plan.groups ==> d == spec[0].name;
    PlanIsShaped(user, spec, pass.snap, pass.plan, pass.before);
  }

  /** Nothing is asked of a place in a database that is not the declared one. */
  lemma NotDeclared(spec: seq<DatabaseSpec>, p: Place)
    requires |spec| == 1 && spec[0].name != p.database && !p.DatabasePlace?
    ensures Asked(spec, p) == {} && Spared(spec, p)
  {
    assert DeclaredDatabase(spec, p.database) == DeclaredDatabase(spec[1..], p.database);
    assert DeclaredSchema(spec, p.database, p.schema).None?;
  }

  lemma EntryIsAsked(spec: seq<DatabaseSpec>, snap: seq<DatabaseSnapshot>, e: DatabaseSpec, s: SchemaSpec, k: Kind,
                     x: Demand)
    requires e in spec && s in e.schemas
    requires var actual := HeldObjects(SnapshotOf(snap, e.name, s.name), k);
      x in OrphanDemands(k, s.name, s.objects.Of(k), actual) || x in EntryDemands(k, s.name, s.objects.Of(k), actual)
    ensures x in GroupDemands(spec, snap, e.name)
  {
    KindListed(k);
    assert x in SchemaDemands(s, SnapshotOf(snap, e.name, s.name));
    assert x in SchemasDemands(e.schemas, DatabaseNamed(snap, e.name));
  }

  /** A complete pass in which only USEs are refused, and what is so of it. */
  ghost predicate RefusedAndComplete(user: string, spec: seq<DatabaseSpec>, start: string, pass: Pass) {
    && InformedPass(user, spec, pass) && DistinctNames(spec) && IsTidy(spec, pass.plan) && Completed(pass)
    && GoodLog(pass.plan.groups, pass.sorted, start, Refused(|pass.sorted|), pass.log)
  }

  lemma StrayGrant(user: string, spec: seq<DatabaseSpec>, snap: seq<DatabaseSnapshot>, cells: Cells, start: string,
                   x: Demand, c: Cell, q: string)
    requires |spec| == 1 && spec[0].name != "" && DistinctNames(spec)
    requires WordsDeclared(spec) && WellTyped(cells) && Faithful(user, snap, cells)
    requires x in GroupDemands(spec, snap, spec[0].name) && x.verb.Grant? && Covers(x.target, start, c.place)
    requires c in cells && c.grantee == user && q in Expand(c.place, x.privs)
    ensures var pass := RefusedPass(user, spec, snap, cells, start);
      RefusedAndComplete(user, spec, start, pass) && c in pass.After() && q in pass.After()[c]
  {
    var pass := RefusedPass(user, spec, snap, cells, start);
    RefusedPassExists(user, spec, snap, cells, start);
    OneDatabaseInforms(user, spec, pass);
    GrantLandsInStart(user, spec, pass, start, spec[0].name, x, c, q);
  }

  lemma StrayRevoke(user: string, spec: seq<DatabaseSpec>, snap: seq<DatabaseSnapshot>, cells: Cells, start: string,
                    x: Demand, c: Cell, q: string)
    requires |spec| == 1 && spec[0].name != "" && DistinctNames(spec)
    requires WordsDeclared(spec) && WellTyped(cells) && Faithful(user, snap, cells)
    requires x in GroupDemands(spec, snap, spec[0].name) && x.verb.Revoke? && Covers(x.target, start, c.place)
    requires c in cells && c.grantee == user && !c.place.DatabasePlace? && q in Expand(c.place, x.privs)
    requires NothingGranted(spec, snap, start, c)
    ensures var pass := RefusedPass(user, spec, snap, cells, start);
      RefusedAndComplete(user, spec, start, pass) && c in pass.After() && q !in pass.After()[c]
  {
    var pass := RefusedPass(user, spec, snap, cells, start);
    RefusedPassExists(user, spec, snap, cells, start);
    OneDatabaseInforms(user, spec, pass);
    RevokeLandsInStart(user, spec, pass, start, spec[0].name, x, c, q);
  }

  // ---------- a stray GRANT ----------

  /** USAGE on a schema and SELECT on its table, declared for "d". */
  const LONE_SPEC: seq<DatabaseSpec> := [DatabaseSpec("d", ["CONNECT"], false, [TWIN_SCHEMA])]

  const DEV_TABLE: Place := ObjectPlace("dev", Table, "public", "t")

  /** The user holds nothing, in "d" or in "dev". */
  const LONE_CELLS: Cells :=
    map[Cell("u", DatabasePlace("d")) := {}, Cell("u", SchemaPlace("d", "public")) := {},
        Cell("u", ObjectPlace("d", Table, "public", "t")) := {}, Cell("u", DEV_TABLE) := {}]

  lemma LoneHypotheses()
    ensures DistinctNames(LONE_SPEC) && WordsDeclared(LONE_SPEC)
    ensures WellTyped(LONE_CELLS) && Faithful("u", [], LONE_CELLS)
  {
    assert forall e :: e in LONE_SPEC ==> e.privileges == ["CONNECT"] && e.schemas == [TWIN_SCHEMA];
    assert forall k, o :: o in TWIN_SCHEMA.objects.Of(k) ==> o.privileges == ["SELECT"];
    assert "CONNECT" in Universe(DatabasePlace("d")) && "USAGE" in Universe(SchemaPlace("d", "public"));
    assert "SELECT" in Universe(DEV_TABLE);
    UniverseWords(DatabasePlace("d"));
    UniverseWords(SchemaPlace("d", "public"));
    UniverseWords(DEV_TABLE);
    assert forall c :: c in LONE_CELLS ==> LONE_CELLS[c] == {};
    assert forall d :: DatabaseNamed([], d).None?;
  }

  lemma LoneDemand()
    ensures Demand(Grant, {"SELECT"}, OnObject(Table, "public", "t")) in GroupDemands(LONE_SPEC, [], "d")
  {
    var x, o := Demand(Grant, {"SELECT"}, OnObject(Table, "public", "t")), ObjectSpec("t", ["SELECT"], false);
    var entries, actual := TWIN_SCHEMA.objects.Of(Table), HeldObjects(SnapshotOf([], "d", "public"), Table);
    assert entries == [o] && entries[0] in entries && actual == [];
    assert AsSet(o.privileges) == {"SELECT"} && AsSet(ObjectNamed(actual, "t").privileges) == {};
    assert {"SELECT"} - {} == {"SELECT"};
    assert x in DiffDemands(TargetFor(Table, "public", "t"), {}, {"SELECT"});
    assert x in EntryDemands(Table, "public", entries, actual);
    assert LONE_SPEC[0] in LONE_SPEC && LONE_SPEC[0].schemas[0] in LONE_SPEC[0].schemas;
    EntryIsAsked(LONE_SPEC, [], LONE_SPEC[0], TWIN_SCHEMA, Table, x);
  }

  /**
   The session is in "dev" and USE "d" is refused: a complete pass in which every statement succeeds grants the table
   of "dev", on which nothing is held and nothing is declared.
   */
  lemma StrayGrantGives()
    ensures var pass, c := RefusedPass("u", LONE_SPEC, [], LONE_CELLS, "dev"), Cell("u", DEV_TABLE);
      && RefusedAndComplete("u", LONE_SPEC, "dev", pass)
      && c in LONE_CELLS && LONE_CELLS[c] == {} && Asked(LONE_SPEC, DEV_TABLE) == {}
      && c in pass.After() && "SELECT" in pass.After()[c]
  {
    LoneHypotheses();
    LoneDemand();
    NotDeclared(LONE_SPEC, DEV_TABLE);
    assert "SELECT" in Expand(DEV_TABLE, {"SELECT"});
    StrayGrant("u", LONE_SPEC, [], LONE_CELLS, "dev", Demand(Grant, {"SELECT"}, OnObject(Table, "public", "t")),
               Cell("u", DEV_TABLE), "SELECT");
  }

  // ---------- a stray REVOKE ----------

  const DEV_LATE_TABLE: Place := ObjectPlace("dev", Table, "s", "t")

  /** As after a first pass on "d", where the table is an orphan now; and a table of that name in "dev". */
  const ORPHAN_CELLS: Cells :=
    map[Cell("u", DatabasePlace("d")) := {"CONNECT"}, Cell("u", SchemaPlace("d", "s")) := {"USAGE"},
        Cell("u", LATE_TABLE) := {"SELECT"}, Cell("u", DEV_LATE_TABLE) := {"SELECT"}]

  lemma OrphanTyped()
    ensures WellTyped(ORPHAN_CELLS)
  {
    assert "CONNECT" in Universe(DatabasePlace("d")) && "USAGE" in Universe(SchemaPlace("d", "s"));
    assert "SELECT" in Universe(LATE_TABLE) && "SELECT" in Universe(DEV_LATE_TABLE);
  }

  lemma OrphanFaithful()
    ensures Faithful("u", LateSnapshot([LATE_SCHEMA]), ORPHAN_CELLS)
  {
    LateLookups([LATE_SCHEMA]);
    assert AsSet(["CONNECT"]) == {"CONNECT"} && AsSet(["USAGE"]) == {"USAGE"} && AsSet(["SELECT"]) == {"SELECT"};
    var tables := LATE_SCHEMA.objects.Of(Table);
    assert tables[0].name == "t" && ObjectNames(tables) == {"t"};
    assert FaithfulSchema("u", "d", "s", LATE_SCHEMA, ORPHAN_CELLS) by {
      assert forall k, n :: n in ObjectNames(LATE_SCHEMA.objects.Of(k)) ==> k == Table && n == "t";
    }
    assert FaithfulDatabase("u", "d", LateSnapshot([LATE_SCHEMA])[0], ORPHAN_CELLS);
  }

  lemma OrphanDemand()
    ensures Demand(Revoke, {"ALL"}, OnObject(Table, "s", "t")) in GroupDemands(LATE_SPEC, LateSnapshot([LATE_SCHEMA]),
      "d")
  {
    LateLookups([LATE_SCHEMA]);
    var x, s := Demand(Revoke, {"ALL"}, OnObject(Table, "s", "t")), LATE_SPEC[0].schemas[0];
    var actual := HeldObjects(SnapshotOf(LateSnapshot([LATE_SCHEMA]), "d", "s"), Table);
    assert actual == LATE_SCHEMA.objects.Of(Table) && actual[0].name == "t" && actual[0] in actual;
    assert "t" in ObjectNames(actual) && TargetFor(Table, "s", "t") == OnObject(Table, "s", "t");
    assert x in OrphanDemands(Table, "s", s.objects.Of(Table), actual);
    assert LATE_SPEC[0] in LATE_SPEC && s in LATE_SPEC[0].schemas;
    EntryIsAsked(LATE_SPEC, LateSnapshot([LATE_SCHEMA]), LATE_SPEC[0], s, Table, x);
  }

  /** Nothing about objects is granted where no object is declared. */
  lemma NoEntriesNoGrants(s: SchemaSpec, actual: Option<SchemaSnapshot>, x: Demand)
    requires s.objects == NO_ENTRIES && x in SchemaDemands(s, actual) && AboutObjects(x.target)
    ensures x.verb.Revoke?
  {
    assert forall k :: NO_ENTRIES.Of(k) == [];
    assert EntriesOf(KINDS, s, actual) == {};
  }

  lemma OrphanIsNotGranted(start: string)
    ensures NothingGranted(LATE_SPEC, LateSnapshot([LATE_SCHEMA]), start,
      Cell("u", ObjectPlace(start, Table, "s", "t")))
  {
    var snap := LateSnapshot([LATE_SCHEMA]);
    forall g, x | x in GroupDemands(LATE_SPEC, snap, g) && AboutObjects(x.target) ensures x.verb.Revoke? {
      var e :| e in LATE_SPEC && e.name == g && x in SchemasDemands(e.schemas, DatabaseNamed(snap, g));
      var s :| s in e.schemas && x in SchemaDemands(s, SchemaIn(DatabaseNamed(snap, g), s.name));
      NoEntriesNoGrants(s, SchemaIn(DatabaseNamed(snap, g), s.name), x);
    }
  }

  /**
   The session is in "dev" and USE "d" is refused: a complete pass in which every statement succeeds takes the
   privilege on the table of "dev", whose schema is not declared, because the table of that name in "d" is an orphan.
   */
  lemma StrayRevokeTakes()
    ensures var snap := LateSnapshot([LATE_SCHEMA]);
      var pass, c := RefusedPass("u", LATE_SPEC, snap, ORPHAN_CELLS, "dev"), Cell("u", DEV_LATE_TABLE);
      && RefusedAndComplete("u", LATE_SPEC, "dev", pass) && Spared(LATE_SPEC, DEV_LATE_TABLE)
      && c in ORPHAN_CELLS && ORPHAN_CELLS[c] == {"SELECT"}
      && c in pass.After() && "SELECT" !in pass.After()[c]
  {
    LateDeclared();
    LateTyped({"USAGE"});
    OrphanTyped();
    OrphanFaithful();
    OrphanDemand();
    OrphanIsNotGranted("dev");
    NotDeclared(LATE_SPEC, DEV_LATE_TABLE);
    assert "SELECT" in Expand(DEV_LATE_TABLE, {"ALL"});
    StrayRevoke("u", LATE_SPEC, LateSnapshot([LATE_SCHEMA]), ORPHAN_CELLS, "dev",
                Demand(Revoke, {"ALL"}, OnObject(Table, "s", "t")), Cell("u", DEV_LATE_TABLE), "SELECT");
  }
}
