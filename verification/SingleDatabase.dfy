/** The whole chain for a declaration of one database: list texts, snapshot, plan, run, goal. */
module SingleDatabase {
  import opened Privileges
  import opened Wrappers
  import opened Planner
  import opened Server
  import opened Executor
  import opened Routing
  import opened Desired
  import opened Convergence
  import opened Snapshot

  /** The fetch and the pass, on one connection; `catalogs` is what a session in each database would read. */
  method ReconcilePrivileges(conn: Connection, user: string, spec: seq<DatabaseSpec>, catalogs: string -> Catalog,
                             env: seq<Turn>)
    returns (ghost pass: Pass, failed: bool)
    modifies conn
    ensures var cat := catalogs(old(conn.session));
      (!CatalogReadable(cat, user) && failed && conn.cells == old(conn.cells) && conn.session == old(conn.session)) || (
        && CatalogReadable(cat, user) && IsPass(user, spec, pass) && SnapshotOfCatalog(cat, user, pass.snap)
        && pass.before == old(conn.cells) && conn.cells == pass.After()
        && Switches(old(conn.session), env, pass.log) && Answered(pass.log, env)
        && (AllUsesAccepted(env) ==> Routed(pass.log))
        && (!failed <==> Completed(pass)))
  {
    var snap := FetchSnapshot(catalogs(conn.session), user);
    if snap.ScanError? {
      return Pass(conn.cells, [], Plan([], map[]), [], [], []), true;
    }
    pass, failed := SyncPrivileges(conn, user, Some(spec), snap.value, env);
  }

  /** With one declared database no text can belong to two groups. */
  lemma OneGroupIsDisjoint(user: string, spec: seq<DatabaseSpec>, snap: seq<DatabaseSnapshot>, plan: Plan)
    requires |spec| == 1 && spec[0].name != "" && IsPlan(user, spec, snap, plan)
    ensures Named(plan.groups) && DisjointTexts(plan.groups)
  {
    assert forall e :: e in plan.groups ==> e == spec[0].name;
  }

  /**
   From the catalog's list texts to the goal, for one declared database and a session in any database `h`:
   what is assumed of the snapshot is only that the databases naming the user agree with `h`, and that is
   exactly what makes it faithful (SnapshotFaithfulExactly).
   */
  lemma CatalogToGoal(user: string, spec: seq<DatabaseSpec>, cat: Catalog, h: string, pass: Pass, c: Cell)
    requires |spec| == 1 && spec[0].name != ""
    requires DistinctNames(spec) && WordsDeclared(spec) && WellTyped(pass.before)
    requires CatalogWritten(user, cat, h, pass.before) && AllAgree(user, cat, h, pass.before)
    requires SnapshotOfCatalog(cat, user, pass.snap)
    requires IsPass(user, spec, pass) && Routed(pass.log) && CompleteOn(pass, c) && c in pass.before
    ensures c in pass.After()
    ensures pass.After()[c]
      == if c.grantee == user then Goal(spec, pass.snap, c.place, pass.before[c]) else pass.before[c]
  {
    WrittenSnapshotFaithfulExactly(user, cat, h, pass.before, pass.snap);
    OneGroupIsDisjoint(user, spec, pass.snap, pass.plan);
    ReachesGoal(user, spec, pass, c);
  }
}
