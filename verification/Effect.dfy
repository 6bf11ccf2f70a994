/** What a pass does to one cell, read off the demands of its plan. */
module Effect {
  import opened Sql
  import opened Privileges
  import opened Planner
  import opened Server
  import opened Executor
  import opened Routing

  /** What the demands in `x` grant on a place, each run in the place's own database. */
  function GivenBy(demands: set<Demand>, p: Place): set<string> {
    set x, q | x in demands && x.verb.Grant? && Covers(x.target, p.database, p) && q in Expand(p, x.privs) :: q
  }

  function TakenBy(demands: set<Demand>, p: Place): set<string> {
    set x, q | x in demands && x.verb.Revoke? && Covers(x.target, p.database, p) && q in Expand(p, x.privs) :: q
  }

  /** The demands that can reach a place. */
  function Deciding(plan: Plan, p: Place): set<Demand> {
    Demands(OwnGroup(plan, RunOf(p)))
  }

  /** A pass whose statements have decodable texts of their own. */
  ghost predicate WellPlanned(user: string, spec: seq<DatabaseSpec>, pass: Pass) {
    IsPass(user, spec, pass) && Routable(pass.plan)
  }

  /** A pass whose statements reach the databases they were planned for. */
  ghost predicate WellRouted(user: string, spec: seq<DatabaseSpec>, pass: Pass) {
    WellPlanned(user, spec, pass) && Routed(pass.log)
  }

  /** Every statement that acts on the cell succeeded. */
  ghost predicate SucceedsOn(log: seq<Sent>, c: Cell) {
    forall i :: 0 <= i < |log| && Hits(log[i].stmt, log[i].session, c) ==> log[i].reply.Done?
  }

  /** The statement is about the cell and was sent for its database. */
  predicate SentAbout(e: Sent, c: Cell) {
    e.stmt.user == c.grantee && e.target == RunOf(c.place) && Covers(e.stmt.target, c.place.database, c.place)
  }

  /** Every REVOKE sent about the cell ran in its database and succeeded. */
  ghost predicate RevokesLand(log: seq<Sent>, c: Cell) {
    forall i :: 0 <= i < |log| && SentAbout(log[i], c) && log[i].stmt.verb.Revoke? ==>
      !Stray(log[i]) && log[i].reply.Done?
  }

  /** A statement meant for another database granted the cell `q`. */
  ghost predicate GrantedAstray(log: seq<Sent>, c: Cell, q: string) {
    exists i :: 0 <= i < |log| && Stray(log[i]) && Grants(log[i], c, q)
  }

  /** A statement meant for another database revoked `q` from the cell. */
  ghost predicate RevokedAstray(log: seq<Sent>, c: Cell, q: string) {
    exists i :: 0 <= i < |log| && Stray(log[i]) && Revokes(log[i], c, q)
  }

  lemma RoutedMeansNoStrays(log: seq<Sent>, c: Cell, q: string)
    requires Routed(log)
    ensures !GrantedAstray(log, c, q) && !RevokedAstray(log, c, q)
  {
  }

  /** Only statements inside a database have one to stray from: database cells see no strays. */
  lemma NoStraysOnDatabases(user: string, spec: seq<DatabaseSpec>, pass: Pass, c: Cell, q: string)
    requires WellPlanned(user, spec, pass) && c.place.DatabasePlace?
    ensures !GrantedAstray(pass.log, c, q) && !RevokedAstray(pass.log, c, q)
  {
    PassLogShaped(user, spec, pass);
    forall i | 0 <= i < |pass.log| && Stray(pass.log[i])
      ensures !Hits(pass.log[i].stmt, pass.log[i].session, c)
    {
      OwnerIsPlanner(pass.plan, pass.log[i].stmt, pass.log[i].target);
    }
  }

  lemma PlannedFor(user: string, spec: seq<DatabaseSpec>, plan: Plan, snap: seq<DatabaseSnapshot>, d: string, s: Stmt)
    requires IsPlan(user, spec, snap, plan) && s in OwnGroup(plan, d)
    ensures s.user == user && DemandOf(s) in Demands(OwnGroup(plan, d))
  {
  }

  /** A statement that acts on a cell without having strayed was demanded for its place. */
  lemma HitWasDemanded(user: string, spec: seq<DatabaseSpec>, pass: Pass, i: nat, c: Cell)
    requires WellPlanned(user, spec, pass) && i < |pass.log| && !Stray(pass.log[i])
    requires Hits(pass.log[i].stmt, pass.log[i].session, c)
    ensures c.grantee == user
    ensures DemandOf(pass.log[i].stmt) in Deciding(pass.plan, c.place)
    ensures Covers(pass.log[i].stmt.target, c.place.database, c.place)
  {
    PassLogShaped(user, spec, pass);
    if pass.log[i].target != RunOf(c.place) {
      OtherRunMisses(pass.plan, pass.log, i, c);
    }
    SentWherePlanned(pass.plan, pass.log, i, RunOf(c.place));
    PlannedFor(user, spec, pass.plan, pass.snap, RunOf(c.place), pass.log[i].stmt);
  }

  /** A complete pass sends every demand to the places it is about. */
  lemma DemandWasSent(user: string, spec: seq<DatabaseSpec>, pass: Pass, x: Demand, c: Cell) returns (i: nat)
    requires WellRouted(user, spec, pass) && |pass.log| == |pass.sorted| && c.grantee == user
    requires x in Deciding(pass.plan, c.place) && Covers(x.target, c.place.database, c.place)
    ensures i < |pass.log| && DemandOf(pass.log[i].stmt) == x && Hits(pass.log[i].stmt, pass.log[i].session, c)
  {
    var d := RunOf(c.place);
    var s :| s in OwnGroup(pass.plan, d) && DemandOf(s) == x;
    PlannedFor(user, spec, pass.plan, pass.snap, d, s);
    Listed(user, spec, pass, s);
    i :| 0 <= i < |pass.sorted| && pass.sorted[i] == s;
    PassLogShaped(user, spec, pass);
    SentWherePlanned(pass.plan, pass.log, i, d);
  }

  lemma LogRevokesFirst(user: string, spec: seq<DatabaseSpec>, pass: Pass)
    requires IsPass(user, spec, pass)
    ensures RevokesFirst(pass.log)
  {
    forall i, j | 0 <= i < j < |pass.log| && pass.log[i].stmt.verb.Grant?
      ensures pass.log[j].stmt.verb.Grant?
    {
      SortedMeansRevokesFirst(pass.sorted, i, j);
    }
  }

  /** What was granted or revoked was demanded, unless the statement strayed. */
  lemma GrantedWasGiven(user: string, spec: seq<DatabaseSpec>, pass: Pass, c: Cell, q: string)
    requires WellPlanned(user, spec, pass)
    ensures Granted(pass.log, c, q) ==>
      GrantedAstray(pass.log, c, q) || q in GivenBy(Deciding(pass.plan, c.place), c.place)
    ensures Revoked(pass.log, c, q) ==>
      RevokedAstray(pass.log, c, q) || q in TakenBy(Deciding(pass.plan, c.place), c.place)
  {
    if Granted(pass.log, c, q) && !GrantedAstray(pass.log, c, q) {
      var i :| 0 <= i < |pass.log| && Grants(pass.log[i], c, q);
      HitWasDemanded(user, spec, pass, i, c);
      assert DemandOf(pass.log[i].stmt).privs == AsSet(pass.log[i].stmt.privs);
    }
    if Revoked(pass.log, c, q) && !RevokedAstray(pass.log, c, q) {
      var i :| 0 <= i < |pass.log| && Revokes(pass.log[i], c, q);
      HitWasDemanded(user, spec, pass, i, c);
      assert DemandOf(pass.log[i].stmt).privs == AsSet(pass.log[i].stmt.privs);
    }
  }

  lemma GivenWasGranted(user: string, spec: seq<DatabaseSpec>, pass: Pass, c: Cell, q: string)
    requires WellRouted(user, spec, pass) && |pass.log| == |pass.sorted| && c.grantee == user
    requires SucceedsOn(pass.log, c)
    ensures q in GivenBy(Deciding(pass.plan, c.place), c.place) ==> Granted(pass.log, c, q)
    ensures q in TakenBy(Deciding(pass.plan, c.place), c.place) ==> Revoked(pass.log, c, q)
  {
    var p, demands := c.place, Deciding(pass.plan, c.place);
    if q in GivenBy(demands, p) {
      var x :| x in demands && x.verb.Grant? && Covers(x.target, p.database, p) && q in Expand(p, x.privs);
      var i := DemandWasSent(user, spec, pass, x, c);
      assert Grants(pass.log[i], c, q);
    }
    if q in TakenBy(demands, p) {
      var x :| x in demands && x.verb.Revoke? && Covers(x.target, p.database, p) && q in Expand(p, x.privs);
      var i := DemandWasSent(user, spec, pass, x, c);
      assert Revokes(pass.log[i], c, q);
    }
  }

  /** A complete pass takes what its plan takes, then gives what its plan gives. */
  lemma CompleteValue(user: string, spec: seq<DatabaseSpec>, pass: Pass, c: Cell, v: set<string>)
    requires WellRouted(user, spec, pass) && |pass.log| == |pass.sorted| && c.grantee == user
    requires SucceedsOn(pass.log, c)
    ensures ValueAfter(v, c, pass.log)
      == (v - TakenBy(Deciding(pass.plan, c.place), c.place)) + GivenBy(Deciding(pass.plan, c.place), c.place)
  {
    var taken, given := TakenBy(Deciding(pass.plan, c.place), c.place), GivenBy(Deciding(pass.plan, c.place), c.place);
    LogRevokesFirst(user, spec, pass);
    forall q ensures q in ValueAfter(v, c, pass.log) <==> q in (v - taken) + given {
      RevokesFirstValue(v, c, pass.log, q);
      RoutedMeansNoStrays(pass.log, c, q);
      GrantedWasGiven(user, spec, pass, c, q);
      GivenWasGranted(user, spec, pass, c, q);
    }
  }

  /** A statement asking for `x` acted on the cell. */
  ghost predicate Reached(log: seq<Sent>, c: Cell, x: Demand) {
    exists i :: 0 <= i < |log| && DemandOf(log[i].stmt) == x && Hits(log[i].stmt, log[i].session, c)
  }

  /** When exactly some demands reach a cell, and all succeed, it ends as they take and give. */
  lemma ValueByDemands(c: Cell, log: seq<Sent>, demands: set<Demand>, v: set<string>)
    requires RevokesFirst(log) && SucceedsOn(log, c)
    requires forall i :: 0 <= i < |log| && Hits(log[i].stmt, log[i].session, c) ==>
      DemandOf(log[i].stmt) in demands && Covers(log[i].stmt.target, c.place.database, c.place)
    requires forall x :: x in demands && Covers(x.target, c.place.database, c.place) ==> Reached(log, c, x)
    ensures ValueAfter(v, c, log) == (v - TakenBy(demands, c.place)) + GivenBy(demands, c.place)
  {
    forall q ensures q in ValueAfter(v, c, log) <==> q in (v - TakenBy(demands, c.place)) + GivenBy(demands, c.place) {
      RevokesFirstValue(v, c, log, q);
      ReachedGives(c, log, demands, q);
    }
  }

  lemma ReachedGives(c: Cell, log: seq<Sent>, demands: set<Demand>, q: string)
    requires SucceedsOn(log, c)
    requires forall i :: 0 <= i < |log| && Hits(log[i].stmt, log[i].session, c) ==>
      DemandOf(log[i].stmt) in demands && Covers(log[i].stmt.target, c.place.database, c.place)
    requires forall x :: x in demands && Covers(x.target, c.place.database, c.place) ==> Reached(log, c, x)
    ensures Granted(log, c, q) <==> q in GivenBy(demands, c.place)
    ensures Revoked(log, c, q) <==> q in TakenBy(demands, c.place)
  {
    var p := c.place;
    if Granted(log, c, q) {
      var i :| 0 <= i < |log| && Grants(log[i], c, q);
      assert DemandOf(log[i].stmt).privs == AsSet(log[i].stmt.privs);
    }
    if Revoked(log, c, q) {
      var i :| 0 <= i < |log| && Revokes(log[i], c, q);
      assert DemandOf(log[i].stmt).privs == AsSet(log[i].stmt.privs);
    }
    if q in GivenBy(demands, p) {
      var x :| x in demands && x.verb.Grant? && Covers(x.target, p.database, p) && q in Expand(p, x.privs);
      var i :| 0 <= i < |log| && DemandOf(log[i].stmt) == x && Hits(log[i].stmt, log[i].session, c);
      assert Grants(log[i], c, q);
    }
    if q in TakenBy(demands, p) {
      var x :| x in demands && x.verb.Revoke? && Covers(x.target, p.database, p) && q in Expand(p, x.privs);
      var i :| 0 <= i < |log| && DemandOf(log[i].stmt) == x && Hits(log[i].stmt, log[i].session, c);
      assert Revokes(log[i], c, q);
    }
  }

  /**
   After any part of a pass, with any answers and any refused USEs, a cell stays below a bound that allows for
   what it held and what the plan gives it, if and only if every stray GRANT on it does.
   */
  lemma UpperExactly(user: string, spec: seq<DatabaseSpec>, pass: Pass, c: Cell, v: set<string>, bound: set<string>)
    requires WellPlanned(user, spec, pass)
    requires v <= bound && GivenBy(Deciding(pass.plan, c.place), c.place) <= bound
    ensures ValueAfter(v, c, pass.log) <= bound <==> forall q :: GrantedAstray(pass.log, c, q) ==> q in bound
  {
    LogRevokesFirst(user, spec, pass);
    forall q
      ensures q in ValueAfter(v, c, pass.log) ==> q in bound || GrantedAstray(pass.log, c, q)
      ensures GrantedAstray(pass.log, c, q) ==> q in ValueAfter(v, c, pass.log)
    {
      RevokesFirstValue(v, c, pass.log, q);
      GrantedWasGiven(user, spec, pass, c, q);
    }
  }

  /**
   It keeps a part of what it held that the plan does not take, if and only if what stray REVOKEs take of it is
   granted again.
   */
  lemma LowerExactly(user: string, spec: seq<DatabaseSpec>, pass: Pass, c: Cell, v: set<string>, safe: set<string>)
    requires WellPlanned(user, spec, pass)
    requires safe <= v - TakenBy(Deciding(pass.plan, c.place), c.place)
    ensures safe <= ValueAfter(v, c, pass.log) <==>
      forall q :: q in safe && RevokedAstray(pass.log, c, q) ==> Granted(pass.log, c, q)
  {
    LogRevokesFirst(user, spec, pass);
    forall q
      ensures q in safe && q !in ValueAfter(v, c, pass.log) ==>
        RevokedAstray(pass.log, c, q) && !Granted(pass.log, c, q)
      ensures RevokedAstray(pass.log, c, q) && !Granted(pass.log, c, q) ==> q !in ValueAfter(v, c, pass.log)
    {
      RevokesFirstValue(v, c, pass.log, q);
      GrantedWasGiven(user, spec, pass, c, q);
    }
  }

  /** A pass cut short or with refused statements stays between taking only and giving only. */
  lemma PartialValue(user: string, spec: seq<DatabaseSpec>, pass: Pass, c: Cell, v: set<string>)
    requires WellRouted(user, spec, pass)
    ensures v - TakenBy(Deciding(pass.plan, c.place), c.place) <= ValueAfter(v, c, pass.log)
    ensures ValueAfter(v, c, pass.log) <= v + GivenBy(Deciding(pass.plan, c.place), c.place)
  {
    var p, demands := c.place, Deciding(pass.plan, c.place);
    forall q { RoutedMeansNoStrays(pass.log, c, q); }
    UpperExactly(user, spec, pass, c, v, v + GivenBy(demands, p));
    LowerExactly(user, spec, pass, c, v, v - TakenBy(demands, p));
  }

  /**
   Once a GRANT was sent, all REVOKEs were: where those about the cell landed, nothing the plan takes is left,
   and the cell holds no more than the plan leaves and gives if and only if no stray GRANT gives more.
   */
  lemma GrantPhaseValue(user: string, spec: seq<DatabaseSpec>, pass: Pass, c: Cell, v: set<string>, g: nat)
    requires WellPlanned(user, spec, pass) && c.grantee == user && RevokesLand(pass.log, c)
    requires g < |pass.log| && pass.log[g].stmt.verb.Grant?
    ensures var bound :=
      (v - TakenBy(Deciding(pass.plan, c.place), c.place)) + GivenBy(Deciding(pass.plan, c.place), c.place);
      ValueAfter(v, c, pass.log) <= bound <==> forall q :: GrantedAstray(pass.log, c, q) ==> q in bound
  {
    LogRevokesFirst(user, spec, pass);
    var p, demands := c.place, Deciding(pass.plan, c.place);
    var bound := (v - TakenBy(demands, p)) + GivenBy(demands, p);
    forall q
      ensures q in ValueAfter(v, c, pass.log) ==> q in bound || GrantedAstray(pass.log, c, q)
      ensures GrantedAstray(pass.log, c, q) ==> q in ValueAfter(v, c, pass.log)
    {
      RevokesFirstValue(v, c, pass.log, q);
      GrantedWasGiven(user, spec, pass, c, q);
      TakenWasRevoked(user, spec, pass, c, g, q);
    }
  }

  lemma TakenWasRevoked(user: string, spec: seq<DatabaseSpec>, pass: Pass, c: Cell, g: nat, q: string)
    requires WellPlanned(user, spec, pass) && c.grantee == user && RevokesLand(pass.log, c)
    requires g < |pass.log| && pass.log[g].stmt.verb.Grant?
    ensures q in TakenBy(Deciding(pass.plan, c.place), c.place) ==> Revoked(pass.log, c, q)
  {
    var p, demands := c.place, Deciding(pass.plan, c.place);
    if q in TakenBy(demands, p) {
      var x :| x in demands && x.verb.Revoke? && Covers(x.target, p.database, p) && q in Expand(p, x.privs);
      var i := RevokeWasSent(user, spec, pass, x, c, g);
      LandedHits(pass.log[i], c);
      assert Revokes(pass.log[i], c, q);
    }
  }

  /** A statement about a cell that did not stray acts on it. */
  lemma LandedHits(e: Sent, c: Cell)
    requires SentAbout(e, c) && !Stray(e) && (e.target == "" ==> e.stmt.target.OnDatabase?)
    ensures Hits(e.stmt, e.session, c)
  {
  }

  lemma RevokeWasSent(user: string, spec: seq<DatabaseSpec>, pass: Pass, x: Demand, c: Cell, g: nat) returns (i: nat)
    requires WellPlanned(user, spec, pass) && c.grantee == user
    requires g < |pass.log| && pass.log[g].stmt.verb.Grant?
    requires x in Deciding(pass.plan, c.place) && Covers(x.target, c.place.database, c.place) && x.verb.Revoke?
    ensures i < |pass.log| && DemandOf(pass.log[i].stmt) == x && SentAbout(pass.log[i], c)
    ensures pass.log[i].target == "" ==> x.target.OnDatabase?
  {
    var d := RunOf(c.place);
    var s :| s in OwnGroup(pass.plan, d) && DemandOf(s) == x;
    PlannedFor(user, spec, pass.plan, pass.snap, d, s);
    Listed(user, spec, pass, s);
    i :| 0 <= i < |pass.sorted| && pass.sorted[i] == s;
    if g < i {
      SortedMeansRevokesFirst(pass.sorted, g, i);
    }
    PassLogShaped(user, spec, pass);
    SentWherePlanned(pass.plan, pass.log, i, d);
  }

  /** Other users' cells are never touched, by strays neither. */
  lemma OthersUntouched(user: string, spec: seq<DatabaseSpec>, pass: Pass, c: Cell, v: set<string>)
    requires IsPass(user, spec, pass) && c.grantee != user
    ensures ValueAfter(v, c, pass.log) == v
  {
    LogRevokesFirst(user, spec, pass);
    forall i | 0 <= i < |pass.log| ensures pass.log[i].stmt.user == user {
      assert pass.log[i].stmt == pass.sorted[i];
      Listed(user, spec, pass, pass.sorted[i]);
    }
    forall q ensures q in ValueAfter(v, c, pass.log) <==> q in v {
      RevokesFirstValue(v, c, pass.log, q);
    }
  }
}
