/**
 Plans and passes exist for every declaration and snapshot, and which declarations let two databases
 plan the same text. The plans built here are tidy, as the planner's are: they list privileges in
 order, and statements in one of the orders maps may yield them in.
 */
module Runs {
  import opened Strings
  import opened Sorting
  import opened Sql
  import opened Privileges
  import opened Diff
  import opened Planner
  import opened Server
  import opened Executor
  import opened Routing
  import opened Effect
  import opened Desired
  import opened Convergence
  import opened Wrappers

  // ---------- a plan ----------

  /** The members of a set, each once. */
  ghost function SeqOf<T(!new)>(s: set<T>): (xs: seq<T>)
    ensures Distinct(xs)
    ensures forall x :: x in xs <==> x in s
    decreases |s|
  {
    if s == {} then []
    else
      var x :| x in s;
      [x] + SeqOf(s - {x})
  }

  /** The members of a set of privileges in order. */
  ghost function InOrder(privs: set<string>): (xs: seq<string>)
    ensures Sorted(AtMost, xs) && Distinct(xs) && AsSet(xs) == privs
  {
    var xs := SeqOf(privs);
    AtMostIsTotal();
    SortSorted(AtMost, xs);
    SameElements(xs, Sort(AtMost, xs));
    assert AsSet(xs) == privs;
    Sort(AtMost, xs)
  }

  ghost function StmtFor(user: string, x: Demand): (s: Stmt)
    ensures DemandOf(s) == x && s.user == user
    ensures Sorted(AtMost, s.privs) && Distinct(s.privs)
    ensures x.privs != {} ==> s.privs != []
  {
    Stmt(x.verb, InOrder(x.privs), x.target, user)
  }

  ghost function StmtsFor(user: string, demands: set<Demand>): seq<Stmt> {
    var xs := SeqOf(demands);
    seq(|xs|, i requires 0 <= i < |xs| => StmtFor(user, xs[i]))
  }

  lemma StmtsForAsk(user: string, demands: set<Demand>)
    requires forall x :: x in demands ==> x.privs != {}
    ensures Demands(StmtsFor(user, demands)) == demands && AllFor(user, StmtsFor(user, demands))
    ensures forall x :: x in demands <==> StmtFor(user, x) in StmtsFor(user, demands)
  {
    var xs, stmts := SeqOf(demands), StmtsFor(user, demands);
    forall s | s in stmts ensures DemandOf(s) in demands && s.user == user && s.privs != [] {
      var i :| 0 <= i < |stmts| && stmts[i] == s;
      assert xs[i] in demands;
    }
    forall x | x in demands ensures StmtFor(user, x) in stmts && x in Demands(stmts) {
      var i :| 0 <= i < |xs| && xs[i] == x;
      assert stmts[i] == StmtFor(user, x);
    }
    forall x | StmtFor(user, x) in stmts ensures x in demands {
      assert DemandOf(StmtFor(user, x)) == x;
    }
  }

  lemma StmtsForMember(user: string, demands: set<Demand>, s: Stmt)
    requires s in StmtsFor(user, demands)
    ensures DemandOf(s) in demands && s == StmtFor(user, DemandOf(s))
  {
    var xs := SeqOf(demands);
    var i :| 0 <= i < |xs| && s == StmtFor(user, xs[i]);
    assert xs[i] in demands;
  }

  lemma StmtsForTidy(user: string, demands: set<Demand>)
    ensures NoRepeats(StmtsFor(user, demands)) && ObjectsInOrder(StmtsFor(user, demands))
  {
    var xs, stmts := SeqOf(demands), StmtsFor(user, demands);
    forall i, j | 0 <= i < j < |stmts| ensures DemandOf(stmts[i]) != DemandOf(stmts[j]) {
      assert DemandOf(stmts[i]) == xs[i] && DemandOf(stmts[j]) == xs[j];
    }
  }

  lemma DemandsAskSomething(spec: seq<DatabaseSpec>, snap: seq<DatabaseSnapshot>, x: Demand)
    ensures x in DatabaseDemands(spec, snap) + OrphanDatabaseDemands(spec, snap) ==> x.privs != {}
    ensures forall d :: x in GroupDemands(spec, snap, d) ==> x.privs != {}
  {
  }

  function DeclaredNames(spec: seq<DatabaseSpec>): set<string> {
    set e | e in spec :: e.name
  }

  ghost function PlanOf(user: string, spec: seq<DatabaseSpec>, snap: seq<DatabaseSnapshot>): Plan {
    Plan(StmtsFor(user, DatabaseDemands(spec, snap) + OrphanDatabaseDemands(spec, snap)),
         map d | d in DeclaredNames(spec) :: StmtsFor(user, GroupDemands(spec, snap, d)))
  }

  /** There is a plan, of the form the planner gives it. */
  lemma PlanExists(user: string, spec: seq<DatabaseSpec>, snap: seq<DatabaseSnapshot>)
    ensures IsPlan(user, spec, snap, PlanOf(user, spec, snap)) && IsTidy(spec, PlanOf(user, spec, snap))
  {
    forall demands { StmtsForTidy(user, demands); }
    var plan := PlanOf(user, spec, snap);
    forall x { DemandsAskSomething(spec, snap, x); }
    StmtsForAsk(user, DatabaseDemands(spec, snap) + OrphanDatabaseDemands(spec, snap));
    assert forall d :: d in DeclaredNames(spec) <==> DeclaresDatabase(spec, d);
    forall d | d in plan.groups
      ensures AllFor(user, plan.groups[d]) && Demands(plan.groups[d]) == GroupDemands(spec, snap, d)
    {
      StmtsForAsk(user, GroupDemands(spec, snap, d));
    }
  }

  lemma PlannedInGroup(user: string, spec: seq<DatabaseSpec>, snap: seq<DatabaseSnapshot>, d: string, x: Demand)
    requires DeclaresDatabase(spec, d) && x in GroupDemands(spec, snap, d)
    ensures d in PlanOf(user, spec, snap).groups && StmtFor(user, x) in PlanOf(user, spec, snap).groups[d]
  {
    forall y { DemandsAskSomething(spec, snap, y); }
    StmtsForAsk(user, GroupDemands(spec, snap, d));
    assert d in DeclaredNames(spec);
  }

  // ---------- shared texts, exactly ----------

  /** No two databases are asked for the same thing. */
  ghost predicate DisjointDemands(spec: seq<DatabaseSpec>, snap: seq<DatabaseSnapshot>) {
    forall d, e :: d != e ==> GroupDemands(spec, snap, d) !! GroupDemands(spec, snap, e)
  }

  lemma DemandOfDatabase(spec: seq<DatabaseSpec>, snap: seq<DatabaseSnapshot>, d: string, x: Demand)
    requires x in GroupDemands(spec, snap, d)
    ensures DeclaresDatabase(spec, d) && d in DeclaredNames(spec)
  {
  }

  lemma SharedDemandSharesText(user: string, spec: seq<DatabaseSpec>, snap: seq<DatabaseSnapshot>, d: string, e: string,
                               x: Demand)
    requires d != e && x in GroupDemands(spec, snap, d) && x in GroupDemands(spec, snap, e)
    ensures !DisjointTexts(PlanOf(user, spec, snap).groups)
  {
    var groups := PlanOf(user, spec, snap).groups;
    DemandOfDatabase(spec, snap, d, x);
    DemandOfDatabase(spec, snap, e, x);
    PlannedInGroup(user, spec, snap, d, x);
    PlannedInGroup(user, spec, snap, e, x);
    assert HasText(groups[e], StmtFor(user, x));
  }

  lemma SharedTextSharesDemand(user: string, spec: seq<DatabaseSpec>, snap: seq<DatabaseSnapshot>, plan: Plan,
                               d: string, e: string, s: Stmt)
    requires IsPlan(user, spec, snap, plan) && PlanShaped(plan)
    requires d in plan.groups && e in plan.groups && s in plan.groups[d] && HasText(plan.groups[e], s)
    ensures DemandOf(s) in GroupDemands(spec, snap, d) && DemandOf(s) in GroupDemands(spec, snap, e)
  {
    TextIsMember(plan, e, s);
    assert DemandOf(s) in Demands(plan.groups[d]) && DemandOf(s) in Demands(plan.groups[e]);
  }

  /**
   Every plan of the planner's form keeps the texts of different databases apart if and only if no two databases
   are asked for the same thing: a condition on the declaration and the snapshot alone.
   */
  lemma TextsDisjointExactly(user: string, spec: seq<DatabaseSpec>, snap: seq<DatabaseSnapshot>, cells: Cells)
    requires WordsDeclared(spec) && WellTyped(cells) && Faithful(user, snap, cells)
    ensures (forall plan :: IsPlan(user, spec, snap, plan) && IsTidy(spec, plan) ==> DisjointTexts(plan.groups)) <==>
      DisjointDemands(spec, snap)
  {
    if DisjointDemands(spec, snap) {
      forall plan | IsPlan(user, spec, snap, plan) && IsTidy(spec, plan) ensures DisjointTexts(plan.groups) {
        PlanIsShaped(user, spec, snap, plan, cells);
        forall d, e, s | d in plan.groups && e in plan.groups && d != e && s in plan.groups[d]
          ensures !HasText(plan.groups[e], s)
        {
          if HasText(plan.groups[e], s) {
            SharedTextSharesDemand(user, spec, snap, plan, d, e, s);
          }
        }
      }
    } else {
      var d, e :| d != e && !(GroupDemands(spec, snap, d) !! GroupDemands(spec, snap, e));
      var x :| x in GroupDemands(spec, snap, d) && x in GroupDemands(spec, snap, e);
      PlanExists(user, spec, snap);
      SharedDemandSharesText(user, spec, snap, d, e, x);
    }
  }

  // ---------- a pass ----------

  /** A pass in an environment, with the lookup preferring `e`. */
  ghost function PassIn(user: string, spec: seq<DatabaseSpec>, snap: seq<DatabaseSnapshot>, cells: Cells, start: string,
                        env: seq<Turn>, e: string): Pass
  {
    var plan := PlanOf(user, spec, snap);
    var order := SeqOf(plan.groups.Keys);
    var sorted := Sort(AtOrBefore, plan.globals + Flatten(plan.groups, order));
    Pass(cells, snap, plan, order, sorted, Sending(plan.groups, e, start, env, sorted))
  }

  /** The executor can make it. */
  lemma PassInExists(user: string, spec: seq<DatabaseSpec>, snap: seq<DatabaseSnapshot>, cells: Cells, start: string,
                     env: seq<Turn>, e: string)
    ensures var pass := PassIn(user, spec, snap, cells, start, env, e);
      && IsPass(user, spec, pass) && IsTidy(spec, pass.plan) && |pass.log| == |pass.sorted|
      && GoodLog(pass.plan.groups, pass.sorted, start, env, pass.log)
  {
    var pass := PassIn(user, spec, snap, cells, start, env, e);
    PlanExists(user, spec, snap);
    OrderEnumerates(pass.plan.groups);
    SortedExists(pass.plan.globals + Flatten(pass.plan.groups, pass.order));
    SendingIsRun(pass.plan.groups, e, start, env, pass.sorted);
  }

  /** A pass in which every USE and every statement succeeds. */
  ghost function PassOf(user: string, spec: seq<DatabaseSpec>, snap: seq<DatabaseSnapshot>, cells: Cells, start: string,
                        e: string): Pass
  {
    PassIn(user, spec, snap, cells, start, [], e)
  }

  lemma PassExists(user: string, spec: seq<DatabaseSpec>, snap: seq<DatabaseSnapshot>, cells: Cells, start: string,
                   e: string)
    ensures var pass := PassOf(user, spec, snap, cells, start, e);
      && IsPass(user, spec, pass) && IsTidy(spec, pass.plan) && Completed(pass) && Routed(pass.log)
      && GoodLog(pass.plan.groups, pass.sorted, start, [], pass.log)
      && (forall i :: 0 <= i < |pass.log| ==> pass.log[i].reply.Done?)
      && forall c :: CompleteOn(pass, c)
  {
    var pass := PassOf(user, spec, snap, cells, start, e);
    PassInExists(user, spec, snap, cells, start, [], e);
    SendingSucceeds(pass.plan.groups, e, start, pass.sorted);
  }

  lemma OrderEnumerates(groups: map<string, seq<Stmt>>)
    ensures Enumerates(SeqOf(groups.Keys), groups.Keys) && forall d :: d in SeqOf(groups.Keys) ==> d in groups
  {
  }

  lemma SortedExists(all: seq<Stmt>)
    ensures Sorted(AtOrBefore, Sort(AtOrBefore, all)) && multiset(Sort(AtOrBefore, all)) == multiset(all)
  {
    AtOrBeforeIsTotal();
    SortSorted(AtOrBefore, all);
  }

  lemma SendingSucceeds(groups: map<string, seq<Stmt>>, e: string, start: string, stmts: seq<Stmt>)
    ensures var log := Sending(groups, e, start, [], stmts);
      && GoodLog(groups, stmts, start, [], log) && Routed(log) && NoneFatal(log)
      && forall i :: 0 <= i < |log| ==> log[i].reply.Done?
  {
    SendingIsRun(groups, e, start, [], stmts);
    AcceptedMeansRouted(start, [], Sending(groups, e, start, [], stmts));
  }

  /** Where texts are disjoint, such a pass is a sound one: the hypotheses of the convergence results can be met. */
  lemma SoundPassExists(user: string, spec: seq<DatabaseSpec>, snap: seq<DatabaseSnapshot>, cells: Cells,
                        start: string, e: string)
    requires DistinctNames(spec) && WordsDeclared(spec) && WellTyped(cells) && Faithful(user, snap, cells)
    requires !DeclaresDatabase(spec, "") && DisjointDemands(spec, snap)
    ensures SoundPass(user, spec, PassOf(user, spec, snap, cells, start, e))
  {
    PassExists(user, spec, snap, cells, start, e);
    TextsDisjointExactly(user, spec, snap, cells);
  }

  // ---------- a misrouted pass ----------

  /** What is asked of `d` and not of `e`. */
  function AskedOnlyOf(spec: seq<DatabaseSpec>, snap: seq<DatabaseSnapshot>, d: string, e: string): set<Demand> {
    GroupDemands(spec, snap, d) - GroupDemands(spec, snap, e)
  }

  /** Two databases of a plan, and nothing asked only of the first is asked of a third. */
  ghost predicate Rivals(spec: seq<DatabaseSpec>, snap: seq<DatabaseSnapshot>, d: string, e: string) {
    && DeclaresDatabase(spec, d) && DeclaresDatabase(spec, e) && d != e && !DeclaresDatabase(spec, "")
    && forall g :: g != d && g != e ==> AskedOnlyOf(spec, snap, d, e) !! GroupDemands(spec, snap, g)
  }

  lemma PlannedOfDemand(user: string, spec: seq<DatabaseSpec>, snap: seq<DatabaseSnapshot>, d: string, s: Stmt)
    requires d in PlanOf(user, spec, snap).groups && s in PlanOf(user, spec, snap).groups[d]
    ensures DemandOf(s) in GroupDemands(spec, snap, d) && s == StmtFor(user, DemandOf(s))
  {
    StmtsForMember(user, GroupDemands(spec, snap, d), s);
  }

  /** Where the lookup that prefers `e` sends what `d` planned: to `d` exactly if `e` did not plan it as well. */
  lemma PreferredOwner(user: string, spec: seq<DatabaseSpec>, snap: seq<DatabaseSnapshot>, d: string, e: string,
                       g: string, s: Stmt)
    requires PlanShaped(PlanOf(user, spec, snap)) && Rivals(spec, snap, d, e)
    requires g in PlanOf(user, spec, snap).groups && s in PlanOf(user, spec, snap).groups[g]
    ensures Owner(PlanOf(user, spec, snap).groups, e, s) != ""
    ensures Owner(PlanOf(user, spec, snap).groups, e, s) == d <==> DemandOf(s) in AskedOnlyOf(spec, snap, d, e)
  {
    var plan, x := PlanOf(user, spec, snap), DemandOf(s);
    var target := Owner(plan.groups, e, s);
    PlannedOfDemand(user, spec, snap, g, s);
    assert g in DeclaredNames(spec) && e in DeclaredNames(spec) && "" !in DeclaredNames(spec);
    assert HasText(plan.groups[g], s);
    TextIsMember(plan, e, s);
    TextIsMember(plan, target, s);
    PlannedOfDemand(user, spec, snap, target, s);
    if x in GroupDemands(spec, snap, e) {
      PlannedInGroup(user, spec, snap, e, x);
    }
    if s in plan.groups[e] {
      PlannedOfDemand(user, spec, snap, e, s);
    }
  }

  lemma PreferredHits(user: string, spec: seq<DatabaseSpec>, pass: Pass, d: string, e: string, i: nat, c: Cell)
    requires IsPass(user, spec, pass) && pass.plan == PlanOf(user, spec, pass.snap) && PlanShaped(pass.plan)
    requires Routed(pass.log) && Rivals(spec, pass.snap, d, e) && i < |pass.log|
    requires pass.log[i].target == Owner(pass.plan.groups, e, pass.sorted[i])
    requires !c.place.DatabasePlace? && c.place.database == d && Hits(pass.log[i].stmt, pass.log[i].session, c)
    ensures DemandOf(pass.log[i].stmt) in AskedOnlyOf(spec, pass.snap, d, e)
    ensures Covers(pass.log[i].stmt.target, d, c.place)
  {
    var s := pass.sorted[i];
    assert pass.log[i].stmt == s && !Stray(pass.log[i]);
    Listed(user, spec, pass, s);
    if s !in pass.plan.globals {
      var g :| g in pass.plan.groups && s in pass.plan.groups[g];
      PreferredOwner(user, spec, pass.snap, d, e, g, s);
    }
  }

  lemma PreferredStatement(user: string, spec: seq<DatabaseSpec>, snap: seq<DatabaseSnapshot>, d: string, e: string,
                           x: Demand)
    requires IsPlan(user, spec, snap, PlanOf(user, spec, snap)) && PlanShaped(PlanOf(user, spec, snap))
    requires Rivals(spec, snap, d, e) && x in AskedOnlyOf(spec, snap, d, e)
    ensures var plan, s := PlanOf(user, spec, snap), StmtFor(user, x);
      d in plan.groups && s in plan.groups[d] && DemandOf(s) == x && s.user == user && Owner(plan.groups, e, s) == d
  {
    PlannedInGroup(user, spec, snap, d, x);
    PreferredOwner(user, spec, snap, d, e, d, StmtFor(user, x));
  }

  lemma SentAt(user: string, spec: seq<DatabaseSpec>, pass: Pass, d: string, s: Stmt) returns (i: nat)
    requires IsPass(user, spec, pass) && |pass.log| == |pass.sorted|
    requires d in pass.plan.groups && s in pass.plan.groups[d]
    ensures i < |pass.log| && pass.log[i].stmt == s && pass.sorted[i] == s
  {
    Listed(user, spec, pass, s);
    i :| 0 <= i < |pass.sorted| && pass.sorted[i] == s;
    assert pass.log[i].stmt == s;
  }

  lemma HitsHere(log: seq<Sent>, i: nat, d: string, c: Cell)
    requires i < |log| && log[i].target == d != "" && !Stray(log[i]) && log[i].stmt.user == c.grantee
    requires !c.place.DatabasePlace? && Covers(log[i].stmt.target, d, c.place)
    ensures Reached(log, c, DemandOf(log[i].stmt))
  {
  }

  lemma PreferredReaches(user: string, spec: seq<DatabaseSpec>, pass: Pass, d: string, e: string, x: Demand, c: Cell)
    requires IsPass(user, spec, pass) && pass.plan == PlanOf(user, spec, pass.snap) && PlanShaped(pass.plan)
    requires Routed(pass.log) && Rivals(spec, pass.snap, d, e) && |pass.log| == |pass.sorted|
    requires forall i :: 0 <= i < |pass.log| ==> pass.log[i].target == Owner(pass.plan.groups, e, pass.sorted[i])
    requires !c.place.DatabasePlace? && c.place.database == d && c.grantee == user
    requires x in AskedOnlyOf(spec, pass.snap, d, e) && Covers(x.target, d, c.place)
    ensures Reached(pass.log, c, x)
  {
    var s := StmtFor(user, x);
    PreferredStatement(user, spec, pass.snap, d, e, x);
    var i := SentAt(user, spec, pass, d, s);
    assert pass.log[i].target == Owner(pass.plan.groups, e, pass.sorted[i]);
    HitsHere(pass.log, i, d, c);
  }

  /**
   In the all-successful pass whose lookup prefers `e`, the cells inside `d` get what is asked of `d` and not of `e`,
   and nothing of what is asked of both.
   */
  lemma SharedDemandsMiss(user: string, spec: seq<DatabaseSpec>, snap: seq<DatabaseSnapshot>, cells: Cells,
                          start: string, d: string, e: string, c: Cell)
    requires WordsDeclared(spec) && WellTyped(cells) && Faithful(user, snap, cells) && Rivals(spec, snap, d, e)
    requires c in cells && c.grantee == user && !c.place.DatabasePlace? && c.place.database == d
    ensures var pass, only := PassOf(user, spec, snap, cells, start, e), AskedOnlyOf(spec, snap, d, e);
      c in pass.After() && pass.After()[c] == (cells[c] - TakenBy(only, c.place)) + GivenBy(only, c.place)
  {
    var pass, only := PassOf(user, spec, snap, cells, start, e), AskedOnlyOf(spec, snap, d, e);
    PassExists(user, spec, snap, cells, start, e);
    PlanIsShaped(user, spec, snap, pass.plan, cells);
    SendingIsRun(pass.plan.groups, e, start, [], pass.sorted);
    forall i | 0 <= i < |pass.log| && Hits(pass.log[i].stmt, pass.log[i].session, c)
      ensures DemandOf(pass.log[i].stmt) in only && Covers(pass.log[i].stmt.target, c.place.database, c.place)
    {
      PreferredHits(user, spec, pass, d, e, i, c);
    }
    forall x | x in only && Covers(x.target, c.place.database, c.place) ensures Reached(pass.log, c, x) {
      PreferredReaches(user, spec, pass, d, e, x, c);
    }
    LogRevokesFirst(user, spec, pass);
    ValueByDemands(c, pass.log, only, cells[c]);
    ReplayPerCell(pass.before, pass.log);
  }

  /**
   When everything asked of `d` is also asked of `e`, there is a pass in which every statement and every
   USE succeeds and nothing inside `d` changes.
   */
  lemma ShadowedDatabaseIsSkipped(user: string, spec: seq<DatabaseSpec>, snap: seq<DatabaseSnapshot>, cells: Cells,
                                  start: string, d: string, e: string, c: Cell)
    requires WordsDeclared(spec) && WellTyped(cells) && Faithful(user, snap, cells) && !DeclaresDatabase(spec, "")
    requires DeclaresDatabase(spec, d) && DeclaresDatabase(spec, e) && d != e
    requires GroupDemands(spec, snap, d) <= GroupDemands(spec, snap, e)
    requires c in cells && !c.place.DatabasePlace? && c.place.database == d
    ensures var pass := PassOf(user, spec, snap, cells, start, e);
      && IsPass(user, spec, pass) && IsTidy(spec, pass.plan) && Completed(pass) && Routed(pass.log)
      && GoodLog(pass.plan.groups, pass.sorted, start, [], pass.log)
      && (forall i :: 0 <= i < |pass.log| ==> pass.log[i].reply.Done?)
      && c in pass.After() && pass.After()[c] == cells[c]
  {
    PassExists(user, spec, snap, cells, start, e);
    if c.grantee == user {
      NothingOnlyOf(user, spec, snap, cells, start, d, e, c);
    } else {
      OthersStay(user, spec, PassOf(user, spec, snap, cells, start, e), c);
    }
  }

  lemma NothingOnlyOf(user: string, spec: seq<DatabaseSpec>, snap: seq<DatabaseSnapshot>, cells: Cells, start: string,
                      d: string, e: string, c: Cell)
    requires WordsDeclared(spec) && WellTyped(cells) && Faithful(user, snap, cells) && Rivals(spec, snap, d, e)
    requires AskedOnlyOf(spec, snap, d, e) == {}
    requires c in cells && c.grantee == user && !c.place.DatabasePlace? && c.place.database == d
    ensures var pass := PassOf(user, spec, snap, cells, start, e); c in pass.After() && pass.After()[c] == cells[c]
  {
    SharedDemandsMiss(user, spec, snap, cells, start, d, e, c);
    assert TakenBy({}, c.place) == {} && GivenBy({}, c.place) == {};
  }

  lemma OthersStay(user: string, spec: seq<DatabaseSpec>, pass: Pass, c: Cell)
    requires IsPass(user, spec, pass) && c.grantee != user && c in pass.before
    ensures c in pass.After() && pass.After()[c] == pass.before[c]
  {
    ReplayPerCell(pass.before, pass.log);
    OthersUntouched(user, spec, pass, c, pass.before[c]);
  }

  // ---------- two databases with the same declaration ----------

  /** A schema with a table, declared alike in two databases. */
  const TWIN_SCHEMA: SchemaSpec :=
    SchemaSpec("public", ["USAGE"], false, Listing([ObjectSpec("t", ["SELECT"], false)], [], [], [], [], [], []))

  const TWIN_SPEC: seq<DatabaseSpec> :=
    [DatabaseSpec("d", ["CONNECT"], false, [TWIN_SCHEMA]), DatabaseSpec("e", ["CONNECT"], false, [TWIN_SCHEMA])]

  const TWIN_TABLE: Place := ObjectPlace("d", Table, "public", "t")

  /** The user holds nothing yet. */
  const TWIN_CELLS: Cells :=
    map[Cell("u", DatabasePlace("d")) := {}, Cell("u", SchemaPlace("d", "public")) := {}, Cell("u", TWIN_TABLE) := {},
        Cell("u", DatabasePlace("e")) := {}, Cell("u", SchemaPlace("e", "public")) := {},
        Cell("u", ObjectPlace("e", Table, "public", "t")) := {}]

  lemma TwinWords()
    ensures DistinctNames(TWIN_SPEC) && WordsDeclared(TWIN_SPEC)
    ensures DeclaresDatabase(TWIN_SPEC, "d") && DeclaresDatabase(TWIN_SPEC, "e") && !DeclaresDatabase(TWIN_SPEC, "")
  {
    assert TWIN_SPEC[0] in TWIN_SPEC && TWIN_SPEC[1] in TWIN_SPEC;
    assert forall e :: e in TWIN_SPEC ==> e.privileges == ["CONNECT"] && e.schemas == [TWIN_SCHEMA];
    assert forall k, o :: o in TWIN_SCHEMA.objects.Of(k) ==> o.privileges == ["SELECT"];
    assert "CONNECT" in Universe(DatabasePlace("d")) && "USAGE" in Universe(SchemaPlace("d", "public"));
    assert "SELECT" in Universe(TWIN_TABLE);
    UniverseWords(DatabasePlace("d"));
    UniverseWords(SchemaPlace("d", "public"));
    UniverseWords(TWIN_TABLE);
  }

  lemma TwinCells()
    ensures WellTyped(TWIN_CELLS) && Faithful("u", [], TWIN_CELLS)
  {
    assert forall c :: c in TWIN_CELLS ==> TWIN_CELLS[c] == {};
    assert forall d :: DatabaseNamed([], d).None?;
  }

  lemma TwinDemands()
    ensures GroupDemands(TWIN_SPEC, [], "d") == GroupDemands(TWIN_SPEC, [], "e")
  {
    var x, y := TWIN_SPEC[0], TWIN_SPEC[1];
    assert x in TWIN_SPEC && y in TWIN_SPEC;
    assert forall e :: e in TWIN_SPEC ==> e == x || e == y;
    assert DatabaseNamed([], "d") == DatabaseNamed([], "e");
    assert GroupDemands(TWIN_SPEC, [], "d") == SchemasDemands([TWIN_SCHEMA], DatabaseNamed([], "d"));
    assert GroupDemands(TWIN_SPEC, [], "e") == SchemasDemands([TWIN_SCHEMA], DatabaseNamed([], "e"));
  }

  lemma TwinGoal()
    ensures Goal(TWIN_SPEC, [], TWIN_TABLE, {}) == {"SELECT"}
  {
    var t := ObjectSpec("t", ["SELECT"], false);
    assert DeclaredSchema(TWIN_SPEC, "d", "public") == Some(TWIN_SCHEMA);
    assert TWIN_SCHEMA.objects.Of(Table) == [t];
    assert ObjectEntry([t], "t") == Some(t) && ObjectEntry([t], "*") == ObjectEntry([t][1..], "*");
    assert AsSet(["SELECT"]) == {"SELECT"};
  }

  /**
   Two databases with the same declaration: an all-successful pass grants `t` in one of them only, although
   the declaration asks for it in both.
   */
  lemma TwinDatabasesMisroute(start: string)
    ensures var pass, c := PassOf("u", TWIN_SPEC, [], TWIN_CELLS, start, "e"), Cell("u", TWIN_TABLE);
      && IsPass("u", TWIN_SPEC, pass) && IsTidy(TWIN_SPEC, pass.plan) && Completed(pass) && Routed(pass.log)
      && GoodLog(pass.plan.groups, pass.sorted, start, [], pass.log)
      && (forall i :: 0 <= i < |pass.log| ==> pass.log[i].reply.Done?)
      && c in pass.After() && pass.After()[c] == {}
    ensures Goal(TWIN_SPEC, [], TWIN_TABLE, {}) == {"SELECT"}
  {
    var c := Cell("u", TWIN_TABLE);
    TwinWords();
    TwinCells();
    TwinDemands();
    assert c in TWIN_CELLS && TWIN_CELLS[c] == {};
    ShadowedDatabaseIsSkipped("u", TWIN_SPEC, [], TWIN_CELLS, start, "d", "e", c);
    TwinGoal();
  }
}
