/**
 Which database each statement of the global list really runs in. The executor looks a
 statement's database up by its text, so everything here rests on texts being unique to
 one group.
 */
module Routing {
  import opened Sorting
  import opened Sql
  import opened Privileges
  import opened Planner
  import opened Server
  import opened Executor

  /** Every group belongs to a named database; "" would read as "no database". */
  ghost predicate Named(groups: map<string, seq<Stmt>>) {
    "" !in groups
  }

  /** No two databases plan the same text. */
  ghost predicate DisjointTexts(groups: map<string, seq<Stmt>>) {
    forall d, e, s :: d in groups && e in groups && d != e && s in groups[d] ==> !HasText(groups[e], s)
  }

  /** All statements have decodable texts; database-level ones are exactly the global ones. */
  ghost predicate PlanShaped(plan: Plan) {
    && (forall s :: s in plan.globals ==> WellFormed(s) && s.target.OnDatabase?)
    && (forall d, s :: d in plan.groups && s in plan.groups[d] ==> WellFormed(s) && !s.target.OnDatabase?)
  }

  ghost predicate Routable(plan: Plan) {
    PlanShaped(plan) && Named(plan.groups) && DisjointTexts(plan.groups)
  }

  lemma {:induction false} InFlatten(groups: map<string, seq<Stmt>>, order: seq<string>, s: Stmt)
    requires forall d <- order :: d in groups
    ensures s in Flatten(groups, order) <==> exists d :: d in order && s in groups[d]
  {
    if order != [] {
      var front, last := order[..|order| - 1], order[|order| - 1];
      InFlatten(groups, front, s);
      assert order == front + [last];
      assert s in Flatten(groups, order) <==> s in Flatten(groups, front) || s in groups[last];
      if s in groups[last] { assert last in order; }
    }
  }

  /** A listed statement is global or some group's, and nothing else is listed. */
  lemma Listed(user: string, spec: seq<DatabaseSpec>, pass: Pass, s: Stmt)
    requires IsPass(user, spec, pass)
    ensures s in pass.sorted <==>
      s in pass.plan.globals || exists d :: d in pass.plan.groups && s in pass.plan.groups[d]
  {
    var flat := Flatten(pass.plan.groups, pass.order);
    InFlatten(pass.plan.groups, pass.order, s);
    assert s in pass.sorted <==> s in multiset(pass.sorted);
    assert s in pass.plan.globals + flat <==> s in multiset(pass.plan.globals + flat);
    assert forall d :: d in pass.order <==> d in AsSet(pass.order);
  }

  /** A text found in a shaped group is the text of a member of that group. */
  lemma TextIsMember(plan: Plan, d: string, s: Stmt)
    requires PlanShaped(plan) && d in plan.groups && WellFormed(s)
    ensures HasText(plan.groups[d], s) <==> s in plan.groups[d]
  {
    if HasText(plan.groups[d], s) {
      var t :| t in plan.groups[d] && Text(t) == Text(s);
      TextInjective(t, s);
    }
  }

  /** No database-level text is the text of a statement about a schema or its objects. */
  lemma DatabaseTextsApart(a: Stmt, b: Stmt)
    requires WellFormed(a) && WellFormed(b) && a.target.OnDatabase? && !b.target.OnDatabase?
    ensures Text(a) != Text(b)
  {
    if Text(a) == Text(b) {
      TextInjective(a, b);
    }
  }

  /** The executor's lookup finds the planning database, and nothing for a database-level statement. */
  lemma OwnerIsPlanner(plan: Plan, s: Stmt, target: string)
    requires Routable(plan) && WellFormed(s) && IsOwner(plan.groups, s, target)
    ensures forall d :: d in plan.groups && s in plan.groups[d] ==> target == d
    ensures target != "" ==> s in plan.groups[target]
    ensures s in plan.globals ==> target == ""
  {
    if target != "" {
      TextIsMember(plan, target, s);
    }
    forall d | d in plan.groups && s in plan.groups[d] ensures target == d {
      TextIsMember(plan, d, s);
    }
  }

  // ---------- the interleaved run against each database's own run ----------

  /** The part of a log that was sent for one database ("" for none). */
  function SentFor(log: seq<Sent>, d: string): seq<Sent> {
    if log == [] then []
    else
      var last := log[|log| - 1];
      SentFor(log[..|log| - 1], d) + if last.target == d then [last] else []
  }

  function Stmts(log: seq<Sent>): seq<Stmt> {
    seq(|log|, i requires 0 <= i < |log| => log[i].stmt)
  }

  lemma StmtsSnoc(log: seq<Sent>, e: Sent)
    ensures Stmts(log + [e]) == Stmts(log) + [e.stmt]
  {
  }

  lemma {:induction false} SentForMembers(log: seq<Sent>, d: string)
    ensures forall e :: e in SentFor(log, d) <==> e in log && e.target == d
  {
    if log != [] {
      var front := log[..|log| - 1];
      SentForMembers(front, d);
      assert log == front + [log[|log| - 1]];
    }
  }

  /** A statement always sent for `d` occurs as often in d's part as in the log. */
  lemma {:induction false} SentForCount(log: seq<Sent>, d: string, s: Stmt)
    requires forall e :: e in log && e.stmt == s ==> e.target == d
    ensures multiset(Stmts(SentFor(log, d)))[s] == multiset(Stmts(log))[s]
  {
    if log != [] {
      var front, last := log[..|log| - 1], log[|log| - 1];
      assert log == front + [last];
      assert forall e :: e in front ==> e in log;
      SentForCount(front, d, s);
      StmtsSnoc(front, last);
      StmtsSnoc(SentFor(front, d), last);
      assert multiset(Stmts(front) + [last.stmt]) == multiset(Stmts(front)) + multiset{last.stmt};
      assert multiset(Stmts(SentFor(front, d)) + [last.stmt])
        == multiset(Stmts(SentFor(front, d))) + multiset{last.stmt};
      if last.target != d {
        assert SentFor(log, d) == SentFor(front, d);
        assert last.stmt != s;
      }
    }
  }

  lemma {:induction false} SentForSorted(le: (Stmt, Stmt) -> bool, log: seq<Sent>, d: string)
    requires Sorted(le, Stmts(log))
    ensures Sorted(le, Stmts(SentFor(log, d)))
  {
    if log != [] {
      var front, last := log[..|log| - 1], log[|log| - 1];
      assert log == front + [last];
      StmtsSnoc(front, last);
      assert forall i :: 0 <= i < |front| ==> Stmts(log)[i] == Stmts(front)[i];
      SentForSorted(le, front, d);
      SentForMembers(front, d);
      var part := SentFor(front, d);
      StmtsSnoc(part, last);
      forall i | 0 <= i < |part| ensures le(part[i].stmt, last.stmt) {
        assert part[i] in part;
        var j :| 0 <= j < |front| && front[j] == part[i];
        assert Stmts(log)[j] == part[i].stmt && Stmts(log)[|front|] == last.stmt;
      }
      assert SentFor(log, d) == part + if last.target == d then [last] else [];
      forall i, j | 0 <= i < j < |SentFor(log, d)| ensures le(SentFor(log, d)[i].stmt, SentFor(log, d)[j].stmt) {
        if j < |part| { assert le(Stmts(part)[i], Stmts(part)[j]); }
      }
    }
  }

  lemma {:induction false} FlattenCount(groups: map<string, seq<Stmt>>, order: seq<string>, d: string, s: Stmt)
    requires Distinct(order) && forall e <- order :: e in groups
    requires forall e :: e in order && e != d ==> s !in groups[e]
    ensures multiset(Flatten(groups, order))[s] == if d in order then multiset(groups[d])[s] else 0
  {
    if order != [] {
      var front, last := order[..|order| - 1], order[|order| - 1];
      assert order == front + [last];
      assert last !in front;
      FlattenCount(groups, front, d, s);
      assert multiset(Flatten(groups, order)) == multiset(Flatten(groups, front)) + multiset(groups[last]);
      if last != d { assert last in order && s !in groups[last]; assert s !in multiset(groups[last]); }
    }
  }

  lemma StmtsFollow(groups: map<string, seq<Stmt>>, sorted: seq<Stmt>, log: seq<Sent>)
    requires Follows(groups, sorted, log) && |log| == |sorted|
    ensures Stmts(log) == sorted
  {
  }

  function OwnGroup(plan: Plan, d: string): seq<Stmt> {
    if d == "" then plan.globals else if d in plan.groups then plan.groups[d] else []
  }

  /** What a database's own sorted run would send. */
  function OwnStatements(plan: Plan, d: string): seq<Stmt> {
    Sort(AtOrBefore, OwnGroup(plan, d))
  }

  /** Every sent statement is planned, decodable, and sent for a database that planned its text. */
  ghost predicate LogShaped(plan: Plan, log: seq<Sent>) {
    forall i :: 0 <= i < |log| ==>
      && WellFormed(log[i].stmt)
      && IsOwner(plan.groups, log[i].stmt, log[i].target)
      && (log[i].stmt in plan.globals || exists d :: d in plan.groups && log[i].stmt in plan.groups[d])
  }

  lemma PassLogShaped(user: string, spec: seq<DatabaseSpec>, pass: Pass)
    requires IsPass(user, spec, pass) && PlanShaped(pass.plan)
    ensures LogShaped(pass.plan, pass.log)
  {
    forall i | 0 <= i < |pass.log|
      ensures WellFormed(pass.log[i].stmt)
      ensures pass.log[i].stmt in pass.plan.globals
        || exists d :: d in pass.plan.groups && pass.log[i].stmt in pass.plan.groups[d]
    {
      assert pass.log[i].stmt == pass.sorted[i];
      Listed(user, spec, pass, pass.sorted[i]);
    }
  }

  /** In a shaped log a statement goes to `d` exactly when `d` planned it. */
  lemma SentWherePlanned(plan: Plan, log: seq<Sent>, i: nat, d: string)
    requires Routable(plan) && LogShaped(plan, log) && i < |log|
    ensures log[i].stmt in OwnGroup(plan, d) <==> log[i].target == d
  {
    OwnerIsPlanner(plan, log[i].stmt, log[i].target);
    if log[i].stmt in plan.globals && d in plan.groups {
      assert log[i].stmt !in plan.groups[d];
    }
  }

  /** A statement of `d`'s group is listed as often as the group has it. */
  lemma OwnCount(user: string, spec: seq<DatabaseSpec>, pass: Pass, d: string, s: Stmt)
    requires IsPass(user, spec, pass) && Routable(pass.plan)
    requires s in OwnGroup(pass.plan, d)
    ensures multiset(pass.sorted)[s] == multiset(OwnGroup(pass.plan, d))[s]
  {
    var plan := pass.plan;
    forall e | e in pass.order && e != d ensures s !in plan.groups[e] {
      if d != "" { assert !HasText(plan.groups[e], s); }
    }
    FlattenCount(plan.groups, pass.order, d, s);
    assert forall e :: e in pass.order <==> e in AsSet(pass.order);
    assert multiset(plan.globals + Flatten(plan.groups, pass.order))
      == multiset(plan.globals) + multiset(Flatten(plan.groups, pass.order));
    assert d != "" ==> s !in multiset(plan.globals);
  }

  lemma PartCounts(user: string, spec: seq<DatabaseSpec>, pass: Pass, d: string, s: Stmt)
    requires IsPass(user, spec, pass) && |pass.log| == |pass.sorted| && Routable(pass.plan)
    requires LogShaped(pass.plan, pass.log)
    ensures multiset(Stmts(SentFor(pass.log, d)))[s] == multiset(OwnGroup(pass.plan, d))[s]
  {
    var log, part := pass.log, SentFor(pass.log, d);
    StmtsFollow(pass.plan.groups, pass.sorted, log);
    SentForMembers(log, d);
    if s in OwnGroup(pass.plan, d) {
      forall e | e in log && e.stmt == s ensures e.target == d {
        var i :| 0 <= i < |log| && log[i] == e;
        SentWherePlanned(pass.plan, log, i, d);
      }
      SentForCount(log, d, s);
      OwnCount(user, spec, pass, d, s);
    } else {
      forall i | 0 <= i < |part| ensures Stmts(part)[i] != s {
        assert part[i] in log;
        var j :| 0 <= j < |log| && log[j] == part[i];
        SentWherePlanned(pass.plan, log, j, d);
      }
      assert s !in multiset(Stmts(part)) && s !in multiset(OwnGroup(pass.plan, d));
    }
  }

  /** Equal contents, one of them sorted, decodable texts: the other's sort is it. */
  lemma SortOf(a: seq<Stmt>, own: seq<Stmt>)
    requires Sorted(AtOrBefore, a) && multiset(a) == multiset(own)
    requires forall s :: s in own ==> WellFormed(s)
    ensures a == Sort(AtOrBefore, own)
  {
    AtOrBeforeIsTotal();
    SortSorted(AtOrBefore, own);
    forall s | s in a ensures WellFormed(s) {
      assert s in multiset(own);
    }
    SortedPlanUnique(a, Sort(AtOrBefore, own));
  }

  /** The statements sent for each database are its own statements, in the order of its own run. */
  lemma EachDatabaseGetsItsOwn(user: string, spec: seq<DatabaseSpec>, pass: Pass, d: string)
    requires IsPass(user, spec, pass) && |pass.log| == |pass.sorted|
    requires Routable(pass.plan)
    ensures Stmts(SentFor(pass.log, d)) == OwnStatements(pass.plan, d)
  {
    PassLogShaped(user, spec, pass);
    StmtsFollow(pass.plan.groups, pass.sorted, pass.log);
    SentForSorted(AtOrBefore, pass.log, d);
    forall s { PartCounts(user, spec, pass, d, s); }
    assert multiset(Stmts(SentFor(pass.log, d))) == multiset(OwnGroup(pass.plan, d));
    SortOf(Stmts(SentFor(pass.log, d)), OwnGroup(pass.plan, d));
  }

  /** The run that decides a cell: the global one for a database, its database's for the rest. */
  function RunOf(p: Place): string {
    if p.DatabasePlace? then "" else p.database
  }

  lemma OtherRunMisses(plan: Plan, log: seq<Sent>, i: nat, c: Cell)
    requires Routable(plan) && LogShaped(plan, log) && i < |log| && !Stray(log[i])
    requires log[i].target != RunOf(c.place)
    ensures !Hits(log[i].stmt, log[i].session, c)
  {
    SentWherePlanned(plan, log, i, log[i].target);
  }

  /** A statement sent for another database leaves the cells of this one alone. */
  lemma {:induction false} OthersDoNotTouch(plan: Plan, log: seq<Sent>, v: set<string>, c: Cell)
    requires Routable(plan) && Routed(log) && LogShaped(plan, log)
    ensures ValueAfter(v, c, log) == ValueAfter(v, c, SentFor(log, RunOf(c.place)))
  {
    if log != [] {
      var n := |log| - 1;
      var part := SentFor(log[..n], RunOf(c.place));
      OthersDoNotTouch(plan, log[..n], v, c);
      if log[n].target == RunOf(c.place) {
        assert (part + [log[n]])[..|part|] == part;
      } else {
        assert SentFor(log, RunOf(c.place)) == part;
        OtherRunMisses(plan, log, n, c);
      }
    }
  }

  function Replies(log: seq<Sent>): seq<Reply> {
    seq(|log|, i requires 0 <= i < |log| => log[i].reply)
  }

  /** One cell's value after statements run alone, all in database `d`, and answered with `replies`. */
  function OwnRun(v: set<string>, c: Cell, d: string, stmts: seq<Stmt>, replies: seq<Reply>): set<string>
    requires |stmts| == |replies|
  {
    if stmts == [] then v
    else
      var n := |stmts| - 1;
      var before := OwnRun(v, c, d, stmts[..n], replies[..n]);
      if replies[n].Done? then ApplyTo(before, stmts[n], d, c) else before
  }

  /** A log that never left the cell's database is a run of its statements there. */
  lemma {:induction false} PartIsOwnRun(v: set<string>, c: Cell, part: seq<Sent>)
    requires forall i :: 0 <= i < |part| ==> part[i].session == c.place.database || part[i].stmt.target.OnDatabase?
    ensures ValueAfter(v, c, part) == OwnRun(v, c, c.place.database, Stmts(part), Replies(part))
  {
    if part != [] {
      var n := |part| - 1;
      PartIsOwnRun(v, c, part[..n]);
      assert Stmts(part)[..n] == Stmts(part[..n]) && Replies(part)[..n] == Replies(part[..n]);
      assert Hits(part[n].stmt, part[n].session, c) == Hits(part[n].stmt, c.place.database, c);
    }
  }

  lemma PartStaysInDatabase(plan: Plan, log: seq<Sent>, d: string, i: nat)
    requires Routable(plan) && Routed(log) && LogShaped(plan, log) && i < |SentFor(log, d)|
    ensures SentFor(log, d)[i].session == d || SentFor(log, d)[i].stmt.target.OnDatabase?
  {
    SentForMembers(log, d);
    var e := SentFor(log, d)[i];
    assert e in SentFor(log, d);
    var j :| 0 <= j < |log| && log[j] == e;
    if d == "" {
      SentWherePlanned(plan, log, j, d);
    }
  }

  /** All statements succeed. */
  function AllDone(n: nat): seq<Reply> { seq(n, i => Done) }

  /**
   The interleaved run refines separate runs: every cell ends as if the sorted statements of its own
   database had run alone in that database, with the same answers.
   */
  lemma InterleavingRefinement(user: string, spec: seq<DatabaseSpec>, pass: Pass, c: Cell)
    requires IsPass(user, spec, pass) && |pass.log| == |pass.sorted|
    requires Routable(pass.plan) && Routed(pass.log)
    requires c in pass.before
    ensures c in pass.After()
    ensures var own, replies := OwnStatements(pass.plan, RunOf(c.place)), Replies(SentFor(pass.log, RunOf(c.place)));
      && |own| == |replies|
      && pass.After()[c] == OwnRun(pass.before[c], c, c.place.database, own, replies)
      && ((forall e :: e in pass.log ==> e.reply.Done?) ==> replies == AllDone(|own|))
  {
    var part := SentFor(pass.log, RunOf(c.place));
    assert Stmts(part) == OwnStatements(pass.plan, RunOf(c.place)) by {
      EachDatabaseGetsItsOwn(user, spec, pass, RunOf(c.place));
    }
    assert c in pass.After()
      && pass.After()[c] == OwnRun(pass.before[c], c, c.place.database, Stmts(part), Replies(part))
    by {
      CellFollowsOwnRun(user, spec, pass, c);
      PassLogShaped(user, spec, pass);
      PartRuns(pass.plan, pass.log, pass.before[c], c);
    }
    if forall e :: e in pass.log ==> e.reply.Done? {
      RepliesDone(pass.log, RunOf(c.place));
    }
  }

  lemma RepliesDone(log: seq<Sent>, d: string)
    requires forall e :: e in log ==> e.reply.Done?
    ensures Replies(SentFor(log, d)) == AllDone(|SentFor(log, d)|)
  {
    SentForMembers(log, d);
    forall i | 0 <= i < |SentFor(log, d)| ensures SentFor(log, d)[i].reply.Done? {
      assert SentFor(log, d)[i] in log;
    }
  }

  /** The part of a log that decides a cell is a run of its statements in the cell's database. */
  lemma PartRuns(plan: Plan, log: seq<Sent>, v: set<string>, c: Cell)
    requires Routable(plan) && Routed(log) && LogShaped(plan, log)
    ensures var part := SentFor(log, RunOf(c.place));
      ValueAfter(v, c, part) == OwnRun(v, c, c.place.database, Stmts(part), Replies(part))
  {
    var d := RunOf(c.place);
    var part := SentFor(log, d);
    forall i | 0 <= i < |part|
      ensures part[i].session == c.place.database || part[i].stmt.target.OnDatabase?
    {
      PartStaysInDatabase(plan, log, d, i);
      if d != c.place.database {
        GlobalPart(plan, log, i);
      }
    }
    PartIsOwnRun(v, c, part);
  }

  lemma GlobalPart(plan: Plan, log: seq<Sent>, i: nat)
    requires Routable(plan) && LogShaped(plan, log) && i < |SentFor(log, "")|
    ensures SentFor(log, "")[i].stmt.target.OnDatabase?
  {
    SentForMembers(log, "");
    var e := SentFor(log, "")[i];
    assert e in SentFor(log, "");
    var j :| 0 <= j < |log| && log[j] == e;
    SentWherePlanned(plan, log, j, "");
  }

  lemma CellFollowsOwnRun(user: string, spec: seq<DatabaseSpec>, pass: Pass, c: Cell)
    requires IsPass(user, spec, pass) && Routable(pass.plan) && Routed(pass.log)
    requires c in pass.before
    ensures c in pass.After()
    ensures pass.After()[c] == ValueAfter(pass.before[c], c, SentFor(pass.log, RunOf(c.place)))
  {
    PassLogShaped(user, spec, pass);
    OthersDoNotTouch(pass.plan, pass.log, pass.before[c], c);
    ReplayPerCell(pass.before, pass.log);
  }

  // ---------- exactly when ----------

  /** An owner of the text, and `e` whenever `e` is one. */
  ghost function Owner(groups: map<string, seq<Stmt>>, e: string, s: Stmt): (target: string)
    ensures IsOwner(groups, s, target)
    ensures e in groups && e != "" && HasText(groups[e], s) ==> target == e
  {
    if e in groups && e != "" && HasText(groups[e], s) then e
    else if exists d :: d in groups && d != "" && HasText(groups[d], s) then
      var d :| d in groups && d != "" && HasText(groups[d], s); d
    else ""
  }

  /** The run of all statements in an environment, with the lookup preferring `e`. */
  ghost function Sending(groups: map<string, seq<Stmt>>, e: string, start: string, env: seq<Turn>, stmts: seq<Stmt>)
    : (log: seq<Sent>)
    ensures |log| == |stmts|
  {
    if stmts == [] then []
    else
      var n := |stmts| - 1;
      var front := Sending(groups, e, start, env, stmts[..n]);
      var target := Owner(groups, e, stmts[n]);
      var moves := Moves(target, BelievedBefore(front, n), TurnAt(env, n).useAccepted);
      front + [Sent(target, if moves then target else BelievedBefore(front, n),
                    if moves then target else SessionBefore(start, front, n), stmts[n], TurnAt(env, n).reply)]
  }

  lemma FollowsLonger(groups: map<string, seq<Stmt>>, stmts: seq<Stmt>, n: nat, log: seq<Sent>)
    requires n <= |stmts| && Follows(groups, stmts[..n], log)
    ensures Follows(groups, stmts, log)
  {
    forall i | 0 <= i < |log| ensures log[i].stmt == stmts[i] && IsOwner(groups, stmts[i], log[i].target) {
      assert log[i].stmt == stmts[..n][i] && IsOwner(groups, stmts[..n][i], log[i].target);
    }
  }

  /** The executor can make that run. */
  lemma {:induction false} SendingIsRun(groups: map<string, seq<Stmt>>, e: string, start: string, env: seq<Turn>,
                                        stmts: seq<Stmt>)
    ensures var log := Sending(groups, e, start, env, stmts);
      && GoodLog(groups, stmts, start, env, log)
      && forall i ::
        0 <= i < |log| ==> log[i].reply == TurnAt(env, i).reply && log[i].target == Owner(groups, e, stmts[i])
  {
    if stmts != [] {
      var n := |stmts| - 1;
      var front, log := Sending(groups, e, start, env, stmts[..n]), Sending(groups, e, start, env, stmts);
      SendingIsRun(groups, e, start, env, stmts[..n]);
      FollowsLonger(groups, stmts, n, front);
      GoodLogExtends(groups, stmts, start, env, front, log[n]);
      assert log == front + [log[n]];
      forall i | 0 <= i < n
        ensures log[i].reply == TurnAt(env, i).reply && log[i].target == Owner(groups, e, stmts[i]) {
        assert log[i] == front[i] && stmts[..n][i] == stmts[i];
      }
    }
  }

  lemma SentToOwner(groups: map<string, seq<Stmt>>, e: string, start: string, stmts: seq<Stmt>, s: Sent)
    requires s in Sending(groups, e, start, [], stmts)
    ensures s.target == Owner(groups, e, s.stmt)
  {
    SendingIsRun(groups, e, start, [], stmts);
  }

  /** Every database is sent its own statements, in the order of its own run. */
  ghost predicate RoutesRight(plan: Plan, log: seq<Sent>) {
    forall d :: d in plan.groups ==> Stmts(SentFor(log, d)) == OwnStatements(plan, d)
  }

  /** Every complete run with accepted USEs routes right, however the lookup breaks ties. */
  ghost predicate AlwaysRoutesRight(plan: Plan, sorted: seq<Stmt>) {
    forall start, env, log ::
      GoodLog(plan.groups, sorted, start, env, log) && AllUsesAccepted(env) && |log| == |sorted| ==>
      RoutesRight(plan, log)
  }

  /** The lookup by text is right for every run if and only if no text is planned for two databases. */
  lemma RoutingExact(user: string, spec: seq<DatabaseSpec>, pass: Pass)
    requires IsPass(user, spec, pass) && PlanShaped(pass.plan) && Named(pass.plan.groups)
    ensures AlwaysRoutesRight(pass.plan, pass.sorted) <==> DisjointTexts(pass.plan.groups)
  {
    var plan, sorted := pass.plan, pass.sorted;
    if DisjointTexts(plan.groups) {
      forall start, env, log | GoodLog(plan.groups, sorted, start, env, log) && |log| == |sorted|
        ensures RoutesRight(plan, log)
      {
        forall d | d in plan.groups ensures Stmts(SentFor(log, d)) == OwnStatements(plan, d) {
          EachDatabaseGetsItsOwn(user, spec, pass.(log := log), d);
        }
      }
    } else {
      var d, e, s :|
        d in plan.groups && e in plan.groups && d != e && s in plan.groups[d] && HasText(plan.groups[e], s);
      SharedTextMisroutes(plan, sorted, "", d, e, s);
    }
  }

  /** With the lookup preferring `e`, a text `e` planned is never sent for another database. */
  lemma NeverSentFor(groups: map<string, seq<Stmt>>, e: string, start: string, stmts: seq<Stmt>, d: string, s: Stmt)
    requires e in groups && e != "" && d != e && HasText(groups[e], s)
    ensures s !in Stmts(SentFor(Sending(groups, e, start, [], stmts), d))
  {
    var log := Sending(groups, e, start, [], stmts);
    var part := SentFor(log, d);
    SentForMembers(log, d);
    forall i | 0 <= i < |part| ensures Stmts(part)[i] != s {
      assert part[i] in log && part[i].target == d;
      SentToOwner(groups, e, start, stmts, part[i]);
    }
  }

  lemma OwnStatementsHave(plan: Plan, d: string, s: Stmt)
    requires d in plan.groups && d != "" && s in plan.groups[d]
    ensures s in OwnStatements(plan, d)
  {
    AtOrBeforeIsTotal();
    SortSorted(AtOrBefore, plan.groups[d]);
    assert s in multiset(plan.groups[d]);
    assert s in multiset(OwnStatements(plan, d));
  }

  /** From any start there is a run in which everything succeeds and a shared text misses one of its databases. */
  lemma SharedTextMisroutes(plan: Plan, sorted: seq<Stmt>, start: string, d: string, e: string, s: Stmt)
    requires Named(plan.groups)
    requires d in plan.groups && e in plan.groups && d != e && s in plan.groups[d] && HasText(plan.groups[e], s)
    ensures var log := Sending(plan.groups, e, start, [], sorted);
      && GoodLog(plan.groups, sorted, start, [], log) && Routed(log)
      && (forall i :: 0 <= i < |log| ==> log[i].reply.Done?)
      && s !in Stmts(SentFor(log, d)) && s in OwnStatements(plan, d)
    ensures !AlwaysRoutesRight(plan, sorted)
  {
    var log := Sending(plan.groups, e, start, [], sorted);
    SendingIsRun(plan.groups, e, start, [], sorted);
    AcceptedMeansRouted(start, [], log);
    NeverSentFor(plan.groups, e, start, sorted, d, s);
    OwnStatementsHave(plan, d, s);
    assert !RoutesRight(plan, log);
    assert AllUsesAccepted([]);
  }
}
