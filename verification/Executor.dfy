/**
 The executing half of syncPrivileges: one list for all databases, REVOKE first, sent
 over one session that is switched with USE when a statement's text belongs to another
 database's group.
 */
module Executor {
  import opened Strings
  import opened Sorting
  import opened Sql
  import opened Privileges
  import opened Wrappers
  import opened Planner
  import opened Server

  // ---------- order ----------

  /** The comparator handed to sort.Slice. */
  predicate Precedes(a: Stmt, b: Stmt) {
    var isRevokeA := "REVOKE" <= Text(a);
    var isRevokeB := "REVOKE" <= Text(b);
    if isRevokeA && !isRevokeB then true
    else if !isRevokeA && isRevokeB then false
    else Less(Text(a), Text(b))
  }

  predicate AtOrBefore(a: Stmt, b: Stmt) {
    !Precedes(b, a)
  }

  lemma RevokePrefix(s: Stmt)
    ensures "REVOKE" <= Text(s) <==> s.verb.Revoke?
  {
    assert Text(s)[0] == VerbWord(s.verb)[0];
    assert s.verb.Revoke? ==> VerbWord(s.verb) <= Text(s);
  }

  /** On texts the comparator is a strict total order, and it puts every REVOKE before every GRANT. */
  lemma PrecedesIsStrictTotal(a: Stmt, b: Stmt, c: Stmt)
    ensures !Precedes(a, a)
    ensures Precedes(a, b) ==> !Precedes(b, a)
    ensures Text(a) == Text(b) || Precedes(a, b) || Precedes(b, a)
    ensures Precedes(a, b) && Precedes(b, c) ==> Precedes(a, c)
    ensures a.verb.Revoke? && b.verb.Grant? ==> Precedes(a, b)
  {
    RevokePrefix(a);
    RevokePrefix(b);
    LessTrichotomy(Text(a), Text(b));
    if Less(Text(a), Text(b)) && Less(Text(b), Text(c)) {
      LessTransitive(Text(a), Text(b), Text(c));
    }
  }

  /** The order of the list: revocations first, and within one verb the texts in ascending order. */
  lemma PrecedesExactly(a: Stmt, b: Stmt)
    ensures Precedes(a, b) <==>
      (a.verb.Revoke? && b.verb.Grant?) || (a.verb == b.verb && ComesBefore(Text(a), Text(b)))
  {
    RevokePrefix(a);
    RevokePrefix(b);
    LessExactly(Text(a), Text(b));
  }

  lemma AtOrBeforeIsTotal()
    ensures TotalPreorder(AtOrBefore)
  {
    forall x, y ensures AtOrBefore(x, y) || AtOrBefore(y, x) { PrecedesIsStrictTotal(x, y, x); }
    forall x, y, z | AtOrBefore(x, y) && AtOrBefore(y, z) ensures AtOrBefore(x, z) {
      PrecedesIsStrictTotal(z, x, y);
      PrecedesIsStrictTotal(x, y, z);
    }
  }

  lemma TextOrderAntisymmetric(stmts: seq<Stmt>)
    requires forall s :: s in stmts ==> WellFormed(s)
    ensures AntisymmetricOn(AtOrBefore, stmts)
  {
    forall x, y | x in stmts && y in stmts && AtOrBefore(x, y) && AtOrBefore(y, x)
      ensures x == y
    {
      PrecedesIsStrictTotal(x, y, x);
      TextInjective(x, y);
    }
  }

  /** Whatever order the maps yielded the statements in, the sorted list is the same. */
  lemma SortedPlanUnique(a: seq<Stmt>, b: seq<Stmt>)
    requires forall s :: s in a ==> WellFormed(s)
    requires Sorted(AtOrBefore, a) && Sorted(AtOrBefore, b) && multiset(a) == multiset(b)
    ensures a == b
  {
    TextOrderAntisymmetric(a);
    SortedUnique(AtOrBefore, a, b);
  }

  lemma SortedMeansRevokesFirst(stmts: seq<Stmt>, i: nat, j: nat)
    requires Sorted(AtOrBefore, stmts) && i < j < |stmts| && stmts[i].verb.Grant?
    ensures stmts[j].verb.Grant?
  {
    if stmts[j].verb.Revoke? {
      PrecedesIsStrictTotal(stmts[j], stmts[i], stmts[j]);
    }
  }

  method SortStatements(stmts: seq<Stmt>) returns (sorted: seq<Stmt>)
    ensures Sorted(AtOrBefore, sorted)
    ensures multiset(sorted) == multiset(stmts)
  {
    AtOrBeforeIsTotal();
    SortSorted(AtOrBefore, stmts);
    sorted := Sort(AtOrBefore, stmts);
  }

  // ---------- collecting the groups ----------

  ghost predicate Enumerates(order: seq<string>, keys: set<string>) {
    Distinct(order) && AsSet(order) == keys
  }

  ghost function Flatten(groups: map<string, seq<Stmt>>, order: seq<string>): seq<Stmt>
    requires forall d <- order :: d in groups
  {
    if order == [] then [] else Flatten(groups, order[..|order| - 1]) + groups[order[|order| - 1]]
  }

  /** Appends the groups to the global statements in map iteration order, which is returned. */
  method Collect(plan: Plan) returns (all: seq<Stmt>, ghost order: seq<string>)
    ensures Enumerates(order, plan.groups.Keys)
    ensures all == plan.globals + Flatten(plan.groups, order)
  {
    all := plan.globals;
    order := [];
    var todo := plan.groups.Keys;
    while todo != {}
      invariant todo <= plan.groups.Keys
      invariant Enumerates(order, plan.groups.Keys - todo)
      invariant forall d <- order :: d in plan.groups
      invariant all == plan.globals + Flatten(plan.groups, order)
    {
      var d :| d in todo;
      todo := todo - {d};
      assert d !in AsSet(order);
      assert AsSet(order + [d]) == AsSet(order) + {d};
      assert (order + [d])[..|order|] == order;
      all := all + plan.groups[d];
      order := order + [d];
    }
  }

  // ---------- sending ----------

  predicate HasText(stmts: seq<Stmt>, s: Stmt) {
    exists t <- stmts :: Text(t) == Text(s)
  }

  /** `target` is a database whose group holds the statement's text, or "" when no named group does. */
  ghost predicate IsOwner(groups: map<string, seq<Stmt>>, s: Stmt, target: string) {
    if target == "" then forall d :: d in groups && d != "" ==> !HasText(groups[d], s)
    else target in groups && HasText(groups[target], s)
  }

  method FindOwner(groups: map<string, seq<Stmt>>, stmt: Stmt) returns (target: string)
    ensures IsOwner(groups, stmt, target)
  {
    target := "";
    var todo := groups.Keys;
    while todo != {}
      invariant todo <= groups.Keys
      invariant target == ""
      invariant forall d :: d in groups.Keys - todo && d != "" ==> !HasText(groups[d], stmt)
    {
      var d :| d in todo;
      todo := todo - {d};
      var group := groups[d];
      for i := 0 to |group|
        invariant !HasText(group[..i], stmt)
      {
        assert group[..i + 1] == group[..i] + [group[i]];
        if Text(group[i]) == Text(stmt) {
          target := d;
          break;
        }
      }
      assert group[..|group|] == group;
      if target != "" {
        return;
      }
    }
  }

  /** Errors that are logged and passed over: those that say one of three phrases, in any ASCII case. */
  predicate Tolerated(message: string): (tolerated: bool)
    ensures tolerated <==>
      Mentions(message, "does not exist") || Mentions(message, "not found") || Mentions(message, "must be owner")
  {
    var m := ToLower(message);
    LoweredContains(message, "does not exist");
    LoweredContains(message, "not found");
    LoweredContains(message, "must be owner");
    Contains(m, "does not exist") || Contains(m, "not found") || Contains(m, "must be owner")
  }

  /** An error that says none of the phrases. */
  predicate Fatal(r: Reply) {
    r.Failed? && forall phrase <- ["does not exist", "not found", "must be owner"] :: !Mentions(r.message, phrase)
  }

  lemma FatalExactly(message: string)
    ensures Fatal(Failed(message)) <==> !Tolerated(message)
  {
    var phrases := ["does not exist", "not found", "must be owner"];
    assert phrases[0] in phrases && phrases[1] in phrases && phrases[2] in phrases;
  }

  /** The first `n` turns hold no error that stops a run. */
  ghost predicate NoneStops(env: seq<Turn>, n: nat) {
    forall i :: 0 <= i < n ==> !Fatal(TurnAt(env, i).reply)
  }

  /** What a server does with a text: it acts on what it reads. */
  function Understood(cells: Cells, text: string, session: string): Cells {
    if Reads(text).Some? then Apply(cells, Reads(text).value, session) else cells
  }

  /** The session and the server behind it. */
  class Connection {
    var session: string
    var cells: Cells

    constructor (session: string, cells: Cells)
      ensures this.session == session && this.cells == cells
    {
      this.session, this.cells := session, cells;
    }

    method Use(database: string, accepted: bool)
      modifies this
      ensures session == (if accepted then database else old(session)) && cells == old(cells)
    {
      if accepted { session := database; }
    }

    method Exec(stmt: Stmt, reply: Reply)
      modifies this
      ensures session == old(session)
      ensures cells == if reply.Done? then Apply(old(cells), stmt, session) else old(cells)
      ensures WellFormed(stmt) && reply.Done? ==> cells == Understood(old(cells), Text(stmt), session)
    {
      if WellFormed(stmt) { TextReads(stmt); }
      if reply.Done? { cells := Apply(cells, stmt, session); }
    }
  }

  /** What the outside decides about a statement: whether its USE is accepted, and its answer. */
  datatype Turn = Turn(useAccepted: bool, reply: Reply)

  /** Turns by statement index; past the end everything succeeds. */
  function TurnAt(env: seq<Turn>, i: nat): Turn {
    if i < |env| then env[i] else Turn(true, Done)
  }

  /** The log sends a prefix of `sorted`, each statement for a database that planned its text. */
  ghost predicate Follows(groups: map<string, seq<Stmt>>, sorted: seq<Stmt>, log: seq<Sent>) {
    && |log| <= |sorted|
    && forall i :: 0 <= i < |log| ==> log[i].stmt == sorted[i] && IsOwner(groups, sorted[i], log[i].target)
  }

  /** currentDB is either empty or right. */
  ghost predicate BeliefsHold(log: seq<Sent>) {
    forall i :: 0 <= i < |log| && log[i].believed != "" ==> log[i].session == log[i].believed
  }

  /** The statement has a database and ran in another. */
  predicate Stray(e: Sent) {
    e.target != "" && e.session != e.target
  }

  /** Every statement with a database ran in it. */
  ghost predicate Routed(log: seq<Sent>) {
    forall i :: 0 <= i < |log| ==> !Stray(log[i])
  }

  ghost predicate AllUsesAccepted(env: seq<Turn>) {
    forall i :: 0 <= i < |env| ==> env[i].useAccepted
  }

  /** Where the session is before the i-th statement, for a connection that started in `start`. */
  function SessionBefore(start: string, log: seq<Sent>, i: nat): string
    requires i <= |log|
  {
    if i == 0 then start else log[i - 1].session
  }

  /** The currentDB of the executor before the i-th statement. */
  function BelievedBefore(log: seq<Sent>, i: nat): string
    requires i <= |log|
  {
    if i == 0 then "" else log[i - 1].believed
  }

  /** A USE is sent, and works. */
  predicate Moves(target: string, believed: string, accepted: bool) {
    target != "" && target != believed && accepted
  }

  predicate SwitchedAt(start: string, env: seq<Turn>, log: seq<Sent>, i: nat)
    requires i < |log|
  {
    var moves := Moves(log[i].target, BelievedBefore(log, i), TurnAt(env, i).useAccepted);
    && log[i].session == (if moves then log[i].target else SessionBefore(start, log, i))
    && log[i].believed == (if moves then log[i].target else BelievedBefore(log, i))
  }

  /** Session and belief of every statement follow from those before it. */
  ghost predicate Switches(start: string, env: seq<Turn>, log: seq<Sent>) {
    forall i :: 0 <= i < |log| ==> SwitchedAt(start, env, log, i)
  }

  /** What came before a statement does not depend on what comes after. */
  lemma SwitchedEarlier(start: string, env: seq<Turn>, log: seq<Sent>, more: seq<Sent>, i: nat)
    requires i < |log|
    ensures SwitchedAt(start, env, log + more, i) == SwitchedAt(start, env, log, i)
  {
    var longer := log + more;
    assert longer[i] == log[i];
    assert i > 0 ==> longer[i - 1] == log[i - 1];
  }

  /** Switches the session if needed; a refused USE leaves both the session and the belief alone. */
  method Switch(conn: Connection, targetDB: string, currentDB: string, accepted: bool) returns (believed: string)
    modifies conn
    ensures conn.cells == old(conn.cells)
    ensures conn.session == if Moves(targetDB, currentDB, accepted) then targetDB else old(conn.session)
    ensures believed == if Moves(targetDB, currentDB, accepted) then targetDB else currentDB
  {
    believed := currentDB;
    if targetDB != "" && targetDB != currentDB {
      conn.Use(targetDB, accepted);
      if accepted {
        believed := targetDB;
      }
    }
  }

  ghost predicate Answered(log: seq<Sent>, env: seq<Turn>) {
    forall i :: 0 <= i < |log| ==> log[i].reply == TurnAt(env, i).reply
  }

  ghost predicate NoneFatal(log: seq<Sent>) {
    forall i :: 0 <= i < |log| ==> !Fatal(log[i].reply)
  }

  /** What is known of a log at any time of the run. */
  ghost predicate GoodLog(groups: map<string, seq<Stmt>>, sorted: seq<Stmt>, start: string, env: seq<Turn>,
                          log: seq<Sent>) {
    Follows(groups, sorted, log) && Switches(start, env, log) && Answered(log, env)
  }

  /** What the next statement of a log must look like. */
  ghost predicate Extends(groups: map<string, seq<Stmt>>, sorted: seq<Stmt>, start: string, env: seq<Turn>,
                          log: seq<Sent>, sent: Sent) {
    var n := |log|;
    var moves := Moves(sent.target, BelievedBefore(log, n), TurnAt(env, n).useAccepted);
    && n < |sorted| && sent.stmt == sorted[n] && IsOwner(groups, sent.stmt, sent.target)
    && sent.reply == TurnAt(env, n).reply
    && sent.session == (if moves then sent.target else SessionBefore(start, log, n))
    && sent.believed == (if moves then sent.target else BelievedBefore(log, n))
  }

  lemma GoodLogExtends(groups: map<string, seq<Stmt>>, sorted: seq<Stmt>, start: string, env: seq<Turn>, log: seq<Sent>,
                       sent: Sent)
    requires GoodLog(groups, sorted, start, env, log) && Extends(groups, sorted, start, env, log, sent)
    ensures GoodLog(groups, sorted, start, env, log + [sent])
  {
    FollowsExtends(groups, sorted, log, sent);
    SwitchesExtends(groups, sorted, start, env, log, sent);
    AnsweredExtends(env, log, sent);
  }

  lemma FollowsExtends(groups: map<string, seq<Stmt>>, sorted: seq<Stmt>, log: seq<Sent>, sent: Sent)
    requires Follows(groups, sorted, log) && |log| < |sorted|
    requires sent.stmt == sorted[|log|] && IsOwner(groups, sent.stmt, sent.target)
    ensures Follows(groups, sorted, log + [sent])
  {
    var longer := log + [sent];
    forall i | 0 <= i < |longer|
      ensures longer[i].stmt == sorted[i] && IsOwner(groups, sorted[i], longer[i].target)
    {
      if i < |log| {
        assert longer[i] == log[i];
        assert log[i].stmt == sorted[i] && IsOwner(groups, sorted[i], log[i].target);
      } else {
        assert longer[i] == sent;
      }
    }
  }

  lemma SwitchesExtends(groups: map<string, seq<Stmt>>, sorted: seq<Stmt>, start: string, env: seq<Turn>,
                        log: seq<Sent>, sent: Sent)
    requires Switches(start, env, log) && Extends(groups, sorted, start, env, log, sent)
    ensures Switches(start, env, log + [sent])
  {
    var longer := log + [sent];
    forall i | 0 <= i < |longer| ensures SwitchedAt(start, env, longer, i) {
      if i < |log| {
        SwitchedEarlier(start, env, log, [sent], i);
      } else {
        assert longer[i] == sent && (i > 0 ==> longer[i - 1] == log[i - 1]);
      }
    }
  }

  lemma AnsweredExtends(env: seq<Turn>, log: seq<Sent>, sent: Sent)
    ensures Answered(log + [sent], env) <==> Answered(log, env) && sent.reply == TurnAt(env, |log|).reply
  {
    var longer := log + [sent];
    assert longer[|log|] == sent;
    assert forall i :: 0 <= i < |log| ==> longer[i] == log[i];
  }

  /** Whatever USEs are refused, a belief is never wrong. */
  lemma {:induction false} BeliefsAreRight(start: string, env: seq<Turn>, log: seq<Sent>)
    requires Switches(start, env, log)
    ensures BeliefsHold(log)
  {
    if log != [] {
      var n := |log| - 1;
      var front := log[..n];
      assert log == front + [log[n]];
      forall i | 0 <= i < n ensures SwitchedAt(start, env, front, i) {
        SwitchedEarlier(start, env, front, [log[n]], i);
      }
      BeliefsAreRight(start, env, front);
      assert forall i :: 0 <= i < n ==> front[i] == log[i];
      assert SwitchedAt(start, env, log, n);
    }
  }

  /**
   A statement runs in its own database if and only if its USE was accepted or the session was
   there anyway: after a refused USE the executor goes on, in whatever database the session is in.
   */
  lemma RoutedExactly(start: string, env: seq<Turn>, log: seq<Sent>, i: nat)
    requires Switches(start, env, log) && i < |log| && log[i].target != ""
    ensures log[i].session == log[i].target <==>
      TurnAt(env, i).useAccepted || SessionBefore(start, log, i) == log[i].target
  {
    BeliefsAreRight(start, env, log);
    assert SwitchedAt(start, env, log, i);
    if i > 0 {
      assert log[i - 1].believed != "" ==> log[i - 1].session == log[i - 1].believed;
    }
  }

  lemma AcceptedMeansRouted(start: string, env: seq<Turn>, log: seq<Sent>)
    requires Switches(start, env, log) && AllUsesAccepted(env)
    ensures Routed(log)
  {
    forall i | 0 <= i < |log| && log[i].target != "" ensures log[i].session == log[i].target {
      RoutedExactly(start, env, log, i);
    }
  }

  lemma LogExtends(log: seq<Sent>, sent: Sent, cells: Cells)
    ensures NoneFatal(log + [sent]) <==> NoneFatal(log) && !Fatal(sent.reply)
    ensures Replay(cells, log + [sent])
      == if sent.reply.Done? then Apply(Replay(cells, log), sent.stmt, sent.session) else Replay(cells, log)
  {
    var longer := log + [sent];
    assert longer[..|log|] == log && longer[|log|] == sent;
    assert forall i :: 0 <= i < |log| ==> longer[i] == log[i];
  }

  /** Sends the list in order; stops with `failed` at the first error that is not tolerated. */
  method Send(conn: Connection, groups: map<string, seq<Stmt>>, sorted: seq<Stmt>, env: seq<Turn>)
    returns (ghost log: seq<Sent>, failed: bool)
    modifies conn
    ensures GoodLog(groups, sorted, old(conn.session), env, log)
    ensures conn.cells == Replay(old(conn.cells), log)
    ensures conn.session == SessionBefore(old(conn.session), log, |log|)
    ensures if failed then log != [] && NoneFatal(log[..|log| - 1]) && Fatal(log[|log| - 1].reply)
            else |log| == |sorted| && NoneFatal(log)
    ensures failed <==> !NoneStops(env, |sorted|)
    ensures failed ==> log != [] && NoneStops(env, |log| - 1) && Fatal(TurnAt(env, |log| - 1).reply)
  {
    var currentDB := "";
    log := [];
    for i := 0 to |sorted|
      invariant |log| == i && GoodLog(groups, sorted, old(conn.session), env, log) && NoneFatal(log)
      invariant currentDB == BelievedBefore(log, i) && conn.session == SessionBefore(old(conn.session), log, i)
      invariant conn.cells == Replay(old(conn.cells), log) && NoneStops(env, i)
    {
      var targetDB := FindOwner(groups, sorted[i]);
      var turn := TurnAt(env, i);
      currentDB := Switch(conn, targetDB, currentDB, turn.useAccepted);
      conn.Exec(sorted[i], turn.reply);
      ghost var sent := Sent(targetDB, currentDB, conn.session, sorted[i], turn.reply);
      GoodLogExtends(groups, sorted, old(conn.session), env, log, sent);
      LogExtends(log, sent, old(conn.cells));
      ghost var front := log;
      log := log + [sent];
      if turn.reply.Failed? {
        FatalExactly(turn.reply.message);
        if !Tolerated(turn.reply.message) {
          assert log[..|log| - 1] == front;
          return log, true;
        }
      }
    }
    failed := false;
  }

  // ---------- one pass ----------

  /** One run of syncPrivileges: what it saw, planned, ordered and sent. */
  datatype Pass = Pass(before: Cells, snap: seq<DatabaseSnapshot>, plan: Plan, order: seq<string>, sorted: seq<Stmt>,
                       log: seq<Sent>)
  {
    function After(): Cells { Replay(before, log) }
  }

  ghost predicate IsPass(user: string, spec: seq<DatabaseSpec>, pass: Pass) {
    && IsPlan(user, spec, pass.snap, pass.plan)
    && Enumerates(pass.order, pass.plan.groups.Keys)
    && (forall d <- pass.order :: d in pass.plan.groups)
    && multiset(pass.sorted) == multiset(pass.plan.globals + Flatten(pass.plan.groups, pass.order))
    && Sorted(AtOrBefore, pass.sorted)
    && Follows(pass.plan.groups, pass.sorted, pass.log)
  }

  ghost predicate Completed(pass: Pass) {
    |pass.log| == |pass.sorted| && NoneFatal(pass.log)
  }

  /** syncPrivileges with the fetched snapshot given. */
  method SyncPrivileges(conn: Connection, user: string, grants: Option<seq<DatabaseSpec>>, snap: seq<DatabaseSnapshot>,
                        env: seq<Turn>)
    returns (ghost pass: Pass, failed: bool)
    modifies conn
    ensures grants.None? ==> !failed && conn.cells == old(conn.cells) && conn.session == old(conn.session)
    ensures grants.Some? ==>
      && IsPass(user, grants.value, pass) && IsTidy(grants.value, pass.plan)
      && pass.before == old(conn.cells) && pass.snap == snap && conn.cells == pass.After()
      && Switches(old(conn.session), env, pass.log) && BeliefsHold(pass.log)
      && (AllUsesAccepted(env) ==> Routed(pass.log))
      && Answered(pass.log, env)
      && (!failed <==> Completed(pass))
      && (failed <==> !NoneStops(env, |pass.sorted|))
      && (failed ==> pass.log != [] && NoneStops(env, |pass.log| - 1) && Fatal(TurnAt(env, |pass.log| - 1).reply))
      && (!failed ==> |pass.log| == |pass.sorted|)
  {
    if grants.None? {
      return Pass(conn.cells, snap, Plan([], map[]), [], [], []), false;
    }
    var plan := PlanPrivileges(user, grants.value, snap);
    var all, order := Collect(plan);
    var sorted := SortStatements(all);
    ghost var before := conn.cells;
    ghost var log;
    log, failed := Send(conn, plan.groups, sorted, env);
    pass := Pass(before, snap, plan, order, sorted, log);
    BeliefsAreRight(old(conn.session), env, log);
    if AllUsesAccepted(env) {
      AcceptedMeansRouted(old(conn.session), env, log);
    }
  }
}
