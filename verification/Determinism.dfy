/**
 How far a pass is determined by declaration and snapshot: the statements about objects are sent in one order,
 whatever orders the maps yield their keys in.
 */
module Determinism {
  import opened Sorting
  import opened Sql
  import opened Privileges
  import opened Diff
  import opened Planner
  import opened Executor
  import opened Routing

  /** The statements about objects, in their order. */
  function ObjectLevel(stmts: seq<Stmt>): seq<Stmt> {
    if stmts == [] then []
    else
      var last := stmts[|stmts| - 1];
      ObjectLevel(stmts[..|stmts| - 1]) + if AboutObjects(last.target) then [last] else []
  }

  lemma {:induction false} ObjectLevelCount(stmts: seq<Stmt>, s: Stmt)
    ensures multiset(ObjectLevel(stmts))[s] == if AboutObjects(s.target) then multiset(stmts)[s] else 0
  {
    if stmts != [] {
      var front, last := stmts[..|stmts| - 1], stmts[|stmts| - 1];
      ObjectLevelCount(front, s);
      assert stmts == front + [last];
    }
  }

  lemma {:induction false} ObjectLevelMembers(stmts: seq<Stmt>)
    ensures forall s :: s in ObjectLevel(stmts) ==> s in stmts
  {
    if stmts != [] {
      ObjectLevelMembers(stmts[..|stmts| - 1]);
    }
  }

  lemma {:induction false} ObjectLevelSorted(stmts: seq<Stmt>)
    requires Sorted(AtOrBefore, stmts)
    ensures Sorted(AtOrBefore, ObjectLevel(stmts))
  {
    if stmts != [] {
      var n := |stmts| - 1;
      var some := ObjectLevel(stmts[..n]);
      ObjectLevelSorted(stmts[..n]);
      ObjectLevelMembers(stmts[..n]);
      forall i | 0 <= i < |some| ensures AtOrBefore(some[i], stmts[n]) {
        assert some[i] in stmts[..n];
        var j :| 0 <= j < n && stmts[j] == some[i];
      }
      SortedSnoc(some, stmts[n]);
    }
  }

  lemma SortedSnoc(some: seq<Stmt>, last: Stmt)
    requires Sorted(AtOrBefore, some) && forall i :: 0 <= i < |some| ==> AtOrBefore(some[i], last)
    ensures Sorted(AtOrBefore, some + [last])
  {
  }

  // ---------- one group ----------

  lemma {:induction false} AtMostOnce(stmts: seq<Stmt>, s: Stmt)
    requires NoRepeats(stmts)
    ensures multiset(stmts)[s] == if s in stmts then 1 else 0
  {
    if stmts != [] {
      var n := |stmts| - 1;
      var front, last := stmts[..n], stmts[n];
      assert forall i, j :: 0 <= i < j < n ==> DemandOf(front[i]) != DemandOf(front[j]);
      AtMostOnce(front, s);
      assert stmts == front + [last];
      assert last !in front by {
        assert forall i :: 0 <= i < n ==> DemandOf(stmts[i]) != DemandOf(stmts[n]);
      }
    }
  }

  /** Tidy lists that ask for the same have the same statements about objects. */
  lemma SameObjectStatements(user: string, a: seq<Stmt>, b: seq<Stmt>, s: Stmt)
    requires AllFor(user, a) && AllFor(user, b) && ObjectsInOrder(a) && ObjectsInOrder(b) && Demands(a) == Demands(b)
    requires AboutObjects(s.target) && s in a
    ensures s in b
  {
    assert DemandOf(s) in Demands(b);
    var t :| t in b && DemandOf(t) == DemandOf(s);
    SortedPrivilegesUnique(s.privs, t.privs);
    assert s == t;
  }

  lemma SameGroupCounts(user: string, a: seq<Stmt>, b: seq<Stmt>, s: Stmt)
    requires AllFor(user, a) && AllFor(user, b) && ObjectsInOrder(a) && ObjectsInOrder(b) && Demands(a) == Demands(b)
    requires NoRepeats(a) && NoRepeats(b) && AboutObjects(s.target)
    ensures multiset(a)[s] == multiset(b)[s]
  {
    AtMostOnce(a, s);
    AtMostOnce(b, s);
    if s in a { SameObjectStatements(user, a, b, s); }
    if s in b { SameObjectStatements(user, b, a, s); }
  }

  // ---------- all groups, in any order ----------

  lemma FlattenSnoc(groups: map<string, seq<Stmt>>, order: seq<string>, d: string)
    requires (forall e :: e in order ==> e in groups) && d in groups
    ensures Flatten(groups, order + [d]) == Flatten(groups, order) + groups[d]
  {
    assert (order + [d])[..|order|] == order;
  }

  lemma {:induction false} FlattenWithout(groups: map<string, seq<Stmt>>, order: seq<string>, i: nat)
    requires i < |order| && forall d :: d in order ==> d in groups
    ensures var rest := order[..i] + order[i + 1..];
      && (forall d :: d in rest ==> d in groups)
      && multiset(Flatten(groups, order)) == multiset(Flatten(groups, rest)) + multiset(groups[order[i]])
  {
    var n := |order| - 1;
    var front := order[..n];
    assert order == front + [order[n]];
    FlattenSnoc(groups, front, order[n]);
    if i == n {
      assert order[..i] + order[i + 1..] == front;
    } else {
      var fewer := front[..i] + front[i + 1..];
      assert order[..i] + order[i + 1..] == fewer + [order[n]];
      FlattenWithout(groups, front, i);
      FlattenSnoc(groups, fewer, order[n]);
    }
  }

  lemma WithoutOne(q: seq<string>, i: nat)
    requires i < |q| && Distinct(q)
    ensures var rest := q[..i] + q[i + 1..]; Distinct(rest) && forall d :: d in rest <==> d in q && d != q[i]
  {
    var rest := q[..i] + q[i + 1..];
    assert q == q[..i] + [q[i]] + q[i + 1..];
    assert forall j :: 0 <= j < |rest| ==> rest[j] == q[if j < i then j else j + 1];
  }

  lemma HasMember(q: seq<string>)
    ensures q == [] || exists d :: d in q
  {
    if q != [] {
      assert q[0] in q;
    }
  }

  /** The order of the groups does not change how often a statement is listed. */
  lemma {:induction false} FlattenCounts(a: map<string, seq<Stmt>>, p: seq<string>, b: map<string, seq<Stmt>>,
                                         q: seq<string>, s: Stmt)
    requires Distinct(p) && Distinct(q) && forall d :: d in p <==> d in q
    requires forall d :: d in p ==> d in a && d in b && multiset(a[d])[s] == multiset(b[d])[s]
    ensures multiset(Flatten(a, p))[s] == multiset(Flatten(b, q))[s]
  {
    if p == [] {
      HasMember(q);
    } else {
      var n := |p| - 1;
      assert p[n] in q;
      var i :| 0 <= i < |q| && q[i] == p[n];
      FlattenWithout(b, q, i);
      WithoutOne(q, i);
      WithoutOne(p, n);
      assert p[..n] + p[n + 1..] == p[..n];
      FlattenCounts(a, p[..n], b, q[..i] + q[i + 1..], s);
      assert multiset(Flatten(a, p)) == multiset(Flatten(a, p[..n])) + multiset(a[p[n]]);
    }
  }

  // ---------- two passes ----------

  lemma SameCounts(user: string, spec: seq<DatabaseSpec>, p: Pass, q: Pass, s: Stmt)
    requires IsPass(user, spec, p) && IsPass(user, spec, q) && p.snap == q.snap
    requires DistinctNames(spec) && IsTidy(spec, p.plan) && IsTidy(spec, q.plan)
    requires PlanShaped(p.plan) && PlanShaped(q.plan) && AboutObjects(s.target)
    ensures multiset(p.sorted)[s] == multiset(q.sorted)[s]
  {
    forall d | d in p.plan.groups
      ensures d in q.plan.groups && multiset(p.plan.groups[d])[s] == multiset(q.plan.groups[d])[s]
    {
      SameGroupCounts(user, p.plan.groups[d], q.plan.groups[d], s);
    }
    assert forall d :: d in p.order <==> d in AsSet(p.order);
    assert forall d :: d in q.order <==> d in AsSet(q.order);
    FlattenCounts(p.plan.groups, p.order, q.plan.groups, q.order, s);
    assert s !in multiset(p.plan.globals) && s !in multiset(q.plan.globals);
  }

  /**
   Two passes over the same declaration and snapshot send the same statements about objects in the same order, each
   as often, whatever order their maps were walked in.
   */
  lemma ObjectStatementsDetermined(user: string, spec: seq<DatabaseSpec>, p: Pass, q: Pass)
    requires IsPass(user, spec, p) && IsPass(user, spec, q) && p.snap == q.snap
    requires DistinctNames(spec) && IsTidy(spec, p.plan) && IsTidy(spec, q.plan)
    requires PlanShaped(p.plan) && PlanShaped(q.plan)
    ensures ObjectLevel(p.sorted) == ObjectLevel(q.sorted)
  {
    var a, b := ObjectLevel(p.sorted), ObjectLevel(q.sorted);
    ObjectLevelSorted(p.sorted);
    ObjectLevelSorted(q.sorted);
    forall s ensures multiset(a)[s] == multiset(b)[s] {
      ObjectLevelCount(p.sorted, s);
      ObjectLevelCount(q.sorted, s);
      if AboutObjects(s.target) {
        SameCounts(user, spec, p, q, s);
      }
    }
    assert multiset(a) == multiset(b);
    ObjectLevelMembers(p.sorted);
    forall s | s in a ensures WellFormed(s) {
      Listed(user, spec, p, s);
    }
    SortedPlanUnique(a, b);
  }
}
