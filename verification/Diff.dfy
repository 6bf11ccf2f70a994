/** The three diffs between held and declared privileges. */
module Diff {
  import opened Strings
  import opened Sorting
  import opened Sql
  import opened Privileges

  datatype PrivilegeDiff = PrivilegeDiff(toGrant: seq<Stmt>, toRevoke: seq<Stmt>)

  /** `stmts` is the one statement for `privs`, or nothing when there is nothing to say. */
  ghost predicate Asks(stmts: seq<Stmt>, user: string, verb: Verb, target: Target, privs: set<string>) {
    if privs == {} then stmts == []
    else
      && |stmts| == 1
      && stmts[0] == Stmt(verb, stmts[0].privs, target, user)
      && AsSet(stmts[0].privs) == privs
      && Distinct(stmts[0].privs)
  }

  ghost predicate IsDiff(user: string, target: Target, actual: set<string>, desired: set<string>, diff: PrivilegeDiff) {
    && Asks(diff.toGrant, user, Grant, target, desired - actual)
    && Asks(diff.toRevoke, user, Revoke, target, actual - desired)
  }

  ghost predicate PrivilegesSorted(diff: PrivilegeDiff) {
    forall s :: s in diff.toGrant || s in diff.toRevoke ==> Sorted(AtMost, s.privs)
  }

  /** Fills a lookup set from a slice. */
  method ToSet(privs: seq<string>) returns (found: set<string>)
    ensures found == AsSet(privs)
  {
    found := {};
    for i := 0 to |privs|
      invariant found == AsSet(privs[..i])
    {
      assert privs[..i + 1] == privs[..i] + [privs[i]];
      found := found + {privs[i]};
    }
    assert privs[..|privs|] == privs;
  }

  /** The members of `from` that are not in `present`, in whatever order the map yields them. */
  method Missing(from: set<string>, present: set<string>) returns (missing: seq<string>)
    ensures AsSet(missing) == from - present
    ensures Distinct(missing)
  {
    missing := [];
    var todo := from;
    while todo != {}
      invariant todo <= from
      invariant AsSet(missing) == from - todo - present
      invariant Distinct(missing)
    {
      var p :| p in todo;
      todo := todo - {p};
      if p !in present {
        assert p !in AsSet(missing);
        assert AsSet(missing + [p]) == AsSet(missing) + {p};
        missing := missing + [p];
      }
    }
  }

  lemma AtMostIsTotal()
    ensures TotalPreorder(AtMost)
  {
    forall x, y ensures AtMost(x, y) || AtMost(y, x) { LessTrichotomy(x, y); }
    forall x, y, z | AtMost(x, y) && AtMost(y, z) ensures AtMost(x, z) {
      LessTrichotomy(x, y);
      LessTrichotomy(y, z);
      LessTrichotomy(x, z);
      if Less(z, x) && x != y {
        LessTransitive(z, x, y);
      }
    }
  }

  /** sort.Strings on a list of distinct privileges. */
  method SortPrivileges(privs: seq<string>) returns (sorted: seq<string>)
    requires Distinct(privs)
    ensures Sorted(AtMost, sorted) && Distinct(sorted)
    ensures AsSet(sorted) == AsSet(privs)
  {
    AtMostIsTotal();
    SortSorted(AtMost, privs);
    sorted := Sort(AtMost, privs);
    SameElements(privs, sorted);
  }

  lemma {:induction false} DistinctCounts(xs: seq<string>)
    ensures Distinct(xs) <==> forall x :: multiset(xs)[x] <= 1
  {
    if xs != [] {
      var rest := xs[1..];
      assert xs == [xs[0]] + rest;
      DistinctCounts(rest);
      if forall x :: multiset(xs)[x] <= 1 {
        assert forall x :: multiset(rest)[x] <= multiset(xs)[x];
        assert multiset(xs)[xs[0]] == 1 + multiset(rest)[xs[0]];
        assert xs[0] !in rest;
      }
      if Distinct(xs) {
        assert xs[0] !in rest;
        assert forall x :: multiset(xs)[x] == multiset(rest)[x] + if x == xs[0] then 1 else 0;
        assert multiset(rest)[xs[0]] == 0;
      }
    }
  }

  lemma SameElements(xs: seq<string>, ys: seq<string>)
    requires multiset(xs) == multiset(ys)
    ensures AsSet(xs) == AsSet(ys)
    ensures Distinct(xs) ==> Distinct(ys)
  {
    assert forall x :: x in xs <==> x in multiset(xs);
    assert forall x :: x in ys <==> x in multiset(ys);
    DistinctCounts(xs);
    DistinctCounts(ys);
  }

  method DiffPrivileges(user: string, target: Target, actual: seq<string>, desired: seq<string>, inOrder: bool)
    returns (diff: PrivilegeDiff)
    ensures IsDiff(user, target, AsSet(actual), AsSet(desired), diff)
    ensures inOrder ==> PrivilegesSorted(diff)
  {
    var desiredPrivs := ToSet(desired);
    var actualPrivs := ToSet(actual);
    diff := PrivilegeDiff([], []);

    var grantPrivs := Missing(desiredPrivs, actualPrivs);
    if |grantPrivs| > 0 {
      assert grantPrivs[0] in AsSet(grantPrivs);
      if inOrder { grantPrivs := SortPrivileges(grantPrivs); }
      assert grantPrivs != [];
      diff := diff.(toGrant := [Stmt(Grant, grantPrivs, target, user)]);
    }

    var revokePrivs := Missing(actualPrivs, desiredPrivs);
    if |revokePrivs| > 0 {
      assert revokePrivs[0] in AsSet(revokePrivs);
      if inOrder { revokePrivs := SortPrivileges(revokePrivs); }
      assert revokePrivs != [];
      diff := diff.(toRevoke := [Stmt(Revoke, revokePrivs, target, user)]);
    }
  }

  method CalculateDatabaseDiff(user: string, actual: seq<string>, desired: DatabaseSpec) returns (diff: PrivilegeDiff)
    ensures IsDiff(user, OnDatabase(desired.name), AsSet(actual), AsSet(desired.privileges), diff)
  {
    diff := DiffPrivileges(user, OnDatabase(desired.name), actual, desired.privileges, false);
  }

  method CalculateSchemaDiff(user: string, actual: seq<string>, desired: SchemaSpec) returns (diff: PrivilegeDiff)
    ensures IsDiff(user, OnSchema(desired.name), AsSet(actual), AsSet(desired.privileges), diff)
  {
    diff := DiffPrivileges(user, OnSchema(desired.name), actual, desired.privileges, false);
  }

  /** Object privileges are sorted before they are joined into a text. */
  method CalculateObjectDiff(user: string, kind: Kind, schema: string, actual: ObjectPrivilege, desiredName: string,
                             desiredPrivs: seq<string>)
    returns (diff: PrivilegeDiff)
    ensures IsDiff(user, TargetFor(kind, schema, desiredName), AsSet(actual.privileges), AsSet(desiredPrivs), diff)
    ensures PrivilegesSorted(diff)
  {
    diff := DiffPrivileges(user, TargetFor(kind, schema, desiredName), actual.privileges, desiredPrivs, true);
  }

  lemma SortedPrivilegesUnique(xs: seq<string>, ys: seq<string>)
    requires Distinct(xs) && Distinct(ys) && AsSet(xs) == AsSet(ys)
    requires Sorted(AtMost, xs) && Sorted(AtMost, ys)
    ensures xs == ys
  {
    DistinctCounts(xs);
    DistinctCounts(ys);
    forall x ensures multiset(xs)[x] == multiset(ys)[x] {
      assert x in xs <==> x in AsSet(xs);
      assert x in ys <==> x in AsSet(ys);
      assert x in xs <==> x in multiset(xs);
      assert x in ys <==> x in multiset(ys);
    }
    assert multiset(xs) == multiset(ys);
    forall x, y | x in xs && y in xs && AtMost(x, y) && AtMost(y, x) ensures x == y { LessTrichotomy(x, y); }
    SortedUnique(AtMost, xs, ys);
  }

  /** An object diff does not depend on map iteration order: held and declared sets determine it. */
  lemma ObjectDiffDeterministic(user: string, target: Target, actual: set<string>, desired: set<string>,
                                a: PrivilegeDiff, b: PrivilegeDiff)
    requires IsDiff(user, target, actual, desired, a) && PrivilegesSorted(a)
    requires IsDiff(user, target, actual, desired, b) && PrivilegesSorted(b)
    ensures a == b
  {
    if desired - actual != {} {
      SortedPrivilegesUnique(a.toGrant[0].privs, b.toGrant[0].privs);
    }
    if actual - desired != {} {
      SortedPrivilegesUnique(a.toRevoke[0].privs, b.toRevoke[0].privs);
    }
  }
}
