/**
 What passes do when names repeat in the declaration, and exactly when they settle. Everything is stated of the lists of
 privileges declared for one place, whatever entries they come from; distinct names are the case of at most one list.
 */
module Duplicates {
  import opened Sql
  import opened Privileges
  import opened Wrappers
  import opened Planner
  import opened Server
  import opened Executor
  import opened Routing
  import opened Effect
  import opened Desired
  import opened Convergence
  import opened Runs
  import opened Stability

  // ---------- the lists declared for a place ----------

  /** All entries of schema `s` of database `d`. */
  function SchemaEntries(spec: seq<DatabaseSpec>, d: string, s: string): set<SchemaSpec> {
    set e, t | e in spec && e.name == d && t in e.schemas && t.name == s :: t
  }

  /** A schema entry that neither names the object nor has a `*` entry for its kind. */
  predicate LeavesOut(t: SchemaSpec, k: Kind, n: string) {
    !Declares(t.objects.Of(k), n) && !Declares(t.objects.Of(k), "*")
  }

  /** The lists of privileges declared for a place; leaving it out where it could be listed is listing nothing. */
  function ListsOf(spec: seq<DatabaseSpec>, p: Place): set<set<string>> {
    match p
    case DatabasePlace(d) =>
      (set e | e in spec && e.name == d :: AsSet(e.privileges)) + if DeclaresDatabase(spec, d) then {} else {{}}
    case SchemaPlace(d, s) => set t | t in SchemaEntries(spec, d, s) :: AsSet(t.privileges)
    case ObjectPlace(d, k, s, n) =>
      (set t, o | t in SchemaEntries(spec, d, s) && o in t.objects.Of(k) && o.name == n :: AsSet(o.privileges))
      + if exists t <- SchemaEntries(spec, d, s) :: LeavesOut(t, k, n) then {{}} else {}
  }

  /** The lists of the `*` entries that reach a place. */
  function StarsOf(spec: seq<DatabaseSpec>, p: Place): set<set<string>> {
    if p.ObjectPlace? then
      set t, o | t in SchemaEntries(spec, p.database, p.schema) && o in t.objects.Of(p.kind) && o.name == "*"
        :: AsSet(o.privileges)
    else {}
  }

  // ---------- one turn ----------

  function TakenByLists(p: Place, lists: set<set<string>>, v: set<string>): set<string> {
    set l, q | l in lists && q in Expand(p, v - l) :: q
  }

  function GivenByLists(p: Place, lists: set<set<string>>, v: set<string>): set<string> {
    set l, q | l in lists && q in Expand(p, l - v) :: q
  }

  function GivenByStars(p: Place, stars: set<set<string>>): set<string> {
    set w, q | w in stars && q in Expand(p, w) :: q
  }

  /** Every list takes what is held and not in it, then every list gives what is in it and was not held. */
  function Turn(p: Place, lists: set<set<string>>, stars: set<set<string>>, v: set<string>): set<string> {
    (v - TakenByLists(p, lists, v)) + GivenByLists(p, lists, v) + GivenByStars(p, stars)
  }

  /**
   What is held after a turn: what a `*` list gives, what some list gives anew, and what was held and every
   list has.
  */
  lemma TurnExactly(p: Place, lists: set<set<string>>, stars: set<set<string>>, v: set<string>, q: string)
    requires "ALL" !in v
    ensures q in Turn(p, lists, stars, v) <==>
      || q in GivenByStars(p, stars)
      || (exists l :: l in lists && q in Expand(p, l - v))
      || (q in v && forall l :: l in lists ==> q in l)
    ensures "ALL" !in Turn(p, lists, stars, v)
  {
    assert "ALL" !in Universe(p);
    forall l: set<string> ensures Expand(p, v - l) == v - l {
      assert "ALL" !in v - l;
    }
    assert q in TakenByLists(p, lists, v) <==> exists l :: l in lists && q in v - l;
  }

  /** A star list, or ALL in some list, gives it at every turn. */
  predicate Covered(p: Place, lists: set<set<string>>, stars: set<set<string>>, q: string) {
    q in GivenByStars(p, stars) || (q in Universe(p) && exists l <- lists :: "ALL" in l)
  }

  /** Some list has it, some list has not, and nothing else gives it. */
  ghost predicate Disputed(p: Place, lists: set<set<string>>, stars: set<set<string>>, q: string) {
    q != "ALL" && !Covered(p, lists, stars, q)
    && (exists l :: l in lists && q in l) && (exists l :: l in lists && q !in l)
  }

  ghost predicate Undisputed(p: Place, lists: set<set<string>>, stars: set<set<string>>) {
    forall q :: !Disputed(p, lists, stars, q)
  }

  /** A disputed privilege is held after a turn exactly if it was not held before. */
  lemma DisputedToggles(p: Place, lists: set<set<string>>, stars: set<set<string>>, v: set<string>, q: string)
    requires "ALL" !in v && Disputed(p, lists, stars, q)
    ensures q in Turn(p, lists, stars, v) <==> q !in v
  {
    TurnExactly(p, lists, stars, v, q);
    if q !in v {
      var l :| l in lists && q in l;
      assert q in Expand(p, l - v);
    }
  }

  /** Any other is held after every turn or after none, or is left as it was where nothing is listed. */
  lemma UndisputedStays(p: Place, lists: set<set<string>>, stars: set<set<string>>, v: set<string>, q: string)
    requires "ALL" !in v && !Disputed(p, lists, stars, q)
    ensures var u := Turn(p, lists, stars, v); q in Turn(p, lists, stars, u) <==> q in u
  {
    var u := Turn(p, lists, stars, v);
    TurnExactly(p, lists, stars, v, q);
    TurnExactly(p, lists, stars, u, q);
    if q != "ALL" {
      if Covered(p, lists, stars, q) {
        CoveredIsGiven(p, lists, stars, v, q);
        CoveredIsGiven(p, lists, stars, u, q);
      } else {
        UncoveredTurn(p, lists, stars, v, q);
        UncoveredTurn(p, lists, stars, u, q);
      }
    }
  }

  lemma CoveredIsGiven(p: Place, lists: set<set<string>>, stars: set<set<string>>, v: set<string>, q: string)
    requires "ALL" !in v && Covered(p, lists, stars, q)
    ensures q in Turn(p, lists, stars, v)
  {
    TurnExactly(p, lists, stars, v, q);
    if q !in GivenByStars(p, stars) {
      var l :| l in lists && "ALL" in l;
      assert "ALL" in l - v && q in Expand(p, l - v);
    }
  }

  lemma UncoveredTurn(p: Place, lists: set<set<string>>, stars: set<set<string>>, v: set<string>, q: string)
    requires "ALL" !in v && q != "ALL" && !Covered(p, lists, stars, q)
    ensures q in Turn(p, lists, stars, v) <==>
      if q in v then forall l :: l in lists ==> q in l else exists l :: l in lists && q in l
  {
    TurnExactly(p, lists, stars, v, q);
    forall l | l in lists ensures q in Expand(p, l - v) <==> q in l - v {
      assert "ALL" in l ==> q !in Universe(p);
    }
  }

  /** From any start: the second turn changes nothing if and only if nothing is disputed. */
  lemma TurnSettlesExactly(p: Place, lists: set<set<string>>, stars: set<set<string>>, v: set<string>)
    requires "ALL" !in v
    ensures var u := Turn(p, lists, stars, v); Turn(p, lists, stars, u) == u <==> Undisputed(p, lists, stars)
  {
    var u := Turn(p, lists, stars, v);
    TurnExactly(p, lists, stars, v, "ALL");
    if Undisputed(p, lists, stars) {
      forall q ensures q in Turn(p, lists, stars, u) <==> q in u {
        UndisputedStays(p, lists, stars, v, q);
      }
    } else {
      var q :| Disputed(p, lists, stars, q);
      DisputedToggles(p, lists, stars, u, q);
    }
  }

  /**
   In terms of the lists,
     where they list what the place can have or ALL: nothing is disputed exactly if one of them lists
   ALL, or all agree on what no `*` entry gives.
   */
  lemma WhichListsSettle(p: Place, lists: set<set<string>>, stars: set<set<string>>)
    requires forall l :: l in lists ==> l <= Universe(p) + {"ALL"}
    ensures var given := GivenByStars(p, stars);
      Undisputed(p, lists, stars) <==>
        (exists l :: l in lists && "ALL" in l) || (forall l, m :: l in lists && m in lists ==> l - given == m - given)
  {
    var given := GivenByStars(p, stars);
    if !(exists l :: l in lists && "ALL" in l) {
      if l, m :| l in lists && m in lists && l - given != m - given {
        var q :| q in l - given - (m - given) || q in m - given - (l - given);
        assert Disputed(p, lists, stars, q);
      }
      forall q | Disputed(p, lists, stars, q)
        ensures !(forall l, m :: l in lists && m in lists ==> l - given == m - given)
      {
        var l, m :| l in lists && m in lists && q in l && q !in m;
        assert q in l - given && q !in m - given;
      }
    }
  }

  // ---------- what entries ask for ----------

  /** The demands of one schema entry about objects of one kind. */
  function KindPart(k: Kind, t: SchemaSpec, actual: seq<ObjectPrivilege>): set<Demand> {
    OrphanDemands(k, t.name, t.objects.Of(k), actual) + EntryDemands(k, t.name, t.objects.Of(k), actual)
  }

  /** The snapshot's list says of an object what is held. */
  ghost predicate ListsObject(p: Place, actual: seq<ObjectPrivilege>, v: set<string>)
    requires p.ObjectPlace?
  {
    && p.name != "*" && "*" !in ObjectNames(actual) && v <= Universe(p)
    && AsSet(ObjectNamed(actual, p.name).privileges) == v && (p.name in ObjectNames(actual) <==> v != {})
  }

  /** What one entry gives a place: its own for what is not held, a `*` entry in any case. */
  predicate EntryGiving(p: Place, o: ObjectSpec, v: set<string>, q: string)
    requires p.ObjectPlace?
  {
    || (o.name == p.name && q in Expand(p, AsSet(o.privileges) - v))
    || (o.name == "*" && q in Expand(p, AsSet(o.privileges)))
  }

  lemma StarHeld(p: Place, actual: seq<ObjectPrivilege>, v: set<string>, o: ObjectSpec)
    requires p.ObjectPlace? && ListsObject(p, actual, v) && (o.name == p.name || o.name == "*")
    ensures AsSet(o.privileges) - AsSet(ObjectNamed(actual, o.name).privileges)
      == AsSet(o.privileges) - if o.name == "*" then {} else v
    ensures o.name == "*" ==> AsSet(ObjectNamed(actual, o.name).privileges) == {}
  {
    if o.name == "*" {
      ObjectNamedAbsent(actual, "*");
    }
  }

  lemma GivenByEntry(p: Place, t: SchemaSpec, actual: seq<ObjectPrivilege>, v: set<string>, o: ObjectSpec, q: string)
    requires p.ObjectPlace? && ListsObject(p, actual, v) && t.name == p.schema
    requires o in t.objects.Of(p.kind) && EntryGiving(p, o, v, q)
    ensures q in GivenBy(KindPart(p.kind, t, actual), p)
  {
    var held, target := AsSet(ObjectNamed(actual, o.name).privileges), TargetFor(p.kind, t.name, o.name);
    StarHeld(p, actual, v, o);
    var x := Demand(Grant, AsSet(o.privileges) - held, target);
    assert AsSet(o.privileges) - {} == AsSet(o.privileges);
    assert x.privs != {};
    assert x in DiffDemands(target, held, AsSet(o.privileges));
    assert x in EntryDemands(p.kind, t.name, t.objects.Of(p.kind), actual) && Covers(x.target, p.database, p);
  }

  lemma EntryGives(p: Place, t: SchemaSpec, actual: seq<ObjectPrivilege>, v: set<string>, q: string)
    requires p.ObjectPlace? && ListsObject(p, actual, v) && t.name == p.schema
    ensures q in GivenBy(KindPart(p.kind, t, actual), p) <==>
      exists o :: o in t.objects.Of(p.kind) && EntryGiving(p, o, v, q)
  {
    var part, entries := KindPart(p.kind, t, actual), t.objects.Of(p.kind);
    if q in GivenBy(part, p) {
      var x :| x in part && x.verb.Grant? && Covers(x.target, p.database, p) && q in Expand(p, x.privs);
      var o :| o in entries && x in DiffDemands(TargetFor(p.kind, t.name, o.name),
        AsSet(ObjectNamed(actual, o.name).privileges), AsSet(o.privileges));
      StarHeld(p, actual, v, o);
      assert AsSet(o.privileges) - {} == AsSet(o.privileges);
    }
    forall o | o in entries && EntryGiving(p, o, v, q) ensures q in GivenBy(part, p) {
      GivenByEntry(p, t, actual, v, o, q);
    }
  }

  lemma EntryTakes(p: Place, t: SchemaSpec, actual: seq<ObjectPrivilege>, v: set<string>, q: string)
    requires p.ObjectPlace? && ListsObject(p, actual, v) && t.name == p.schema && q in v
    ensures q in TakenBy(KindPart(p.kind, t, actual), p) <==>
      || LeavesOut(t, p.kind, p.name)
      || exists o :: o in t.objects.Of(p.kind) && o.name == p.name && q in Expand(p, v - AsSet(o.privileges))
  {
    var part, entries := KindPart(p.kind, t, actual), t.objects.Of(p.kind);
    ObjectNamedAbsent(actual, "*");
    assert AsSet(ObjectNamed(actual, "*").privileges) == {};
    if q in TakenBy(part, p) && !LeavesOut(t, p.kind, p.name) {
      var x :| x in part && x.verb.Revoke? && Covers(x.target, p.database, p) && q in Expand(p, x.privs);
      assert x in EntryDemands(p.kind, t.name, entries, actual);
      var o :| o in entries && x in DiffDemands(TargetFor(p.kind, t.name, o.name),
        AsSet(ObjectNamed(actual, o.name).privileges), AsSet(o.privileges));
      assert o.name == p.name;
    }
    if LeavesOut(t, p.kind, p.name) {
      var x := Demand(Revoke, {"ALL"}, TargetFor(p.kind, t.name, p.name));
      assert x in OrphanDemands(p.kind, t.name, entries, actual) && q in Expand(p, x.privs);
    }
    forall o | o in entries && o.name == p.name && q in Expand(p, v - AsSet(o.privileges))
      ensures q in TakenBy(part, p) {
      var x := Demand(Revoke, v - AsSet(o.privileges), TargetFor(p.kind, t.name, p.name));
      assert x in DiffDemands(TargetFor(p.kind, t.name, o.name), v, AsSet(o.privileges));
      assert x in EntryDemands(p.kind, t.name, entries, actual);
    }
  }

  /** The demands about a schema and what is in it come from its entries. */
  lemma GroupByEntries(spec: seq<DatabaseSpec>, snap: seq<DatabaseSnapshot>, d: string, s: string, x: Demand)
    requires !x.target.OnDatabase? && x.target.schema == s
    ensures x in GroupDemands(spec, snap, d) <==>
      exists t :: t in SchemaEntries(spec, d, s) && x in SchemaDemands(t, SnapshotOf(snap, d, s))
  {
    if x in GroupDemands(spec, snap, d) {
      var e :| e in spec && e.name == d && x in SchemasDemands(e.schemas, DatabaseNamed(snap, d));
      var t :| t in e.schemas && x in SchemaDemands(t, SnapshotOf(snap, d, t.name));
      SchemaDemandsShape(t, SnapshotOf(snap, d, t.name), x);
      assert t in SchemaEntries(spec, d, s);
    }
    forall t | t in SchemaEntries(spec, d, s) && x in SchemaDemands(t, SnapshotOf(snap, d, s))
      ensures x in GroupDemands(spec, snap, d)
    {
      var e :| e in spec && e.name == d && t in e.schemas;
      assert x in SchemasDemands(e.schemas, DatabaseNamed(snap, d));
    }
  }

  lemma ObjectByEntries(user: string, spec: seq<DatabaseSpec>, snap: seq<DatabaseSnapshot>, plan: Plan, p: Place,
                        x: Demand)
    requires IsPlan(user, spec, snap, plan) && PlanShaped(plan) && Named(plan.groups)
    requires p.ObjectPlace? && Covers(x.target, p.database, p)
    ensures x in Deciding(plan, p) <==>
      exists t :: t in SchemaEntries(spec, p.database, p.schema)
        && x in KindPart(p.kind, t, HeldObjects(SnapshotOf(snap, p.database, p.schema), p.kind))
  {
    var actual := SnapshotOf(snap, p.database, p.schema);
    GroupDecides(user, spec, snap, plan, p, x);
    GroupByEntries(spec, snap, p.database, p.schema, x);
    forall t | t in SchemaEntries(spec, p.database, p.schema)
      ensures x in SchemaDemands(t, actual) <==> x in KindPart(p.kind, t, HeldObjects(actual, p.kind))
    {
      KindLevelDemands(t, actual, p.kind, x);
    }
  }

  /** The effect of a plan on an object is that of the entries of its schema together. */
  lemma ObjectByParts(user: string, spec: seq<DatabaseSpec>, snap: seq<DatabaseSnapshot>, plan: Plan, p: Place,
                      q: string)
    requires IsPlan(user, spec, snap, plan) && PlanShaped(plan) && Named(plan.groups) && p.ObjectPlace?
    ensures var actual := HeldObjects(SnapshotOf(snap, p.database, p.schema), p.kind);
      && (q in GivenBy(Deciding(plan, p), p) <==>
          exists t :: t in SchemaEntries(spec, p.database, p.schema) && q in GivenBy(KindPart(p.kind, t, actual), p))
      && (q in TakenBy(Deciding(plan, p), p) <==>
          exists t :: t in SchemaEntries(spec, p.database, p.schema) && q in TakenBy(KindPart(p.kind, t, actual), p))
  {
    var actual := HeldObjects(SnapshotOf(snap, p.database, p.schema), p.kind);
    var parts := set t, x | t in SchemaEntries(spec, p.database, p.schema) && x in KindPart(p.kind, t, actual) :: x;
    forall x: Demand | Covers(x.target, p.database, p) ensures x in Deciding(plan, p) <==> x in parts {
      ObjectByEntries(user, spec, snap, plan, p, x);
    }
    SameEffect(Deciding(plan, p), parts, p);
  }

  lemma ObjectGiven(user: string, spec: seq<DatabaseSpec>, snap: seq<DatabaseSnapshot>, plan: Plan, p: Place,
                    v: set<string>, q: string)
    requires IsPlan(user, spec, snap, plan) && PlanShaped(plan) && Named(plan.groups) && p.ObjectPlace?
    requires ListsObject(p, HeldObjects(SnapshotOf(snap, p.database, p.schema), p.kind), v)
    ensures q in GivenBy(Deciding(plan, p), p) <==>
      q in GivenByLists(p, ListsOf(spec, p), v) || q in GivenByStars(p, StarsOf(spec, p))
  {
    var actual := HeldObjects(SnapshotOf(snap, p.database, p.schema), p.kind);
    ObjectByParts(user, spec, snap, plan, p, q);
    forall t | t in SchemaEntries(spec, p.database, p.schema)
      ensures q in GivenBy(KindPart(p.kind, t, actual), p) <==>
        exists o :: o in t.objects.Of(p.kind) && EntryGiving(p, o, v, q)
    {
      EntryGives(p, t, actual, v, q);
    }
    ListsGive(spec, p, v, q);
  }

  /** The same of the lists of those entries. */
  lemma ListsGive(spec: seq<DatabaseSpec>, p: Place, v: set<string>, q: string)
    requires p.ObjectPlace?
    ensures q in GivenByLists(p, ListsOf(spec, p), v) || q in GivenByStars(p, StarsOf(spec, p)) <==>
      exists t, o ::
        t in SchemaEntries(spec, p.database, p.schema) && o in t.objects.Of(p.kind) && EntryGiving(p, o, v, q)
  {
    assert {} - v == {} && Expand(p, {}) == {};
    if q in GivenByLists(p, ListsOf(spec, p), v) {
      var l :| l in ListsOf(spec, p) && q in Expand(p, l - v);
      assert l != {};
      var t, o :| t in SchemaEntries(spec, p.database, p.schema) && o in t.objects.Of(p.kind) && o.name == p.name
        && l == AsSet(o.privileges);
      assert EntryGiving(p, o, v, q);
    } else if q in GivenByStars(p, StarsOf(spec, p)) {
      var w :| w in StarsOf(spec, p) && q in Expand(p, w);
      var t, o :| t in SchemaEntries(spec, p.database, p.schema) && o in t.objects.Of(p.kind) && o.name == "*"
        && w == AsSet(o.privileges);
      assert EntryGiving(p, o, v, q);
    }
    forall t, o | t in SchemaEntries(spec, p.database, p.schema) && o in t.objects.Of(p.kind) && EntryGiving(p, o, v, q)
      ensures q in GivenByLists(p, ListsOf(spec, p), v) || q in GivenByStars(p, StarsOf(spec, p))
    {
      if o.name == p.name && q in Expand(p, AsSet(o.privileges) - v) {
        assert AsSet(o.privileges) in ListsOf(spec, p);
      } else {
        assert AsSet(o.privileges) in StarsOf(spec, p);
      }
    }
  }

  /** What one schema entry takes from an object. */
  ghost predicate EntryTaking(p: Place, t: SchemaSpec, v: set<string>, q: string)
    requires p.ObjectPlace?
  {
    || LeavesOut(t, p.kind, p.name)
    || exists o :: o in t.objects.Of(p.kind) && o.name == p.name && q in Expand(p, v - AsSet(o.privileges))
  }

  lemma ListsTake(spec: seq<DatabaseSpec>, p: Place, v: set<string>, q: string)
    requires p.ObjectPlace? && q in v && v <= Universe(p)
    ensures q in TakenByLists(p, ListsOf(spec, p), v) <==>
      exists t :: t in SchemaEntries(spec, p.database, p.schema) && EntryTaking(p, t, v, q)
  {
    assert v - {} == v && "ALL" !in v && q in Expand(p, v - {});
    if q in TakenByLists(p, ListsOf(spec, p), v) {
      var l :| l in ListsOf(spec, p) && q in Expand(p, v - l);
      if !(exists t <- SchemaEntries(spec, p.database, p.schema) :: LeavesOut(t, p.kind, p.name)) {
        var t, o :| t in SchemaEntries(spec, p.database, p.schema) && o in t.objects.Of(p.kind) && o.name == p.name
          && l == AsSet(o.privileges);
        assert EntryTaking(p, t, v, q);
      } else {
        var t :| t in SchemaEntries(spec, p.database, p.schema) && LeavesOut(t, p.kind, p.name);
        assert EntryTaking(p, t, v, q);
      }
    }
    forall t | t in SchemaEntries(spec, p.database, p.schema) && EntryTaking(p, t, v, q)
      ensures q in TakenByLists(p, ListsOf(spec, p), v)
    {
      if LeavesOut(t, p.kind, p.name) {
        assert {} in ListsOf(spec, p);
      } else {
        var o :| o in t.objects.Of(p.kind) && o.name == p.name && q in Expand(p, v - AsSet(o.privileges));
        assert AsSet(o.privileges) in ListsOf(spec, p);
      }
    }
  }

  lemma ObjectTakenAway(user: string, spec: seq<DatabaseSpec>, snap: seq<DatabaseSnapshot>, plan: Plan, p: Place,
                        v: set<string>, q: string)
    requires IsPlan(user, spec, snap, plan) && PlanShaped(plan) && Named(plan.groups) && p.ObjectPlace?
    requires ListsObject(p, HeldObjects(SnapshotOf(snap, p.database, p.schema), p.kind), v) && q in v
    ensures q in TakenBy(Deciding(plan, p), p) <==> q in TakenByLists(p, ListsOf(spec, p), v)
  {
    var actual := HeldObjects(SnapshotOf(snap, p.database, p.schema), p.kind);
    ObjectByParts(user, spec, snap, plan, p, q);
    forall t | t in SchemaEntries(spec, p.database, p.schema)
      ensures q in TakenBy(KindPart(p.kind, t, actual), p) <==> EntryTaking(p, t, v, q)
    {
      EntryTakes(p, t, actual, v, q);
    }
    ListsTake(spec, p, v, q);
  }

  // ---------- a pass is a turn ----------

  /** The snapshot lists what the place is in, so that the planner knows what is held on it. */
  predicate Listed(snap: seq<DatabaseSnapshot>, p: Place) {
    if p.DatabasePlace? then DatabaseNamed(snap, p.database).Some? else SnapshotOf(snap, p.database, p.schema).Some?
  }

  /** What a plan does to a place it knows is one turn of the lists declared for it. */
  lemma PlanTurns(user: string, spec: seq<DatabaseSpec>, snap: seq<DatabaseSnapshot>, plan: Plan, cells: Cells,
                  p: Place)
    requires IsPlan(user, spec, snap, plan) && PlanShaped(plan) && Named(plan.groups)
    requires WellTyped(cells) && Faithful(user, snap, cells) && Cell(user, p) in cells && Listed(snap, p)
    ensures var v := cells[Cell(user, p)];
      (v - TakenBy(Deciding(plan, p), p)) + GivenBy(Deciding(plan, p), p)
        == Turn(p, ListsOf(spec, p), StarsOf(spec, p), v)
  {
    var v, lists, stars := cells[Cell(user, p)], ListsOf(spec, p), StarsOf(spec, p);
    forall q
      ensures q in (v - TakenBy(Deciding(plan, p), p)) + GivenBy(Deciding(plan, p), p) <==>
        q in Turn(p, lists, stars, v)
    {
      match p
      case DatabasePlace(d) => DatabaseTurns(user, spec, snap, plan, cells, d, q);
      case SchemaPlace(d, s) => SchemaTurns(user, spec, snap, plan, cells, d, s, q);
      case ObjectPlace(_, _, _, _) =>
        ObjectHeld(user, snap, cells, p);
        ObjectGiven(user, spec, snap, plan, p, v, q);
        if q in v {
          ObjectTakenAway(user, spec, snap, plan, p, v, q);
        }
    }
  }

  lemma DiffGivesAndTakes(target: Target, p: Place, held: set<string>, l: set<string>, q: string)
    requires Covers(target, p.database, p)
    ensures q in GivenBy(DiffDemands(target, held, l), p) <==> q in Expand(p, l - held)
    ensures q in TakenBy(DiffDemands(target, held, l), p) <==> q in Expand(p, held - l)
  {
    DiffEffect(target, p, held, l);
  }

  lemma SchemaTurns(user: string, spec: seq<DatabaseSpec>, snap: seq<DatabaseSnapshot>, plan: Plan, cells: Cells,
                    d: string, s: string, q: string)
    requires IsPlan(user, spec, snap, plan) && PlanShaped(plan) && Named(plan.groups)
    requires WellTyped(cells) && Faithful(user, snap, cells) && Cell(user, SchemaPlace(d, s)) in cells
    requires SnapshotOf(snap, d, s).Some?
    ensures var p := SchemaPlace(d, s); var v := cells[Cell(user, p)];
      && (q in GivenBy(Deciding(plan, p), p) <==> q in GivenByLists(p, ListsOf(spec, p), v))
      && (q in TakenBy(Deciding(plan, p), p) <==> q in TakenByLists(p, ListsOf(spec, p), v))
  {
    var p, actual := SchemaPlace(d, s), SnapshotOf(snap, d, s);
    var v := cells[Cell(user, p)];
    assert AsSet(Held(actual)) == v by {
      assert FaithfulSchema(user, d, s, actual.value, cells);
    }
    var parts := set t, x | t in SchemaEntries(spec, d, s) && x in DiffDemands(OnSchema(s), v, AsSet(t.privileges)) ::
      x;
    forall x: Demand | Covers(x.target, d, p) ensures x in Deciding(plan, p) <==> x in parts {
      GroupDecides(user, spec, snap, plan, p, x);
      GroupByEntries(spec, snap, d, s, x);
      forall t | t in SchemaEntries(spec, d, s)
        ensures x in SchemaDemands(t, actual) <==> x in DiffDemands(OnSchema(s), v, AsSet(t.privileges))
      {
        SchemaLevelDemands(t, actual, x);
      }
    }
    SameEffect(Deciding(plan, p), parts, p);
    PartsGiveAndTake(OnSchema(s), p, v, ListsOf(spec, p), parts, q);
  }

  /** Diffs against several lists together. */
  lemma PartsGiveAndTake(target: Target, p: Place, v: set<string>, lists: set<set<string>>, parts: set<Demand>,
                         q: string)
    requires Covers(target, p.database, p)
    requires forall x :: x in parts <==> exists l :: l in lists && x in DiffDemands(target, v, l)
    ensures q in GivenBy(parts, p) <==> q in GivenByLists(p, lists, v)
    ensures q in TakenBy(parts, p) <==> q in TakenByLists(p, lists, v)
  {
    forall l | l in lists
      ensures q in Expand(p, l - v) ==> q in GivenBy(parts, p)
      ensures q in Expand(p, v - l) ==> q in TakenBy(parts, p)
    {
      DiffGivesAndTakes(target, p, v, l, q);
      assert forall x :: x in DiffDemands(target, v, l) ==> x in parts;
    }
    if q in GivenBy(parts, p) {
      var x :| x in parts && x.verb.Grant? && Covers(x.target, p.database, p) && q in Expand(p, x.privs);
      var l :| l in lists && x in DiffDemands(target, v, l);
      DiffGivesAndTakes(target, p, v, l, q);
    }
    if q in TakenBy(parts, p) {
      var x :| x in parts && x.verb.Revoke? && Covers(x.target, p.database, p) && q in Expand(p, x.privs);
      var l :| l in lists && x in DiffDemands(target, v, l);
      DiffGivesAndTakes(target, p, v, l, q);
    }
  }

  /** The demands about a database: its entries' diffs, or its revocation when it has none. */
  lemma DatabaseByEntries(user: string, spec: seq<DatabaseSpec>, snap: seq<DatabaseSnapshot>, plan: Plan, d: string,
                          x: Demand)
    requires IsPlan(user, spec, snap, plan) && x.target == OnDatabase(d)
    ensures var held := HeldOnDatabase(DatabaseNamed(snap, d));
      x in Deciding(plan, DatabasePlace(d)) <==>
        || (exists e :: e in spec && e.name == d && x in DiffDemands(OnDatabase(d), AsSet(held), AsSet(e.privileges)))
        || (!DeclaresDatabase(spec, d) && held != [] && x in Wholesale(OnDatabase(d)))
  {
    DatabaseListed(snap, d);
    if x in DatabaseDemands(spec, snap) {
      var f :| f in spec
        && x in DiffDemands(OnDatabase(f.name), AsSet(HeldOnDatabase(DatabaseNamed(snap, f.name))),
          AsSet(f.privileges));
      DiffTarget(OnDatabase(f.name), AsSet(HeldOnDatabase(DatabaseNamed(snap, f.name))), AsSet(f.privileges));
      assert f.name == d;
    }
    if !DeclaresDatabase(spec, d) && HeldOnDatabase(DatabaseNamed(snap, d)) != [] {
      assert DatabaseNamed(snap, d).value in snap;
    }
  }

  lemma DatabaseTurns(user: string, spec: seq<DatabaseSpec>, snap: seq<DatabaseSnapshot>, plan: Plan, cells: Cells,
                      d: string, q: string)
    requires IsPlan(user, spec, snap, plan) && WellTyped(cells) && Faithful(user, snap, cells)
    requires Cell(user, DatabasePlace(d)) in cells && DatabaseNamed(snap, d).Some?
    ensures var p := DatabasePlace(d); var v := cells[Cell(user, p)];
      && (q in GivenBy(Deciding(plan, p), p) <==> q in GivenByLists(p, ListsOf(spec, p), v))
      && (q in v ==> (q in TakenBy(Deciding(plan, p), p) <==> q in TakenByLists(p, ListsOf(spec, p), v)))
  {
    var p := DatabasePlace(d);
    var v, held := cells[Cell(user, p)], HeldOnDatabase(DatabaseNamed(snap, d));
    assert AsSet(held) == v <= Universe(p) by {
      assert FaithfulDatabase(user, d, DatabaseNamed(snap, d).value, cells);
    }
    forall x: Demand | Covers(x.target, d, p)
      ensures x in Deciding(plan, p) <==>
        || (exists e :: e in spec && e.name == d && x in DiffDemands(OnDatabase(d), v, AsSet(e.privileges)))
        || (!DeclaresDatabase(spec, d) && held != [] && x in Wholesale(OnDatabase(d)))
    {
      DatabaseByEntries(user, spec, snap, plan, d, x);
    }
    if DeclaresDatabase(spec, d) {
      var parts :=
        set e, x | e in spec && e.name == d && x in DiffDemands(OnDatabase(d), v, AsSet(e.privileges)) :: x;
      SameEffect(Deciding(plan, p), parts, p);
      PartsGiveAndTake(OnDatabase(d), p, v, ListsOf(spec, p), parts, q);
    } else {
      UndeclaredTurns(plan, p, d, v, held, q);
      assert ListsOf(spec, p) == {{}};
    }
  }

  lemma UndeclaredTurns(plan: Plan, p: Place, d: string, v: set<string>, held: seq<string>, q: string)
    requires p == DatabasePlace(d) && v == AsSet(held) <= Universe(p)
    requires forall x: Demand :: Covers(x.target, d, p) ==>
      (x in Deciding(plan, p) <==> held != [] && x in Wholesale(OnDatabase(d)))
    ensures q in GivenBy(Deciding(plan, p), p) <==> q in GivenByLists(p, {{}}, v)
    ensures q in v ==> (q in TakenBy(Deciding(plan, p), p) <==> q in TakenByLists(p, {{}}, v))
  {
    var part: set<Demand> := if held != [] then Wholesale(OnDatabase(d)) else {};
    SameEffect(Deciding(plan, p), part, p);
    WholesaleEffect(OnDatabase(d), p);
    assert {} - v == {} && v - {} == v && "ALL" !in v;
    assert Expand(p, {}) == {} && Expand(p, v) == v;
    assert q in v ==> held != [];
    var none: set<string> := {};
    assert none in {none};
  }

  /** A complete pass leaves a place it knows as one turn does. */
  lemma PassTurns(user: string, spec: seq<DatabaseSpec>, pass: Pass, c: Cell)
    requires InformedPass(user, spec, pass) && Routed(pass.log) && CompleteOn(pass, c)
    requires c in pass.before && c.grantee == user && Listed(pass.snap, c.place)
    ensures c in pass.After()
    ensures pass.After()[c] == Turn(c.place, ListsOf(spec, c.place), StarsOf(spec, c.place), pass.before[c])
  {
    InformedIsPlanned(user, spec, pass);
    ReplayPerCell(pass.before, pass.log);
    CompleteValue(user, spec, pass, c, pass.before[c]);
    PlanTurns(user, spec, pass.snap, pass.plan, pass.before, c.place);
  }

  /**
   When passes settle, whatever names repeat in the declaration and from any start: a second complete pass changes a
   place both passes know, if and only if something about it is disputed.
   */
  lemma DuplicatesExactly(user: string, spec: seq<DatabaseSpec>, first: Pass, second: Pass, c: Cell)
    requires InformedPass(user, spec, first) && Routed(first.log) && CompleteOn(first, c) && Listed(first.snap, c.place)
    requires InformedPass(user, spec, second) && Routed(second.log) && CompleteOn(second, c)
      && Listed(second.snap, c.place)
    requires second.before == first.After() && c in first.before && c.grantee == user
    ensures c in first.After() && c in second.After()
    ensures second.After()[c] == first.After()[c] <==>
      Undisputed(c.place, ListsOf(spec, c.place), StarsOf(spec, c.place))
  {
    PassTurns(user, spec, first, c);
    PassTurns(user, spec, second, c);
    assert "ALL" !in first.before[c] by {
      UniverseWords(c.place);
    }
    TurnSettlesExactly(c.place, ListsOf(spec, c.place), StarsOf(spec, c.place), first.before[c]);
  }

  // ---------- distinct names ----------

  /** With distinct names at most one list is declared for a place, and nothing is disputed. */
  lemma DistinctIsUndisputed(spec: seq<DatabaseSpec>, p: Place)
    requires DistinctNames(spec)
    ensures forall l, m :: l in ListsOf(spec, p) && m in ListsOf(spec, p) ==> l == m
    ensures Undisputed(p, ListsOf(spec, p), StarsOf(spec, p))
  {
    DeclaredDatabaseUnique(spec, p.database);
    if !p.DatabasePlace? {
      OneSchemaEntry(spec, p.database, p.schema);
      if p.ObjectPlace? && DeclaredSchema(spec, p.database, p.schema).Some? {
        var t := DeclaredSchema(spec, p.database, p.schema).value;
        SchemaEntryNamed(spec, p.database, p.schema);
        KindListed(p.kind);
        ObjectEntryUnique(t.objects.Of(p.kind), p.name);
      }
    }
  }

  lemma OneSchemaEntry(spec: seq<DatabaseSpec>, d: string, s: string)
    requires DistinctNames(spec)
    ensures forall t :: t in SchemaEntries(spec, d, s) <==> DeclaredSchema(spec, d, s) == Some(t)
  {
    DeclaredDatabaseUnique(spec, d);
    if DeclaredDatabase(spec, d).Some? {
      SchemaEntryUnique(DeclaredDatabase(spec, d).value.schemas, s);
    }
  }

  // ---------- a table listed twice ----------

  function TwiceListed(first: string, second: string): seq<ObjectSpec> {
    [ObjectSpec("t", [first], false), ObjectSpec("t", [second], false)]
  }

  function TwiceSpec(first: string, second: string): seq<DatabaseSpec> {
    var tables := Listing(TwiceListed(first, second), [], [], [], [], [], []);
    [DatabaseSpec("d", ["CONNECT"], false, [SchemaSpec("s", ["USAGE"], false, tables)])]
  }

  /** The table holds `held`, and everything above it what is declared. */
  function TwiceCells(held: string): Cells {
    map[Cell("u", DatabasePlace("d")) := {"CONNECT"}, Cell("u", SchemaPlace("d", "s")) := {"USAGE"},
        Cell("u", LATE_TABLE) := {held}]
  }

  function TwiceSnapshot(held: string): seq<DatabaseSnapshot> {
    LateSnapshot([TwiceSchema(held)])
  }

  function TwiceSchema(held: string): SchemaSnapshot {
    SchemaSnapshot("s", ["USAGE"], false, Listing([ObjectPrivilege("t", [held], false)], [], [], [], [], [], []))
  }

  predicate OnTables(privs: set<string>) { privs <= Universe(LATE_TABLE) }

  lemma TwiceLookups(held: string)
    ensures forall d ::
              DatabaseNamed(TwiceSnapshot(held), d) ==
              (if d == "d" then Some(DatabaseSnapshot("d", ["CONNECT"], false, [TwiceSchema(held)])) else None)
    ensures forall s :: SchemaNamed([TwiceSchema(held)], s) == (if s == "s" then Some(TwiceSchema(held)) else None)
  {
    var snap, schemas := TwiceSnapshot(held), [TwiceSchema(held)];
    assert snap[..0] == [] && schemas[..0] == [];
  }

  lemma TwiceFaithful(held: string)
    requires OnTables({held})
    ensures WellTyped(TwiceCells(held)) && Faithful("u", TwiceSnapshot(held), TwiceCells(held))
  {
    TwiceLookups(held);
    assert AsSet(["CONNECT"]) == {"CONNECT"} && AsSet(["USAGE"]) == {"USAGE"} && AsSet([held]) == {held};
    var sc, cells := TwiceSchema(held), TwiceCells(held);
    var tables := sc.objects.Of(Table);
    assert tables[0].name == "t" && ObjectNames(tables) == {"t"};
    assert FaithfulSchema("u", "d", "s", sc, cells) by {
      assert forall k, n :: n in ObjectNames(sc.objects.Of(k)) ==> k == Table && n == "t";
    }
    assert FaithfulDatabase("u", "d", TwiceSnapshot(held)[0], cells);
  }

  lemma TwiceWords(first: string, second: string)
    requires OnTables({first, second})
    ensures WordsDeclared(TwiceSpec(first, second)) && !DeclaresDatabase(TwiceSpec(first, second), "")
  {
    var spec := TwiceSpec(first, second);
    assert forall e :: e in spec ==> e == spec[0];
    assert "CONNECT" in Universe(DatabasePlace("d")) && "USAGE" in Universe(SchemaPlace("d", "s"));
    UniverseWords(DatabasePlace("d"));
    UniverseWords(SchemaPlace("d", "s"));
    UniverseWords(LATE_TABLE);
  }

  ghost function TwicePass(first: string, second: string, held: string, start: string): Pass {
    PassOf("u", TwiceSpec(first, second), TwiceSnapshot(held), TwiceCells(held), start, "d")
  }

  lemma TwiceEntries(first: string, second: string)
    ensures var t := TwiceSpec(first, second)[0].schemas[0];
      && SchemaEntries(TwiceSpec(first, second), "d", "s") == {t} && t.objects.Of(Table) == TwiceListed(first, second)
      && forall o ::
        o in t.objects.Of(Table) <==> o in {ObjectSpec("t", [first], false), ObjectSpec("t", [second], false)}
  {
    var spec, entries := TwiceSpec(first, second), TwiceListed(first, second);
    assert forall e :: e in spec <==> e == spec[0];
    assert entries[0] in entries && entries[1] in entries;
  }

  lemma TwiceListsOf(first: string, second: string)
    ensures ListsOf(TwiceSpec(first, second), LATE_TABLE) == {{first}, {second}}
    ensures StarsOf(TwiceSpec(first, second), LATE_TABLE) == {}
  {
    assert AsSet([first]) == {first} && AsSet([second]) == {second};
    TwiceEntries(first, second);
    assert ObjectSpec("t", [first], false).name == "t" != "*";
    assert !LeavesOut(TwiceSpec(first, second)[0].schemas[0], Table, "t");
  }

  lemma TwiceListsAbove(first: string, second: string)
    ensures ListsOf(TwiceSpec(first, second), DatabasePlace("d")) == {{"CONNECT"}}
    ensures ListsOf(TwiceSpec(first, second), SchemaPlace("d", "s")) == {{"USAGE"}}
  {
    var spec := TwiceSpec(first, second);
    assert AsSet(["CONNECT"]) == {"CONNECT"} && AsSet(["USAGE"]) == {"USAGE"};
    assert forall e :: e in spec <==> e == spec[0];
    TwiceEntries(first, second);
  }

  lemma OneListTurn(p: Place, l: set<string>)
    requires l <= Universe(p)
    ensures Turn(p, {l}, {}, l) == l
  {
    assert "ALL" !in l by {
      UniverseWords(p);
    }
    assert l - l == {} && l in {l};
  }

  lemma TwoListsTurn(p: Place, held: string, other: string)
    requires held != other && {held, other} <= Universe(p)
    ensures Turn(p, {{held}, {other}}, {}, {held}) == {other}
  {
    UniverseWords(p);
    assert {other} - {held} == {other} && {held} - {other} == {held} && {held} - {held} == {};
    assert {held} in {{held}, {other}} && {other} in {{held}, {other}};
    assert Expand(p, {other}) == {other} && Expand(p, {held}) == {held};
  }

  lemma TwiceInformed(first: string, second: string, held: string, start: string)
    requires OnTables({first, second, held})
    ensures var pass := TwicePass(first, second, held, start);
      InformedPass("u", TwiceSpec(first, second), pass) && Routed(pass.log) && CompleteEverywhere(pass)
  {
    var spec, snap, cells := TwiceSpec(first, second), TwiceSnapshot(held), TwiceCells(held);
    TwiceFaithful(held);
    TwiceWords(first, second);
    OneDatabaseDisjoint(spec, snap);
    PassExists("u", spec, snap, cells, start, "d");
    TextsDisjointExactly("u", spec, snap, cells);
    PlanIsShaped("u", spec, snap, TwicePass(first, second, held, start).plan, cells);
  }

  /** `u` is one turn of what the cell held. */
  predicate IsTurn(spec: seq<DatabaseSpec>, pass: Pass, c: Cell, u: set<string>)
    requires c in pass.before
  {
    u == Turn(c.place, ListsOf(spec, c.place), StarsOf(spec, c.place), pass.before[c])
  }

  lemma EveryCellTurns(user: string, spec: seq<DatabaseSpec>, pass: Pass, after: Cells)
    requires InformedPass(user, spec, pass) && Routed(pass.log) && CompleteEverywhere(pass)
    requires after.Keys == pass.before.Keys
    requires forall c ::
      c in after ==> c.grantee == user && Listed(pass.snap, c.place) && IsTurn(spec, pass, c, after[c])
    ensures pass.After() == after
  {
    forall c | c in after ensures c in pass.After() && pass.After()[c] == after[c] {
      CellTurns(user, spec, pass, c, after[c]);
    }
    CellByCell(pass, after);
  }

  lemma CellTurns(user: string, spec: seq<DatabaseSpec>, pass: Pass, c: Cell, u: set<string>)
    requires InformedPass(user, spec, pass) && Routed(pass.log) && CompleteOn(pass, c)
    requires c in pass.before && c.grantee == user && Listed(pass.snap, c.place) && IsTurn(spec, pass, c, u)
    ensures c in pass.After() && pass.After()[c] == u
  {
    PassTurns(user, spec, pass, c);
  }

  lemma TwiceTurn(first: string, second: string, held: string, other: string, c: Cell)
    requires first != second && OnTables({first, second}) && c in TwiceCells(held)
    requires (held, other) in {(first, second), (second, first)}
    ensures var spec := TwiceSpec(first, second);
      TwiceCells(other)[c] == Turn(c.place, ListsOf(spec, c.place), StarsOf(spec, c.place), TwiceCells(held)[c])
  {
    if c.place == LATE_TABLE {
      TwiceListsOf(first, second);
      assert {{first}, {second}} == {{held}, {other}};
      TwoListsTurn(c.place, held, other);
    } else {
      TwiceListsAbove(first, second);
      OneListTurn(c.place, TwiceCells(held)[c]);
    }
  }

  lemma TwiceIsListed(held: string, c: Cell)
    requires c in TwiceCells(held)
    ensures c.grantee == "u" && Listed(TwiceSnapshot(held), c.place)
  {
    TwiceLookups(held);
  }

  lemma TwiceTurns(first: string, second: string, held: string, other: string, pass: Pass)
    requires first != second && OnTables({first, second})
    requires (held, other) in {(first, second), (second, first)}
    requires pass.before == TwiceCells(held) && pass.snap == TwiceSnapshot(held)
    requires InformedPass("u", TwiceSpec(first, second), pass) && Routed(pass.log) && CompleteEverywhere(pass)
    ensures pass.After() == TwiceCells(other)
  {
    var spec, after := TwiceSpec(first, second), TwiceCells(other);
    assert after.Keys == pass.before.Keys;
    forall c | c in after
      ensures c.grantee == "u" && Listed(pass.snap, c.place)
      ensures IsTurn(spec, pass, c, after[c])
    {
      TwiceIsListed(held, c);
      TwiceTurn(first, second, held, other, c);
    }
    EveryCellTurns("u", spec, pass, after);
  }

  /** A table listed once with SELECT and once with INSERT: complete passes swap the two for ever. */
  lemma DuplicatesOscillate(start: string)
    ensures var spec, one, two := TwiceSpec("SELECT", "INSERT"), TwicePass("SELECT", "INSERT", "SELECT", start),
      TwicePass("SELECT", "INSERT", "INSERT", start);
      && InformedPass("u", spec, one) && Routed(one.log) && CompleteEverywhere(one)
      && InformedPass("u", spec, two) && Routed(two.log) && CompleteEverywhere(two)
      && one.before == two.After() == TwiceCells("SELECT") && two.before == one.After() == TwiceCells("INSERT")
  {
    TwiceInformed("SELECT", "INSERT", "SELECT", start);
    TwiceInformed("SELECT", "INSERT", "INSERT", start);
    TwiceTurns("SELECT", "INSERT", "SELECT", "INSERT", TwicePass("SELECT", "INSERT", "SELECT", start));
    TwiceTurns("SELECT", "INSERT", "INSERT", "SELECT", TwicePass("SELECT", "INSERT", "INSERT", start));
  }
}
