/** Building the snapshot from catalog rows, and what it then says about the server. */
module Snapshot {
  import opened Sql
  import opened Privileges
  import opened Wrappers
  import opened Acl
  import opened Server
  import opened Desired

  /** A catalog row, or a row that could not be scanned. */
  datatype Row = Row(name: string, acl: Option<string>) | Unreadable

  datatype Result<+T> = Fetched(value: T) | ScanError

  // ---------- specification ----------

  function Mapped(t: LetterTable, ps: seq<PrivilegeGrant>): seq<string> {
    if ps == [] then []
    else
      var last := MapChar(t, ps[|ps| - 1].privilege);
      Mapped(t, ps[..|ps| - 1]) + if last != "" then [last] else []
  }

  /** Does a mapped privilege carry a grant option? */
  predicate Grantable(t: LetterTable, ps: seq<PrivilegeGrant>) {
    exists p <- ps :: p.withGrantOption && MapChar(t, p.privilege) != ""
  }

  /** The user's entries of a list, mapped; those that map to nothing are dropped. */
  function HeldIn(t: LetterTable, name: string, user: string, ups: seq<UserPrivileges>): seq<ObjectPrivilege> {
    if ups == [] then []
    else
      var last := ups[|ups| - 1];
      var privs := Mapped(t, last.privileges);
      HeldIn(t, name, user, ups[..|ups| - 1])
      + if last.user == user && privs != [] then [ObjectPrivilege(name, privs, Grantable(t, last.privileges))] else []
  }

  function HeldInRow(t: LetterTable, user: string, row: Row): seq<ObjectPrivilege> {
    if row.Row? && row.acl.Some? then HeldIn(t, row.name, user, AclIn(row.acl.value)) else []
  }

  function HeldInRows(t: LetterTable, user: string, rows: seq<Row>): seq<ObjectPrivilege> {
    if rows == [] then []
    else HeldInRows(t, user, rows[..|rows| - 1]) + HeldInRow(t, user, rows[|rows| - 1])
  }

  predicate Readable(rows: seq<Row>) {
    forall r <- rows :: r.Row?
  }

  function FetchedFrom(t: LetterTable, user: string, rows: seq<Row>): Result<seq<ObjectPrivilege>> {
    if Readable(rows) then Fetched(HeldInRows(t, user, rows)) else ScanError
  }

  // ---------- the fetches ----------

  method MapPrivileges(t: LetterTable, ps: seq<PrivilegeGrant>) returns (privs: seq<string>, grantOption: bool)
    ensures privs == Mapped(t, ps) && grantOption == Grantable(t, ps)
  {
    privs, grantOption := [], false;
    for i := 0 to |ps|
      invariant privs == Mapped(t, ps[..i]) && grantOption == Grantable(t, ps[..i])
    {
      assert ps[..i + 1][..i] == ps[..i] && ps[..i + 1] == ps[..i] + [ps[i]];
      var privType := MapChar(t, ps[i].privilege);
      if privType != "" {
        privs := privs + [privType];
        if ps[i].withGrantOption {
          grantOption := true;
        }
      }
    }
    assert ps[..|ps|] == ps;
  }

  lemma EntriesStep(t: LetterTable, name: string, user: string, ups: seq<UserPrivileges>, i: nat)
    requires i < |ups|
    ensures var privs := Mapped(t, ups[i].privileges);
      HeldIn(t, name, user, ups[..i + 1]) == HeldIn(t, name, user, ups[..i])
        + if ups[i].user == user && privs != [] then [ObjectPrivilege(name, privs, Grantable(t, ups[i].privileges))]
          else []
  {
    assert ups[..i + 1][..i] == ups[..i];
  }

  method CollectUser(t: LetterTable, name: string, user: string, ups: seq<UserPrivileges>, before: seq<ObjectPrivilege>)
    returns (results: seq<ObjectPrivilege>)
    ensures results == before + HeldIn(t, name, user, ups)
  {
    results := before;
    for i := 0 to |ups|
      invariant results == before + HeldIn(t, name, user, ups[..i])
    {
      EntriesStep(t, name, user, ups, i);
      if ups[i].user == user {
        var privs, grantOption := MapPrivileges(t, ups[i].privileges);
        if |privs| > 0 {
          results := results + [ObjectPrivilege(name, privs, grantOption)];
        }
      }
    }
    assert ups[..|ups|] == ups;
  }

  /** fetchObjectPrivsCustom; schema-level rows are read the same way. */
  method FetchPrivileges(t: LetterTable, user: string, rows: seq<Row>) returns (r: Result<seq<ObjectPrivilege>>)
    ensures r == FetchedFrom(t, user, rows)
  {
    var results: seq<ObjectPrivilege> := [];
    for i := 0 to |rows|
      invariant Readable(rows[..i])
      invariant results == HeldInRows(t, user, rows[..i])
    {
      if rows[i].Unreadable? {
        assert rows[i] in rows;
        return ScanError;
      }
      RowsStep(t, user, rows, i);
      if rows[i].acl.Some? {
        var ups := ParseACL(rows[i].acl.value);
        results := CollectUser(t, rows[i].name, user, ups, results);
      }
    }
    assert rows[..|rows|] == rows;
    return Fetched(results);
  }

  lemma RowsStep(t: LetterTable, user: string, rows: seq<Row>, i: nat)
    requires i < |rows| && rows[i].Row? && Readable(rows[..i])
    ensures Readable(rows[..i + 1])
    ensures HeldInRows(t, user, rows[..i + 1]) == HeldInRows(t, user, rows[..i])
      + if rows[i].acl.Some? then HeldIn(t, rows[i].name, user, AclIn(rows[i].acl.value)) else []
  {
    assert rows[..i + 1][..i] == rows[..i] && rows[..i + 1] == rows[..i] + [rows[i]];
  }

  /** The last entry of the user in a list, mapped; present even when nothing is mapped. */
  function LastIn(name: string, user: string, ups: seq<UserPrivileges>): Option<ObjectPrivilege> {
    if ups == [] then None
    else
      var last := ups[|ups| - 1];
      if last.user == user
      then Some(ObjectPrivilege(name, Mapped(DatabaseLetters, last.privileges),
        Grantable(DatabaseLetters, last.privileges)))
      else LastIn(name, user, ups[..|ups| - 1])
  }

  function Recorded(before: map<string, ObjectPrivilege>, l: Option<ObjectPrivilege>): map<string, ObjectPrivilege> {
    if l.Some? then before[l.value.name := l.value] else before
  }

  /** What the database rows say: later rows and entries overwrite earlier ones. */
  function DatabasesIn(user: string, rows: seq<Row>): map<string, ObjectPrivilege> {
    if rows == [] then map[]
    else
      var last := rows[|rows| - 1];
      Recorded(DatabasesIn(user, rows[..|rows| - 1]),
               if last.Row? && last.acl.Some? then LastIn(last.name, user, AclIn(last.acl.value)) else None)
  }

  method RecordUser(name: string, user: string, ups: seq<UserPrivileges>, before: map<string, ObjectPrivilege>)
    returns (results: map<string, ObjectPrivilege>)
    ensures results == Recorded(before, LastIn(name, user, ups))
  {
    results := before;
    for j := 0 to |ups|
      invariant results == Recorded(before, LastIn(name, user, ups[..j]))
    {
      assert ups[..j + 1][..j] == ups[..j];
      if ups[j].user == user {
        var privs, grantOption := MapPrivileges(DatabaseLetters, ups[j].privileges);
        var now := ObjectPrivilege(name, privs, grantOption);
        LastInName(name, user, ups[..j]);
        assert results[name := now] == before[name := now];
        results := results[name := now];
      }
    }
    assert ups[..|ups|] == ups;
  }

  lemma DatabasesStep(user: string, rows: seq<Row>, i: nat)
    requires i < |rows| && rows[i].Row? && Readable(rows[..i])
    ensures Readable(rows[..i + 1])
    ensures DatabasesIn(user, rows[..i + 1]) == Recorded(DatabasesIn(user, rows[..i]),
      if rows[i].acl.Some? then LastIn(rows[i].name, user, AclIn(rows[i].acl.value)) else None)
  {
    assert rows[..i + 1][..i] == rows[..i] && rows[..i + 1] == rows[..i] + [rows[i]];
  }

  method FetchDatabases(user: string, rows: seq<Row>) returns (r: Result<map<string, ObjectPrivilege>>)
    ensures r == if Readable(rows) then Fetched(DatabasesIn(user, rows)) else ScanError
  {
    var results: map<string, ObjectPrivilege> := map[];
    for i := 0 to |rows|
      invariant Readable(rows[..i])
      invariant results == DatabasesIn(user, rows[..i])
    {
      if rows[i].Unreadable? {
        assert rows[i] in rows;
        return ScanError;
      }
      DatabasesStep(user, rows, i);
      if rows[i].acl.Some? {
        var ups := ParseACL(rows[i].acl.value);
        results := RecordUser(rows[i].name, user, ups, results);
      }
    }
    assert rows[..|rows|] == rows;
    return Fetched(results);
  }

  /** The catalog one session sees: all databases, and the schemas and objects of its own. */
  datatype Catalog = Catalog(databases: seq<Row>, schemas: seq<Row>, objects: map<(Kind, string), seq<Row>>)
  {
    function Rows(k: Kind, schema: string): seq<Row> {
      if (k, schema) in objects then objects[(k, schema)] else []
    }
  }

  function FetchListing(cat: Catalog, user: string, schema: string): Listing<ObjectPrivilege> {
    Listing(HeldInRows(ObjectLetters(Table), user, cat.Rows(Table, schema)),
            HeldInRows(ObjectLetters(View), user, cat.Rows(View, schema)),
            HeldInRows(ObjectLetters(MaterializedView), user, cat.Rows(MaterializedView, schema)),
            HeldInRows(ObjectLetters(Source), user, cat.Rows(Source, schema)),
            HeldInRows(ObjectLetters(Sink), user, cat.Rows(Sink, schema)),
            HeldInRows(ObjectLetters(Secret), user, cat.Rows(Secret, schema)),
            HeldInRows(ObjectLetters(Function), user, cat.Rows(Function, schema)))
  }

  function SchemasFrom(cat: Catalog, user: string, held: seq<ObjectPrivilege>): (schemas: seq<SchemaSnapshot>)
    ensures |schemas| == |held|
  {
    if held == [] then []
    else
      var last := held[|held| - 1];
      SchemasFrom(cat, user, held[..|held| - 1])
      + [SchemaSnapshot(last.name, last.privileges, last.withGrantOption, FetchListing(cat, user, last.name))]
  }

  predicate AllReadable(cat: Catalog) {
    Readable(cat.databases) && Readable(cat.schemas) && forall key <- cat.objects :: Readable(cat.objects[key])
  }

  predicate ObjectsReadable(cat: Catalog, schema: string) {
    forall k <- KINDS :: Readable(cat.Rows(k, schema))
  }

  method FetchObjects(cat: Catalog, user: string, schema: string) returns (r: Result<Listing<ObjectPrivilege>>)
    ensures r ==
      if ObjectsReadable(cat, schema) then Fetched(FetchListing(cat, user, schema)) else ScanError
  {
    forall k ensures k in KINDS { KindListed(k); }
    var tables := FetchPrivileges(ObjectLetters(Table), user, cat.Rows(Table, schema));
    if tables.ScanError? { return ScanError; }
    var views := FetchPrivileges(ObjectLetters(View), user, cat.Rows(View, schema));
    if views.ScanError? { return ScanError; }
    var mvs := FetchPrivileges(ObjectLetters(MaterializedView), user, cat.Rows(MaterializedView, schema));
    if mvs.ScanError? { return ScanError; }
    var sources := FetchPrivileges(ObjectLetters(Source), user, cat.Rows(Source, schema));
    if sources.ScanError? { return ScanError; }
    var sinks := FetchPrivileges(ObjectLetters(Sink), user, cat.Rows(Sink, schema));
    if sinks.ScanError? { return ScanError; }
    var secrets := FetchPrivileges(ObjectLetters(Secret), user, cat.Rows(Secret, schema));
    if secrets.ScanError? { return ScanError; }
    var functions := FetchPrivileges(ObjectLetters(Function), user, cat.Rows(Function, schema));
    if functions.ScanError? { return ScanError; }
    return Fetched(Listing(tables.value, views.value, mvs.value, sources.value, sinks.value, secrets.value,
      functions.value));
  }

  /** The schema rows can be read, and so can all lists of the schemas where the user holds something. */
  predicate SchemasReadable(cat: Catalog, user: string) {
    Readable(cat.schemas)
    && ListingsReadable(cat, HeldInRows(SchemaLetters, user, cat.schemas))
  }

  predicate ListingsReadable(cat: Catalog, held: seq<ObjectPrivilege>) {
    forall h <- held :: ObjectsReadable(cat, h.name)
  }

  lemma SchemasStep(cat: Catalog, user: string, held: seq<ObjectPrivilege>, i: nat)
    requires i < |held|
    ensures ListingsReadable(cat, held[..i + 1])
      <==> ListingsReadable(cat, held[..i]) && ObjectsReadable(cat, held[i].name)
    ensures var h := held[i];
      SchemasFrom(cat, user, held[..i + 1]) == SchemasFrom(cat, user, held[..i])
        + [SchemaSnapshot(h.name, h.privileges, h.withGrantOption, FetchListing(cat, user, h.name))]
  {
    assert held[..i + 1][..i] == held[..i] && held[..i + 1] == held[..i] + [held[i]];
  }

  /** Fails exactly when a list it reads has an unreadable row: that of the schemas, or one of a listed schema. */
  method FetchSchemas(cat: Catalog, user: string) returns (r: Result<seq<SchemaSnapshot>>)
    ensures r.Fetched? <==> SchemasReadable(cat, user)
    ensures r.Fetched? ==> r.value == SchemasFrom(cat, user, HeldInRows(SchemaLetters, user, cat.schemas))
  {
    var held := FetchPrivileges(SchemaLetters, user, cat.schemas);
    if held.ScanError? { return ScanError; }
    var schemas: seq<SchemaSnapshot> := [];
    for i := 0 to |held.value|
      invariant schemas == SchemasFrom(cat, user, held.value[..i])
      invariant ListingsReadable(cat, held.value[..i])
    {
      var h := held.value[i];
      SchemasStep(cat, user, held.value, i);
      var objects := FetchObjects(cat, user, h.name);
      if objects.ScanError? {
        assert h in held.value && !ObjectsReadable(cat, h.name);
        return ScanError;
      }
      schemas := schemas + [SchemaSnapshot(h.name, h.privileges, h.withGrantOption, objects.value)];
    }
    assert held.value[..|held.value|] == held.value;
    return Fetched(schemas);
  }

  /** Every list the fetch reads is readable: the schemas only once some database names the user. */
  predicate CatalogReadable(cat: Catalog, user: string) {
    Readable(cat.databases) && (DatabasesIn(user, cat.databases) != map[] ==> SchemasReadable(cat, user))
  }

  lemma AllReadableIsEnough(cat: Catalog, user: string)
    requires AllReadable(cat)
    ensures CatalogReadable(cat, user)
  {
    forall k, schema ensures Readable(cat.Rows(k, schema)) {
      if (k, schema) in cat.objects {
        assert Readable(cat.objects[(k, schema)]);
      }
    }
  }

  /** Every listed database gets the schemas of the session's database: there is no USE between. */
  method FetchSnapshot(cat: Catalog, user: string) returns (r: Result<seq<DatabaseSnapshot>>)
    ensures r.Fetched? <==> CatalogReadable(cat, user)
    ensures r.Fetched? ==> SnapshotOfCatalog(cat, user, r.value)
  {
    var dbs := FetchDatabases(user, cat.databases);
    if dbs.ScanError? { return ScanError; }
    var snap: seq<DatabaseSnapshot> := [];
    var todo := dbs.value.Keys;
    while todo != {}
      invariant todo <= dbs.value.Keys
      invariant forall a :: a in snap ==> ListedAs(cat, user, dbs.value, a)
      invariant NamesOf(snap) == dbs.value.Keys - todo
      invariant todo == dbs.value.Keys || SchemasReadable(cat, user)
    {
      var d :| d in todo;
      assert d in dbs.value && dbs.value != map[];
      var schemas := FetchSchemas(cat, user);
      if schemas.ScanError? { return ScanError; }
      todo := todo - {d};
      var a := DatabaseSnapshot(d, dbs.value[d].privileges, dbs.value[d].withGrantOption, schemas.value);
      assert NamesOf(snap + [a]) == NamesOf(snap) + {d};
      snap := snap + [a];
    }
    assert dbs.value != map[] ==> dbs.value.Keys != {};
    return Fetched(snap);
  }

  function NamesOf(snap: seq<DatabaseSnapshot>): set<string> {
    set a | a in snap :: a.name
  }

  ghost predicate ListedAs(cat: Catalog, user: string, dbs: map<string, ObjectPrivilege>, a: DatabaseSnapshot) {
    && a.name in dbs && a.privileges == dbs[a.name].privileges && a.withGrantOption == dbs[a.name].withGrantOption
    && a.schemas == SchemasFrom(cat, user, HeldInRows(SchemaLetters, user, cat.schemas))
  }

  /** The snapshot lists the databases of the database rows, each with the session's schemas. */
  ghost predicate SnapshotOfCatalog(cat: Catalog, user: string, snap: seq<DatabaseSnapshot>) {
    var dbs := DatabasesIn(user, cat.databases);
    && (forall a :: a in snap ==> ListedAs(cat, user, dbs, a))
    && NamesOf(snap) == dbs.Keys
  }

  // ---------- faithfulness of one list ----------

  /** One list entry per grantee. */
  ghost predicate OneEntry(user: string, row: Row) {
    row.Row? && row.acl.Some? ==> AtMostOneEntry(user, AclIn(row.acl.value))
  }

  /** Readable rows with distinct names and one entry for the user. */
  ghost predicate ProperRows(user: string, rows: seq<Row>) {
    && Readable(rows)
    && (forall i, j :: 0 <= i < j < |rows| && rows[i].Row? && rows[j].Row? ==> rows[i].name != rows[j].name)
    && (forall i :: 0 <= i < |rows| ==> OneEntry(user, rows[i]))
  }

  ghost function LettersSay(t: LetterTable, ps: seq<PrivilegeGrant>): set<string> {
    set p | p in ps && MapChar(t, p.privilege) != "" :: MapChar(t, p.privilege)
  }

  ghost function EntriesSay(t: LetterTable, user: string, ups: seq<UserPrivileges>): set<string> {
    set u, q | u in ups && u.user == user && q in LettersSay(t, u.privileges) :: q
  }

  /** What a row's list says the user holds: one privilege per letter that means something. */
  ghost function SaidBy(t: LetterTable, user: string, row: Row): set<string> {
    if row.Row? && row.acl.Some? then EntriesSay(t, user, AclIn(row.acl.value)) else {}
  }

  lemma {:induction false} MappedSet(t: LetterTable, ps: seq<PrivilegeGrant>)
    ensures AsSet(Mapped(t, ps)) == LettersSay(t, ps)
  {
    if ps != [] {
      var front, last := ps[..|ps| - 1], ps[|ps| - 1];
      var more := if MapChar(t, last.privilege) != "" then [MapChar(t, last.privilege)] else [];
      MappedSet(t, front);
      assert ps == front + [last];
      assert AsSet(Mapped(t, ps)) == AsSet(Mapped(t, front)) + AsSet(more);
      assert LettersSay(t, ps) == LettersSay(t, front) + AsSet(more);
    }
  }

  ghost predicate NoEntry(user: string, ups: seq<UserPrivileges>) {
    forall i :: 0 <= i < |ups| ==> ups[i].user != user
  }

  ghost predicate AtMostOneEntry(user: string, ups: seq<UserPrivileges>) {
    forall i, j :: 0 <= i < j < |ups| && ups[i].user == user ==> ups[j].user != user
  }

  lemma {:induction false} HeldInAbsent(t: LetterTable, name: string, user: string, ups: seq<UserPrivileges>)
    requires NoEntry(user, ups)
    ensures HeldIn(t, name, user, ups) == [] && EntriesSay(t, user, ups) == {}
  {
    if ups != [] {
      HeldInAbsent(t, name, user, ups[..|ups| - 1]);
    }
  }

  lemma EntriesSayMore(t: LetterTable, user: string, ups: seq<UserPrivileges>, last: UserPrivileges)
    ensures EntriesSay(t, user, ups + [last])
      == EntriesSay(t, user, ups) + if last.user == user then LettersSay(t, last.privileges) else {}
  {
  }

  /** At most one listed object per list, with exactly what the list says. */
  lemma {:induction false} HeldInOnce(t: LetterTable, name: string, user: string, ups: seq<UserPrivileges>)
    requires AtMostOneEntry(user, ups)
    ensures var held := HeldIn(t, name, user, ups);
      if EntriesSay(t, user, ups) == {} then held == []
      else |held| == 1 && held[0].name == name && AsSet(held[0].privileges) == EntriesSay(t, user, ups)
  {
    if ups != [] {
      var n := |ups| - 1;
      var front, last := ups[..n], ups[n];
      assert ups == front + [last];
      EntriesSayMore(t, user, front, last);
      if last.user == user {
        forall i | 0 <= i < n ensures front[i].user != user { assert ups[i] == front[i]; }
        HeldInAbsent(t, name, user, front);
        MappedSet(t, last.privileges);
        var privs := Mapped(t, last.privileges);
        assert privs != [] ==> privs[0] in AsSet(privs);
      } else {
        HeldInOnce(t, name, user, front);
      }
    }
  }

  lemma RowOnce(t: LetterTable, user: string, row: Row)
    requires row.Row? && OneEntry(user, row)
    ensures var held := HeldInRow(t, user, row);
      if SaidBy(t, user, row) == {} then held == []
      else |held| == 1 && held[0].name == row.name && AsSet(held[0].privileges) == SaidBy(t, user, row)
  {
    if row.acl.Some? {
      HeldInOnce(t, row.name, user, AclIn(row.acl.value));
    }
  }

  lemma ProperFront(user: string, rows: seq<Row>)
    requires ProperRows(user, rows) && rows != []
    ensures ProperRows(user, rows[..|rows| - 1])
    ensures rows[|rows| - 1].Row? && OneEntry(user, rows[|rows| - 1])
  {
    var n := |rows| - 1;
    assert rows[n] in rows;
    assert forall i :: 0 <= i < n ==> rows[..n][i] == rows[i];
    forall r | r in rows[..n] ensures r.Row? { assert r in rows; }
  }

  ghost predicate SaysOf(t: LetterTable, user: string, r: Row, o: ObjectPrivilege) {
    r.Row? && r.name == o.name && SaidBy(t, user, r) != {} && AsSet(o.privileges) == SaidBy(t, user, r)
  }

  /** Every listed object comes from a row of its name that says something. */
  lemma {:induction false} ListedHasRow(t: LetterTable, user: string, rows: seq<Row>, o: ObjectPrivilege)
    returns (i: nat)
    requires ProperRows(user, rows) && o in HeldInRows(t, user, rows)
    ensures i < |rows| && SaysOf(t, user, rows[i], o)
  {
    var n := |rows| - 1;
    ProperFront(user, rows);
    if o in HeldInRows(t, user, rows[..n]) {
      i := ListedHasRow(t, user, rows[..n], o);
      assert rows[..n][i] == rows[i];
    } else {
      assert o in HeldInRow(t, user, rows[n]);
      RowOnce(t, user, rows[n]);
      i := n;
    }
  }

  /** Every row that says something is listed. */
  lemma {:induction false} RowIsListed(t: LetterTable, user: string, rows: seq<Row>, i: nat)
    returns (o: ObjectPrivilege)
    requires ProperRows(user, rows) && i < |rows| && SaidBy(t, user, rows[i]) != {}
    ensures o in HeldInRows(t, user, rows) && o.name == rows[i].name
  {
    ProperFront(user, rows);
    var n := |rows| - 1;
    if i == n {
      RowOnce(t, user, rows[n]);
      o := HeldInRow(t, user, rows[n])[0];
    } else {
      o := RowIsListed(t, user, rows[..n], i);
    }
  }

  /**
   The fetched list holds exactly the objects on which the user has a mapped privilege, each
   once, with exactly the mapped set.
   */
  lemma FetchFaithful(t: LetterTable, user: string, rows: seq<Row>, i: nat)
    requires ProperRows(user, rows) && i < |rows|
    ensures forall n :: n in ObjectNames(HeldInRows(t, user, rows)) ==> exists r :: r in rows && r.Row? && r.name == n
    ensures rows[i].name in ObjectNames(HeldInRows(t, user, rows)) <==> SaidBy(t, user, rows[i]) != {}
    ensures AsSet(ObjectNamed(HeldInRows(t, user, rows), rows[i].name).privileges) == SaidBy(t, user, rows[i])
    ensures NamedOnce(HeldInRows(t, user, rows))
  {
    var held := HeldInRows(t, user, rows);
    if SaidBy(t, user, rows[i]) != {} {
      var _ := RowIsListed(t, user, rows, i);
    }
    assert rows[i] in rows;
    if rows[i].name in ObjectNames(held) {
      FirstIsMember(held, rows[i].name);
      var j := ListedHasRow(t, user, rows, ObjectNamed(held, rows[i].name));
      assert rows[j] in rows;
    } else {
      ObjectNamedAbsent(held, rows[i].name);
    }
    ListedOnce(t, user, rows);
    forall n | n in ObjectNames(held) ensures exists r :: r in rows && r.Row? && r.name == n {
      var o :| o in held && o.name == n;
      var j := ListedHasRow(t, user, rows, o);
      assert rows[j] in rows;
    }
  }

  ghost predicate NamedOnce(objects: seq<ObjectPrivilege>) {
    forall i, j :: 0 <= i < j < |objects| ==> objects[i].name != objects[j].name
  }

  lemma NamedOnceGrows(held: seq<ObjectPrivilege>, more: seq<ObjectPrivilege>, name: string)
    requires NamedOnce(held) && forall i :: 0 <= i < |held| ==> held[i].name != name
    requires more == [] || (|more| == 1 && more[0].name == name)
    ensures NamedOnce(held + more)
  {
  }

  lemma {:induction false} FirstIsMember(objects: seq<ObjectPrivilege>, n: string)
    requires n in ObjectNames(objects)
    ensures ObjectNamed(objects, n) in objects && ObjectNamed(objects, n).name == n
  {
    if objects[0].name != n {
      var o :| o in objects && o.name == n;
      assert o in objects[1..];
      FirstIsMember(objects[1..], n);
    }
  }

  lemma {:induction false} ListedOnce(t: LetterTable, user: string, rows: seq<Row>)
    requires ProperRows(user, rows)
    ensures NamedOnce(HeldInRows(t, user, rows))
  {
    if rows != [] {
      var n := |rows| - 1;
      ProperFront(user, rows);
      ListedOnce(t, user, rows[..n]);
      RowOnce(t, user, rows[n]);
      var held := HeldInRows(t, user, rows[..n]);
      forall i | 0 <= i < |held| ensures held[i].name != rows[n].name {
        var j := ListedHasRow(t, user, rows[..n], held[i]);
        assert rows[..n][j] == rows[j];
      }
      var more := HeldInRow(t, user, rows[n]);
      assert more == [] || (|more| == 1 && more[0].name == rows[n].name);
      NamedOnceGrows(held, more, rows[n].name);
    }
  }

  // ---------- faithfulness of the whole snapshot ----------

  /** The last entry for a user, when there is at most one, is what the list says. */
  lemma {:induction false} LastInSays(name: string, user: string, ups: seq<UserPrivileges>)
    requires AtMostOneEntry(user, ups)
    ensures var l := LastIn(name, user, ups);
      if l.None? then NoEntry(user, ups) && EntriesSay(DatabaseLetters, user, ups) == {}
      else AsSet(l.value.privileges) == EntriesSay(DatabaseLetters, user, ups)
  {
    if ups != [] {
      var n := |ups| - 1;
      var front, last := ups[..n], ups[n];
      assert ups == front + [last];
      EntriesSayMore(DatabaseLetters, user, front, last);
      if last.user == user {
        forall i | 0 <= i < n ensures front[i].user != user { assert ups[i] == front[i]; }
        HeldInAbsent(DatabaseLetters, name, user, front);
        MappedSet(DatabaseLetters, last.privileges);
      } else {
        LastInSays(name, user, front);
      }
    }
  }

  /** Is the user named in a row's list at all? */
  ghost predicate Mentioned(user: string, row: Row) {
    row.Row? && row.acl.Some? && !NoEntry(user, AclIn(row.acl.value))
  }

  lemma {:induction false} MentionedHasLast(name: string, user: string, ups: seq<UserPrivileges>)
    ensures LastIn(name, user, ups).Some? <==> !NoEntry(user, ups)
  {
    if ups != [] {
      var n := |ups| - 1;
      MentionedHasLast(name, user, ups[..n]);
      assert forall i :: 0 <= i < n ==> ups[..n][i] == ups[i];
      assert NoEntry(user, ups) <==> NoEntry(user, ups[..n]) && ups[n].user != user;
    }
  }

  lemma LastInName(name: string, user: string, ups: seq<UserPrivileges>)
    ensures LastIn(name, user, ups).Some? ==> LastIn(name, user, ups).value.name == name
  {
  }

  /** The last row adds its database if its list names the user, and nothing else. */
  lemma LastRowRecords(user: string, rows: seq<Row>, d: string)
    requires rows != [] && rows[|rows| - 1].Row?
    ensures var n := |rows| - 1;
      d in DatabasesIn(user, rows) <==>
        d in DatabasesIn(user, rows[..n]) || (Mentioned(user, rows[n]) && rows[n].name == d)
  {
    var last := rows[|rows| - 1];
    if last.acl.Some? {
      LastInName(last.name, user, AclIn(last.acl.value));
      MentionedHasLast(last.name, user, AclIn(last.acl.value));
    }
  }

  /** The database map has only databases whose lists name the user. */
  lemma {:induction false} RecordedIsMentioned(user: string, rows: seq<Row>, d: string) returns (i: nat)
    requires ProperRows(user, rows) && d in DatabasesIn(user, rows)
    ensures i < |rows| && rows[i].name == d && Mentioned(user, rows[i])
  {
    i := |rows| - 1;
    ProperFront(user, rows);
    LastRowRecords(user, rows, d);
    if d in DatabasesIn(user, rows[..i]) {
      i := RecordedIsMentioned(user, rows[..i], d);
    }
  }

  /** It has all of them, with what those lists say. */
  lemma {:induction false} MentionedIsRecorded(user: string, rows: seq<Row>, i: nat)
    requires ProperRows(user, rows) && i < |rows| && Mentioned(user, rows[i])
    ensures rows[i].name in DatabasesIn(user, rows)
    ensures AsSet(DatabasesIn(user, rows)[rows[i].name].privileges) == SaidBy(DatabaseLetters, user, rows[i])
  {
    ProperFront(user, rows);
    var n := |rows| - 1;
    assert rows[i] in rows;
    if rows[n].acl.Some? {
      LastInName(rows[n].name, user, AclIn(rows[n].acl.value));
      LastInSays(rows[n].name, user, AclIn(rows[n].acl.value));
      MentionedHasLast(rows[n].name, user, AclIn(rows[n].acl.value));
    }
    if i < n {
      MentionedIsRecorded(user, rows[..n], i);
    }
  }

  lemma {:induction false} SchemasNamed(cat: Catalog, user: string, held: seq<ObjectPrivilege>, s: string)
    requires NamedOnce(held)
    ensures SchemaNamed(SchemasFrom(cat, user, held), s) ==
      (if s in ObjectNames(held) then
        var h := ObjectNamed(held, s);
        Some(SchemaSnapshot(s, h.privileges, h.withGrantOption, FetchListing(cat, user, s)))
      else None)
  {
    if held != [] {
      SchemasNamed(cat, user, held[..|held| - 1], s);
      LookupFromEnd(held, s);
    }
  }

  /** With distinct names it does not matter from which end a name is looked up. */
  lemma LookupFromEnd(objects: seq<ObjectPrivilege>, name: string)
    requires NamedOnce(objects) && objects != []
    ensures var n := |objects| - 1;
      && (name in ObjectNames(objects) <==> objects[n].name == name || name in ObjectNames(objects[..n]))
      && (name in ObjectNames(objects) ==>
           ObjectNamed(objects, name) == if objects[n].name == name then objects[n]
             else ObjectNamed(objects[..n], name))
  {
    var n := |objects| - 1;
    assert objects == objects[..n] + [objects[n]];
    if objects[n].name == name {
      UniqueMember(objects, n);
    } else if name in ObjectNames(objects) {
      FirstIsMember(objects[..n], name);
      var j :| 0 <= j < n && objects[..n][j] == ObjectNamed(objects[..n], name);
      UniqueMember(objects, j);
    }
  }

  lemma {:induction false} UniqueMember(objects: seq<ObjectPrivilege>, i: nat)
    requires NamedOnce(objects) && i < |objects|
    ensures ObjectNamed(objects, objects[i].name) == objects[i]
  {
    if i != 0 {
      UniqueMember(objects[1..], i - 1);
    }
  }

  /** The value of a cell, empty for a place that does not exist. */
  function ValueOf(cells: Cells, c: Cell): set<string> {
    if c in cells then cells[c] else {}
  }

  /** Rows say what the cells of their places hold, and no cell with privileges lacks a row. */
  ghost predicate RowsMatch(t: LetterTable, user: string, rows: seq<Row>, cells: Cells, place: string -> Place) {
    && ProperRows(user, rows)
    && (forall i :: 0 <= i < |rows| ==>
         Cell(user, place(rows[i].name)) in cells && cells[Cell(user, place(rows[i].name))] == SaidBy(t, user, rows[i]))
    && (forall n :: ValueOf(cells, Cell(user, place(n))) != {} ==> exists i :: 0 <= i < |rows| && rows[i].name == n)
  }

  function DatabaseAt(): string -> Place { n => DatabasePlace(n) }

  function SchemaAt(d: string): string -> Place { s => SchemaPlace(d, s) }

  function ObjectAt(d: string, k: Kind, s: string): string -> Place { n => ObjectPlace(d, k, s, n) }

  /** What a session in `h` reads is what the server holds: all databases, and the schemas and objects of `h`. */
  ghost predicate CatalogMatches(user: string, cat: Catalog, h: string, cells: Cells) {
    && RowsMatch(DatabaseLetters, user, cat.databases, cells, DatabaseAt())
    && RowsMatch(SchemaLetters, user, cat.schemas, cells, SchemaAt(h))
    && (forall k, s :: Cell(user, SchemaPlace(h, s)) in cells ==>
         RowsMatch(ObjectLetters(k), user, cat.Rows(k, s), cells, ObjectAt(h, k, s)))
  }

  /**
   The user holds the same on every schema name of two databases, and on the objects of the schemas where it
   is something.
  */
  ghost predicate Agrees(user: string, cells: Cells, d: string, e: string) {
    forall s ::
      && ValueOf(cells, Cell(user, SchemaPlace(d, s))) == ValueOf(cells, Cell(user, SchemaPlace(e, s)))
      && (ValueOf(cells, Cell(user, SchemaPlace(d, s))) != {} ==> forall k, n ::
           ValueOf(cells, Cell(user, ObjectPlace(d, k, s, n))) == ValueOf(cells, Cell(user, ObjectPlace(e, k, s, n))))
  }

  /** Every database whose list names the user agrees with the session's. */
  ghost predicate AllAgree(user: string, cat: Catalog, h: string, cells: Cells) {
    forall i :: 0 <= i < |cat.databases| && Mentioned(user, cat.databases[i]) ==>
      Agrees(user, cells, cat.databases[i].name, h)
  }

  /** A fetched list of matching rows: members hold what the cells hold, and cells with privileges are members. */
  lemma ListMatches(t: LetterTable, user: string, rows: seq<Row>, cells: Cells, place: string -> Place)
    requires RowsMatch(t, user, rows, cells, place)
    ensures var held := HeldInRows(t, user, rows);
      && NamedOnce(held)
      && forall n :: n in ObjectNames(held) ==>
           Holds(user, place(n), ObjectNamed(held, n).privileges, cells) && ObjectNamed(held, n).privileges != []
    ensures forall n :: ValueOf(cells, Cell(user, place(n))) != {} ==> n in ObjectNames(HeldInRows(t, user, rows))
  {
    var held := HeldInRows(t, user, rows);
    ListedOnce(t, user, rows);
    forall n | n in ObjectNames(held)
      ensures Holds(user, place(n), ObjectNamed(held, n).privileges, cells) && ObjectNamed(held, n).privileges != []
    {
      FirstIsMember(held, n);
      var i := ListedHasRow(t, user, rows, ObjectNamed(held, n));
      FetchFaithful(t, user, rows, i);
      assert AsSet([]) == {};
    }
    forall n | ValueOf(cells, Cell(user, place(n))) != {} ensures n in ObjectNames(held) {
      var i :| 0 <= i < |rows| && rows[i].name == n;
      FetchFaithful(t, user, rows, i);
    }
  }

  function SchemasOf(cat: Catalog, user: string): seq<SchemaSnapshot> {
    SchemasFrom(cat, user, HeldInRows(SchemaLetters, user, cat.schemas))
  }

  lemma KindMatches(user: string, cat: Catalog, d: string, cells: Cells, s: string, k: Kind)
    requires CatalogMatches(user, cat, d, cells) && Cell(user, SchemaPlace(d, s)) in cells
    ensures var objects := FetchListing(cat, user, s).Of(k);
      && (forall n :: n in ObjectNames(objects) ==>
           Holds(user, ObjectPlace(d, k, s, n), ObjectNamed(objects, n).privileges, cells)
           && ObjectNamed(objects, n).privileges != [])
      && (forall n :: ValueOf(cells, Cell(user, ObjectPlace(d, k, s, n))) != {} ==> n in ObjectNames(objects))
  {
    ListMatches(ObjectLetters(k), user, cat.Rows(k, s), cells, ObjectAt(d, k, s));
    assert forall n :: ObjectAt(d, k, s)(n) == ObjectPlace(d, k, s, n);
    assert FetchListing(cat, user, s).Of(k) == HeldInRows(ObjectLetters(k), user, cat.Rows(k, s));
  }

  /** A schema is listed exactly when the user holds something on it, with what the cells hold. */
  lemma SchemaListing(user: string, cat: Catalog, d: string, cells: Cells, s: string)
    requires CatalogMatches(user, cat, d, cells)
    ensures ValueOf(cells, Cell(user, SchemaPlace(d, s))) != {} ==> SchemaNamed(SchemasOf(cat, user), s).Some?
    ensures var sc := SchemaNamed(SchemasOf(cat, user), s);
      sc.Some? ==>
        sc.value.objects == FetchListing(cat, user, s) && Holds(user, SchemaPlace(d, s), sc.value.privileges, cells)
  {
    ListMatches(SchemaLetters, user, cat.schemas, cells, SchemaAt(d));
    assert SchemaAt(d)(s) == SchemaPlace(d, s);
    SchemasNamed(cat, user, HeldInRows(SchemaLetters, user, cat.schemas), s);
  }

  /** A database that agrees with the session's is described by the session's schemas. */
  lemma SchemaMatches(user: string, cat: Catalog, h: string, cells: Cells, e: string, s: string, sc: SchemaSnapshot)
    requires CatalogMatches(user, cat, h, cells) && Agrees(user, cells, e, h)
    requires SchemaNamed(SchemasOf(cat, user), s) == Some(sc) && sc.privileges != []
    ensures FaithfulSchema(user, e, s, sc, cells)
  {
    SchemaListing(user, cat, h, cells, s);
    assert sc.privileges[0] in AsSet(sc.privileges);
    forall k, n
      ensures n in ObjectNames(sc.objects.Of(k)) ==>
        var o := ObjectNamed(sc.objects.Of(k), n);
        Holds(user, ObjectPlace(e, k, s, n), o.privileges, cells) && o.privileges != []
      ensures ValueOf(cells, Cell(user, ObjectPlace(e, k, s, n))) != {} ==> n in ObjectNames(sc.objects.Of(k))
    {
      KindMatches(user, cat, h, cells, s, k);
      assert ValueOf(cells, Cell(user, ObjectPlace(e, k, s, n))) == ValueOf(cells, Cell(user, ObjectPlace(h, k, s, n)));
      if n in ObjectNames(sc.objects.Of(k)) {
        var o := ObjectNamed(sc.objects.Of(k), n);
        assert o.privileges[0] in AsSet(o.privileges);
      }
    }
  }

  lemma {:induction false} ListedHold(t: LetterTable, user: string, rows: seq<Row>)
    ensures forall o :: o in HeldInRows(t, user, rows) ==> o.privileges != []
  {
    if rows != [] {
      ListedHold(t, user, rows[..|rows| - 1]);
      var last := rows[|rows| - 1];
      if last.Row? && last.acl.Some? {
        HeldInHold(t, last.name, user, AclIn(last.acl.value));
      }
    }
  }

  lemma {:induction false} HeldInHold(t: LetterTable, name: string, user: string, ups: seq<UserPrivileges>)
    ensures forall o :: o in HeldIn(t, name, user, ups) ==> o.privileges != []
  {
    if ups != [] {
      HeldInHold(t, name, user, ups[..|ups| - 1]);
    }
  }

  /** A schema is listed only for a privilege on it. */
  lemma ListedSchemaHolds(cat: Catalog, user: string, s: string)
    requires ProperRows(user, cat.schemas)
    ensures var sc := SchemaNamed(SchemasOf(cat, user), s); sc.Some? ==> sc.value.privileges != []
  {
    var held := HeldInRows(SchemaLetters, user, cat.schemas);
    ListedOnce(SchemaLetters, user, cat.schemas);
    SchemasNamed(cat, user, held, s);
    ListedHold(SchemaLetters, user, cat.schemas);
    if s in ObjectNames(held) {
      FirstIsMember(held, s);
    }
  }

  lemma DatabaseMatches(user: string, cat: Catalog, h: string, cells: Cells, e: string, a: DatabaseSnapshot)
    requires CatalogMatches(user, cat, h, cells) && Agrees(user, cells, e, h)
    requires ListedAs(cat, user, DatabasesIn(user, cat.databases), a) && a.name == e
    ensures FaithfulDatabase(user, e, a, cells)
  {
    DatabaseHolds(user, cat, h, cells, e, a);
    forall s
      ensures SchemaNamed(a.schemas, s).Some? ==> FaithfulSchema(user, e, s, SchemaNamed(a.schemas, s).value, cells)
    {
      if SchemaNamed(a.schemas, s).Some? {
        ListedSchemaHolds(cat, user, s);
        SchemaMatches(user, cat, h, cells, e, s, SchemaNamed(a.schemas, s).value);
      }
    }
    forall s | ValueOf(cells, Cell(user, SchemaPlace(e, s))) != {} ensures SchemaNamed(a.schemas, s).Some? {
      SchemaListing(user, cat, h, cells, s);
    }
    assert forall s :: Cell(user, SchemaPlace(e, s)) in cells && cells[Cell(user, SchemaPlace(e, s))] != {} ==>
      ValueOf(cells, Cell(user, SchemaPlace(e, s))) != {};
  }

  lemma DatabaseHolds(user: string, cat: Catalog, h: string, cells: Cells, e: string, a: DatabaseSnapshot)
    requires CatalogMatches(user, cat, h, cells)
    requires ListedAs(cat, user, DatabasesIn(user, cat.databases), a) && a.name == e
    ensures Holds(user, DatabasePlace(e), a.privileges, cells)
  {
    var i := RecordedIsMentioned(user, cat.databases, e);
    MentionedIsRecorded(user, cat.databases, i);
    assert DatabaseAt()(e) == DatabasePlace(e);
  }

  /** A database the session's schemas describe agrees with the session's. */
  lemma FaithfulAgrees(user: string, cat: Catalog, h: string, cells: Cells, e: string, a: DatabaseSnapshot)
    requires CatalogMatches(user, cat, h, cells) && a.schemas == SchemasOf(cat, user)
      && FaithfulDatabase(user, e, a, cells)
    ensures Agrees(user, cells, e, h)
  {
    forall s
      ensures ValueOf(cells, Cell(user, SchemaPlace(e, s))) == ValueOf(cells, Cell(user, SchemaPlace(h, s)))
      ensures ValueOf(cells, Cell(user, SchemaPlace(e, s))) != {} ==> forall k, n ::
        ValueOf(cells, Cell(user, ObjectPlace(e, k, s, n))) == ValueOf(cells, Cell(user, ObjectPlace(h, k, s, n)))
    {
      SchemaListing(user, cat, h, cells, s);
      if SchemaNamed(a.schemas, s).Some? {
        forall k, n
          ensures ValueOf(cells, Cell(user, ObjectPlace(e, k, s, n)))
            == ValueOf(cells, Cell(user, ObjectPlace(h, k, s, n)))
        {
          ObjectAgrees(user, cat, h, cells, e, s, SchemaNamed(a.schemas, s).value, k, n);
        }
      }
    }
  }

  lemma ObjectAgrees(user: string, cat: Catalog, h: string, cells: Cells, e: string, s: string, sc: SchemaSnapshot,
                     k: Kind, n: string)
    requires CatalogMatches(user, cat, h, cells) && SchemaNamed(SchemasOf(cat, user), s) == Some(sc)
    requires FaithfulSchema(user, e, s, sc, cells)
    ensures ValueOf(cells, Cell(user, ObjectPlace(e, k, s, n))) == ValueOf(cells, Cell(user, ObjectPlace(h, k, s, n)))
  {
    SchemaListing(user, cat, h, cells, s);
    KindMatches(user, cat, h, cells, s, k);
  }

  /**
   When the fetched snapshot is faithful: if and only if every database whose list names the user agrees with
   the session's database, because every listed database is given the session's schemas.
   */
  lemma SnapshotFaithfulExactly(user: string, cat: Catalog, h: string, cells: Cells, snap: seq<DatabaseSnapshot>)
    requires CatalogMatches(user, cat, h, cells) && SnapshotOfCatalog(cat, user, snap)
    ensures Faithful(user, snap, cells) <==> AllAgree(user, cat, h, cells)
  {
    if AllAgree(user, cat, h, cells) {
      AgreeingIsFaithful(user, cat, h, cells, snap);
    }
    if Faithful(user, snap, cells) {
      forall i | 0 <= i < |cat.databases| && Mentioned(user, cat.databases[i])
        ensures Agrees(user, cells, cat.databases[i].name, h)
      {
        var e := cat.databases[i].name;
        MentionedIsRecorded(user, cat.databases, i);
        assert e in NamesOf(snap);
        DatabaseListed(snap, e);
        FaithfulAgrees(user, cat, h, cells, e, DatabaseNamed(snap, e).value);
      }
    }
  }

  lemma AgreeingIsFaithful(user: string, cat: Catalog, h: string, cells: Cells, snap: seq<DatabaseSnapshot>)
    requires CatalogMatches(user, cat, h, cells) && SnapshotOfCatalog(cat, user, snap) && AllAgree(user, cat, h, cells)
    ensures Faithful(user, snap, cells)
  {
    forall e | DatabaseNamed(snap, e).Some?
      ensures FaithfulDatabase(user, e, DatabaseNamed(snap, e).value, cells)
    {
      DatabaseListed(snap, e);
      var i := RecordedIsMentioned(user, cat.databases, e);
      assert Agrees(user, cells, e, h);
      DatabaseMatches(user, cat, h, cells, e, DatabaseNamed(snap, e).value);
    }
    forall e | Cell(user, DatabasePlace(e)) in cells && cells[Cell(user, DatabasePlace(e))] != {}
      ensures DatabaseNamed(snap, e).Some?
    {
      NonemptyIsListed(user, cat, h, cells, e);
      assert e in NamesOf(snap);
      DatabaseListed(snap, e);
    }
  }

  /** In particular for a user whom no list but the session's database names. */
  lemma SnapshotFaithful(user: string, cat: Catalog, h: string, cells: Cells, snap: seq<DatabaseSnapshot>)
    requires CatalogMatches(user, cat, h, cells) && SnapshotOfCatalog(cat, user, snap)
    requires forall i :: 0 <= i < |cat.databases| && Mentioned(user, cat.databases[i]) ==> cat.databases[i].name == h
    ensures Faithful(user, snap, cells)
  {
    SnapshotFaithfulExactly(user, cat, h, cells, snap);
  }

  lemma NonemptyIsListed(user: string, cat: Catalog, d: string, cells: Cells, e: string)
    requires CatalogMatches(user, cat, d, cells) && ValueOf(cells, Cell(user, DatabasePlace(e))) != {}
    ensures e in DatabasesIn(user, cat.databases)
  {
    assert DatabaseAt()(e) == DatabasePlace(e);
    var i :| 0 <= i < |cat.databases| && cat.databases[i].name == e;
    if !Mentioned(user, cat.databases[i]) {
      UnmentionedSaysNothing(user, cat.databases[i]);
    }
    MentionedIsRecorded(user, cat.databases, i);
  }

  lemma UnmentionedSaysNothing(user: string, row: Row)
    requires !Mentioned(user, row)
    ensures SaidBy(DatabaseLetters, user, row) == {}
  {
    if row.Row? && row.acl.Some? {
      HeldInAbsent(DatabaseLetters, "", user, AclIn(row.acl.value));
    }
  }

  // ---------- lists written from the cells ----------

  /** Where the lists of a place are read from. */
  function LettersAt(p: Place): LetterTable {
    match p
    case DatabasePlace(_) => DatabaseLetters
    case SchemaPlace(_, _) => SchemaLetters
    case ObjectPlace(_, k, _, _) => ObjectLetters(k)
  }

  /**
   What ALL means on a place is what its lists can say, but for two privileges of tables on views, and all of theirs
   but SELECT on materialized views.
   */
  lemma UniverseLegible(p: Place)
    ensures Legible(LettersAt(p)) == Universe(p) +
      if p.ObjectPlace? && p.kind == View then {"TRUNCATE", "REFERENCES"}
      else if p.ObjectPlace? && p.kind == MaterializedView then ON_TABLES - {"SELECT"}
      else {}
  {
  }

  /** The letters in a user's entries. */
  ghost function LettersFor(user: string, es: seq<AclEntry>): set<char> {
    set e, p | e in es && e.user == user && p in e.privileges :: p.privilege
  }

  /** The list of the entries is one the server prints: names it can carry, and one entry for the user at most. */
  ghost predicate Printable(user: string, es: seq<AclEntry>) {
    && (forall e :: e in es ==> Clean(e)) && OuterNamesClear(es)
    && (forall i, j :: 0 <= i < j < |es| && es[i].user == user ==> es[j].user != user)
  }

  /** The user's letters are those of the held privileges, beside letters of privileges that are not read there. */
  ghost predicate Abbreviates(t: LetterTable, letters: set<char>, v: set<string>) {
    v <= Legible(t)
    && forall q :: q in Legible(t) ==> q in ABBREVIATIONS && (q in v <==> ABBREVIATIONS[q] in letters)
  }

  /** The row of a place on which the user holds `v`, as the server writes it. */
  ghost predicate WrittenRow(t: LetterTable, user: string, row: Row, v: set<string>) {
    row.Row? && if row.acl.None? then v == {} else exists es ::
      row.acl.value == PrintAcl(es) && Printable(user, es) && Abbreviates(t, LettersFor(user, es), v)
  }

  /** What is read from written letters is what was held. */
  lemma LettersSayHeld(t: LetterTable, letters: set<char>, v: set<string>, c: char)
    requires Abbreviates(t, letters, v) && c in letters
    ensures MapChar(t, c) != "" ==> MapChar(t, c) in v
  {
    if MapChar(t, c) != "" {
      OtherLettersMeanNothing(t, c);
    }
  }

  lemma HeldIsSaid(t: LetterTable, user: string, es: seq<AclEntry>, ups: seq<UserPrivileges>, v: set<string>)
    requires Abbreviates(t, LettersFor(user, es), v)
    requires |ups| == |es| && forall i :: 0 <= i < |es| ==> ups[i] == UserPrivileges(es[i].user, es[i].privileges)
    ensures EntriesSay(t, user, ups) == v
  {
    forall q | q in EntriesSay(t, user, ups) ensures q in v {
      var u :| u in ups && u.user == user && q in LettersSay(t, u.privileges);
      var i :| 0 <= i < |ups| && ups[i] == u;
      var p :| p in u.privileges && MapChar(t, p.privilege) != "" && MapChar(t, p.privilege) == q;
      assert es[i] in es && p.privilege in LettersFor(user, es);
      LettersSayHeld(t, LettersFor(user, es), v, p.privilege);
    }
    forall q | q in v ensures q in EntriesSay(t, user, ups) {
      var e, p :| e in es && e.user == user && p in e.privileges && p.privilege == ABBREVIATIONS[q];
      var i :| 0 <= i < |es| && es[i] == e;
      WrittenLetterRead(t, q);
      assert q in LettersSay(t, ups[i].privileges) && ups[i] in ups;
    }
  }

  /** A written row says what is held, whatever else is in its list. */
  lemma WrittenRowSays(t: LetterTable, user: string, row: Row, v: set<string>)
    requires WrittenRow(t, user, row, v)
    ensures OneEntry(user, row) && SaidBy(t, user, row) == v
  {
    if row.acl.Some? {
      var es :| row.acl.value == PrintAcl(es) && Printable(user, es) && Abbreviates(t, LettersFor(user, es), v);
      AclRoundTrip(es);
      HeldIsSaid(t, user, es, AclIn(row.acl.value), v);
    }
  }

  /** The rows of existing places, written from what their cells hold. */
  ghost predicate WrittenRows(t: LetterTable, user: string, rows: seq<Row>, cells: Cells, place: string -> Place) {
    && (forall i :: 0 <= i < |rows| ==> rows[i].Row?)
    && (forall i :: 0 <= i < |rows| ==>
         Cell(user, place(rows[i].name)) in cells
         && WrittenRow(t, user, rows[i], cells[Cell(user, place(rows[i].name))]))
    && (forall i, j :: 0 <= i < j < |rows| ==> rows[i].name != rows[j].name)
    && (forall n :: ValueOf(cells, Cell(user, place(n))) != {} ==> exists i :: 0 <= i < |rows| && rows[i].name == n)
  }

  lemma WrittenRowsMatch(t: LetterTable, user: string, rows: seq<Row>, cells: Cells, place: string -> Place)
    requires WrittenRows(t, user, rows, cells, place)
    ensures RowsMatch(t, user, rows, cells, place)
  {
    forall i | 0 <= i < |rows|
      ensures rows[i].Row? && OneEntry(user, rows[i])
      ensures SaidBy(t, user, rows[i]) == cells[Cell(user, place(rows[i].name))]
    {
      WrittenRowSays(t, user, rows[i], cells[Cell(user, place(rows[i].name))]);
    }
  }

  /** A grant option is recorded exactly if a privilege that is read there carries one. */
  lemma GrantableExactly(t: LetterTable, ps: seq<PrivilegeGrant>)
    ensures Grantable(t, ps) <==> exists p, q ::
      p in ps && q in Legible(t) && p == PrivilegeGrant(ABBREVIATIONS[q], true)
  {
    LegibleAbbreviated(t);
    if Grantable(t, ps) {
      var p :| p in ps && p.withGrantOption && MapChar(t, p.privilege) != "";
      OtherLettersMeanNothing(t, p.privilege);
      assert p == PrivilegeGrant(ABBREVIATIONS[MapChar(t, p.privilege)], true);
    }
    if p, q :| p in ps && q in Legible(t) && p == PrivilegeGrant(ABBREVIATIONS[q], true) {
      WrittenLetterRead(t, q);
    }
  }

  /** A listed object is one entry of the user in a list of its name, and has a grant option exactly if that says so. */
  ghost predicate FromEntry(t: LetterTable, user: string, u: UserPrivileges, o: ObjectPrivilege) {
    && u.user == user && AsSet(o.privileges) == LettersSay(t, u.privileges)
    && (o.withGrantOption <==> exists p, q ::
         p in u.privileges && q in Legible(t) && q in ABBREVIATIONS && p == PrivilegeGrant(ABBREVIATIONS[q], true))
  }

  lemma {:induction false} HeldFromEntry(t: LetterTable, name: string, user: string, ups: seq<UserPrivileges>,
                                         o: ObjectPrivilege)
    requires o in HeldIn(t, name, user, ups)
    ensures o.name == name && exists u :: u in ups && FromEntry(t, user, u, o)
  {
    var n := |ups| - 1;
    if o in HeldIn(t, name, user, ups[..n]) {
      HeldFromEntry(t, name, user, ups[..n], o);
      var u :| u in ups[..n] && FromEntry(t, user, u, o);
      assert u in ups;
    } else {
      MappedSet(t, ups[n].privileges);
      GrantableExactly(t, ups[n].privileges);
      LegibleAbbreviated(t);
      assert ups[n] in ups && FromEntry(t, user, ups[n], o);
    }
  }

  /** Everything fetched from a list of rows is some entry of some row, with its privileges and its grant option. */
  lemma {:induction false} FetchedFromEntry(t: LetterTable, user: string, rows: seq<Row>, o: ObjectPrivilege)
    requires o in HeldInRows(t, user, rows)
    ensures exists r, u ::
      r in rows && r.Row? && r.acl.Some? && r.name == o.name
      && u in AclIn(r.acl.value) && FromEntry(t, user, u, o)
  {
    var n := |rows| - 1;
    if o in HeldInRows(t, user, rows[..n]) {
      FetchedFromEntry(t, user, rows[..n], o);
      var r, u :| r in rows[..n] && r.Row? && r.acl.Some? && r.name == o.name
        && u in AclIn(r.acl.value) && FromEntry(t, user, u, o);
      assert r in rows;
    } else {
      HeldFromEntry(t, rows[n].name, user, AclIn(rows[n].acl.value), o);
      assert rows[n] in rows;
    }
  }

  /** Fetching written rows gives back what the cells hold: each nonempty one once, with its exact set. */
  lemma WrittenIsFetched(t: LetterTable, user: string, rows: seq<Row>, cells: Cells, place: string -> Place, n: string)
    requires WrittenRows(t, user, rows, cells, place)
    ensures FetchedFrom(t, user, rows).Fetched?
    ensures var fetched := FetchedFrom(t, user, rows).value;
      && NamedOnce(fetched)
      && (n in ObjectNames(fetched) <==> ValueOf(cells, Cell(user, place(n))) != {})
      && AsSet(ObjectNamed(fetched, n).privileges) == ValueOf(cells, Cell(user, place(n)))
  {
    WrittenRowsMatch(t, user, rows, cells, place);
    ListMatches(t, user, rows, cells, place);
    var fetched := HeldInRows(t, user, rows);
    if n in ObjectNames(fetched) {
      var held := ObjectNamed(fetched, n).privileges;
      assert held[0] in AsSet(held);
    } else {
      ObjectNamedAbsent(fetched, n);
    }
  }

  /** What a session in `h` reads is written from what the server holds. */
  ghost predicate CatalogWritten(user: string, cat: Catalog, h: string, cells: Cells) {
    && WrittenRows(DatabaseLetters, user, cat.databases, cells, DatabaseAt())
    && WrittenRows(SchemaLetters, user, cat.schemas, cells, SchemaAt(h))
    && (forall k, s :: Cell(user, SchemaPlace(h, s)) in cells ==>
         WrittenRows(ObjectLetters(k), user, cat.Rows(k, s), cells, ObjectAt(h, k, s)))
  }

  lemma WrittenMatches(user: string, cat: Catalog, h: string, cells: Cells)
    requires CatalogWritten(user, cat, h, cells)
    ensures CatalogMatches(user, cat, h, cells)
  {
    WrittenRowsMatch(DatabaseLetters, user, cat.databases, cells, DatabaseAt());
    WrittenRowsMatch(SchemaLetters, user, cat.schemas, cells, SchemaAt(h));
    forall k, s | Cell(user, SchemaPlace(h, s)) in cells
      ensures RowsMatch(ObjectLetters(k), user, cat.Rows(k, s), cells, ObjectAt(h, k, s))
    {
      WrittenRowsMatch(ObjectLetters(k), user, cat.Rows(k, s), cells, ObjectAt(h, k, s));
    }
  }

  /**
   When a snapshot fetched from lists written from the cells is faithful to the cells: if and only if every database
   whose list names the user agrees with the session's.
   */
  lemma WrittenSnapshotFaithfulExactly(user: string, cat: Catalog, h: string, cells: Cells, snap: seq<DatabaseSnapshot>)
    requires CatalogWritten(user, cat, h, cells) && SnapshotOfCatalog(cat, user, snap)
    ensures Faithful(user, snap, cells) <==> AllAgree(user, cat, h, cells)
  {
    WrittenMatches(user, cat, h, cells);
    SnapshotFaithfulExactly(user, cat, h, cells, snap);
  }

  /** The letters of the privileges in `v`, in the order of `names`. */
  function Letters(names: seq<string>, v: set<string>): (ps: seq<PrivilegeGrant>)
    requires forall i :: 0 <= i < |names| ==> names[i] in ABBREVIATIONS
  {
    if names == [] then []
    else
      (if names[0] in v then [PrivilegeGrant(ABBREVIATIONS[names[0]], false)] else []) + Letters(names[1..], v)
  }

  lemma {:induction false} LettersAre(names: seq<string>, v: set<string>)
    requires forall i :: 0 <= i < |names| ==> names[i] in ABBREVIATIONS
    ensures forall p :: p in Letters(names, v) <==>
      exists q :: q in names && q in v && p == PrivilegeGrant(ABBREVIATIONS[q], false)
  {
    if names != [] {
      LettersAre(names[1..], v);
      assert forall q :: q in names <==> q == names[0] || q in names[1..];
    }
  }

  /** All abbreviated privileges, in the order in which their letters are written. */
  const ORDER: seq<string> :=
    ["INSERT", "SELECT", "UPDATE", "DELETE", "TRUNCATE", "REFERENCES", "TRIGGER", "EXECUTE", "USAGE", "CREATE",
      "CONNECT"]

  lemma OrderIsComplete(t: LetterTable)
    ensures forall i :: 0 <= i < |ORDER| ==> ORDER[i] in ABBREVIATIONS
    ensures forall q :: q in Legible(t) ==> q in ORDER
  {
  }

  lemma AbbreviationsApart(q: string, r: string)
    requires q in ABBREVIATIONS && r in ABBREVIATIONS && ABBREVIATIONS[q] == ABBREVIATIONS[r]
    ensures q == r && ABBREVIATIONS[q] !in [',', '=', '/', '*']
  {
  }

  /** Whatever the user can hold on a place, there is a row that says it. */
  lemma EveryHoldingIsWritten(t: LetterTable, name: string, user: string, grantor: string, v: set<string>)
    returns (row: Row)
    requires v <= Legible(t) && Clean(AclEntry(user, [], grantor)) && OuterNamesClear([AclEntry(user, [], grantor)])
    ensures row.Row? && row.name == name && WrittenRow(t, user, row, v)
  {
    OrderIsComplete(t);
    LegibleAbbreviated(t);
    var ps := Letters(ORDER, v);
    var e := AclEntry(user, ps, grantor);
    row := Row(name, Some(PrintAcl([e])));
    LettersAre(ORDER, v);
    forall p | p in ps ensures p.privilege !in [',', '=', '/', '*'] {
      var q :| q in ORDER && q in v && p == PrivilegeGrant(ABBREVIATIONS[q], false);
      AbbreviationsApart(q, q);
    }
    assert Printable(user, [e]) by {
      assert [e][0] == e;
    }
    forall q | q in Legible(t) ensures q in v <==> ABBREVIATIONS[q] in LettersFor(user, [e]) {
      OneEntryLetters(user, e, v, q);
    }
  }

  lemma OneEntryLetters(user: string, e: AclEntry, v: set<string>, q: string)
    requires q in ORDER && q in ABBREVIATIONS && e.user == user
    requires forall i :: 0 <= i < |ORDER| ==> ORDER[i] in ABBREVIATIONS
    requires e.privileges == Letters(ORDER, v)
    ensures q in v <==> ABBREVIATIONS[q] in LettersFor(user, [e])
  {
    LettersAre(ORDER, v);
    assert [e][0] in [e];
    if q in v {
      assert PrivilegeGrant(ABBREVIATIONS[q], false) in e.privileges;
    }
    if ABBREVIATIONS[q] in LettersFor(user, [e]) {
      var p :| p in e.privileges && p.privilege == ABBREVIATIONS[q];
      var r :| r in ORDER && r in v && p == PrivilegeGrant(ABBREVIATIONS[r], false);
      AbbreviationsApart(q, r);
    }
  }

  /** Whatever the catalog says, the fetch cannot be faithful to two listed databases that do not agree. */
  lemma TwoDatabasesMustAgree(user: string, cat: Catalog, cells: Cells, snap: seq<DatabaseSnapshot>, d: string,
                              e: string)
    requires SnapshotOfCatalog(cat, user, snap) && Faithful(user, snap, cells)
    requires DatabaseNamed(snap, d).Some? && DatabaseNamed(snap, e).Some?
    ensures Agrees(user, cells, d, e)
  {
    DatabaseListed(snap, d);
    DatabaseListed(snap, e);
    assert DatabaseNamed(snap, d).value.schemas == SchemasOf(cat, user) == DatabaseNamed(snap, e).value.schemas;
    forall s
      ensures ValueOf(cells, Cell(user, SchemaPlace(d, s))) == ValueOf(cells, Cell(user, SchemaPlace(e, s)))
      ensures ValueOf(cells, Cell(user, SchemaPlace(d, s))) != {} ==> forall k, n ::
        ValueOf(cells, Cell(user, ObjectPlace(d, k, s, n))) == ValueOf(cells, Cell(user, ObjectPlace(e, k, s, n)))
    {
      var sc := SchemaNamed(SchemasOf(cat, user), s);
      if sc.Some? {
        SameSchemaSameObjects(user, cells, d, e, s, sc.value);
      }
    }
  }

  lemma SameSchemaSameObjects(user: string, cells: Cells, d: string, e: string, s: string, sc: SchemaSnapshot)
    requires FaithfulSchema(user, d, s, sc, cells) && FaithfulSchema(user, e, s, sc, cells)
    ensures ValueOf(cells, Cell(user, SchemaPlace(d, s))) == ValueOf(cells, Cell(user, SchemaPlace(e, s)))
    ensures forall k, n ::
      ValueOf(cells, Cell(user, ObjectPlace(d, k, s, n))) == ValueOf(cells, Cell(user, ObjectPlace(e, k, s, n)))
  {
    forall k, n
      ensures ValueOf(cells, Cell(user, ObjectPlace(d, k, s, n))) == ValueOf(cells, Cell(user, ObjectPlace(e, k, s, n)))
    {
      if n in ObjectNames(sc.objects.Of(k)) {
        var o := ObjectNamed(sc.objects.Of(k), n);
        assert Holds(user, ObjectPlace(d, k, s, n), o.privileges, cells);
        assert Holds(user, ObjectPlace(e, k, s, n), o.privileges, cells);
      }
    }
  }

  // ---------- a user away from the session's database ----------

  /** What a session in "dev" reads; the user is named in the list of "analytics" only. */
  const AWAY_CATALOG: Catalog :=
    Catalog([Row("dev", None), Row("analytics", Some("{u=c/root}"))], [Row("public", None)], map[])

  const AWAY_CELLS: Cells :=
    map[Cell("u", DatabasePlace("dev")) := {}, Cell("u", SchemaPlace("dev", "public")) := {},
        Cell("u", DatabasePlace("analytics")) := {"CONNECT"},
        Cell("u", SchemaPlace("analytics", "public")) := {"USAGE"}]

  const AWAY_ENTRY: AclEntry := AclEntry("u", [PrivilegeGrant('c', false)], "root")

  lemma AwayList()
    ensures PrintAcl([AWAY_ENTRY]) == "{u=c/root}" && Printable("u", [AWAY_ENTRY])
    ensures AclIn("{u=c/root}") == [UserPrivileges("u", [PrivilegeGrant('c', false)])]
  {
    var e := AWAY_ENTRY;
    AclRoundTrip([e]);
    assert PrintPrivileges(e.privileges) == "c" by {
      assert e.privileges[1..] == [];
    }
    assert PrintEntries([e]) == [PrintEntry(e)];
    assert PrintAcl([e]) == "{u=c/root}";
  }

  lemma AwayRow()
    ensures var row := AWAY_CATALOG.databases[1];
      Mentioned("u", row) && WrittenRow(DatabaseLetters, "u", row, {"CONNECT"})
  {
    AwayList();
    var e, row := AWAY_ENTRY, AWAY_CATALOG.databases[1];
    var ups := AclIn("{u=c/root}");
    assert ups[0].user == "u";
    AwayLetters(e);
    assert row.acl.value == PrintAcl([e]) && Abbreviates(DatabaseLetters, LettersFor("u", [e]), {"CONNECT"});
  }

  lemma AwayLetters(e: AclEntry)
    requires e == AclEntry("u", [PrivilegeGrant('c', false)], "root")
    ensures Abbreviates(DatabaseLetters, LettersFor("u", [e]), {"CONNECT"})
  {
    assert [e][0] in [e] && e.privileges[0] in e.privileges;
    assert LettersFor("u", [e]) == {'c'};
  }

  /** The row of one place, and its cell. */
  ghost predicate WrittenAt(t: LetterTable, user: string, row: Row, cells: Cells, place: string -> Place) {
    row.Row? && Cell(user, place(row.name)) in cells && WrittenRow(t, user, row, cells[Cell(user, place(row.name))])
  }

  /** Rows of two places that are all there is. */
  lemma TwoRowsWritten(t: LetterTable, user: string, a: Row, b: Row, cells: Cells, place: string -> Place)
    requires WrittenAt(t, user, a, cells, place) && WrittenAt(t, user, b, cells, place) && a.name != b.name
    requires forall n :: ValueOf(cells, Cell(user, place(n))) != {} ==> n == b.name
    ensures WrittenRows(t, user, [a, b], cells, place)
  {
    assert [a, b][1].name == b.name;
  }

  lemma AwayDatabase(i: nat)
    requires i < 2
    ensures WrittenAt(DatabaseLetters, "u", AWAY_CATALOG.databases[i], AWAY_CELLS, DatabaseAt())
  {
    var row := AWAY_CATALOG.databases[i];
    assert DatabaseAt()(row.name) == DatabasePlace(row.name);
    if i == 1 {
      AwayRow();
    } else {
      assert AWAY_CELLS[Cell("u", DatabasePlace("dev"))] == {};
    }
  }

  lemma AwayElsewhere(n: string)
    requires ValueOf(AWAY_CELLS, Cell("u", DatabaseAt()(n))) != {}
    ensures n == "analytics"
  {
    assert DatabaseAt()(n) == DatabasePlace(n);
  }

  lemma AwayDatabases()
    ensures WrittenRows(DatabaseLetters, "u", AWAY_CATALOG.databases, AWAY_CELLS, DatabaseAt())
  {
    var a, b := AWAY_CATALOG.databases[0], AWAY_CATALOG.databases[1];
    AwayDatabase(0);
    AwayDatabase(1);
    assert a.name == "dev" != "analytics" == b.name;
    forall n | ValueOf(AWAY_CELLS, Cell("u", DatabaseAt()(n))) != {} ensures n == b.name {
      AwayElsewhere(n);
    }
    TwoRowsWritten(DatabaseLetters, "u", a, b, AWAY_CELLS, DatabaseAt());
    assert AWAY_CATALOG.databases == [a, b];
  }

  lemma AwaySchemas()
    ensures WrittenRows(SchemaLetters, "u", AWAY_CATALOG.schemas, AWAY_CELLS, SchemaAt("dev"))
  {
    var rows := AWAY_CATALOG.schemas;
    assert rows[0] == Row("public", None);
    assert forall s :: SchemaAt("dev")(s) == SchemaPlace("dev", s);
  }

  lemma NoRowsWritten(t: LetterTable, user: string, cells: Cells, place: string -> Place)
    requires forall n :: ValueOf(cells, Cell(user, place(n))) == {}
    ensures WrittenRows(t, user, [], cells, place)
  {
  }

  lemma AwayWritten()
    ensures CatalogWritten("u", AWAY_CATALOG, "dev", AWAY_CELLS)
  {
    AwayDatabases();
    AwaySchemas();
    forall k, s
      ensures WrittenRows(ObjectLetters(k), "u", AWAY_CATALOG.Rows(k, s), AWAY_CELLS, ObjectAt("dev", k, s))
    {
      NoRowsWritten(ObjectLetters(k), "u", AWAY_CELLS, ObjectAt("dev", k, s));
    }
  }

  lemma AwayDisagrees()
    ensures !AllAgree("u", AWAY_CATALOG, "dev", AWAY_CELLS)
  {
    AwayRow();
    assert ValueOf(AWAY_CELLS, Cell("u", SchemaPlace("analytics", "public"))) == {"USAGE"};
    assert ValueOf(AWAY_CELLS, Cell("u", SchemaPlace("dev", "public"))) == {};
    assert !Agrees("u", AWAY_CELLS, "analytics", "dev");
    assert AWAY_CATALOG.databases[1].name == "analytics";
  }

  /** A user of one database only, and yet the snapshot is wrong: the session is in another database. */
  lemma AwayFromSession(snap: seq<DatabaseSnapshot>)
    requires SnapshotOfCatalog(AWAY_CATALOG, "u", snap)
    ensures CatalogWritten("u", AWAY_CATALOG, "dev", AWAY_CELLS)
    ensures !Faithful("u", snap, AWAY_CELLS)
  {
    AwayWritten();
    AwayDisagrees();
    WrittenSnapshotFaithfulExactly("u", AWAY_CATALOG, "dev", AWAY_CELLS, snap);
  }
}
