/**
 The statement builders for a whole declaration, one GRANT list and one REVOKE list: their texts, what the
 texts name, and what running both lists leaves.
 */
module Builders {
  import opened Strings
  import opened Sql
  import opened Privileges
  import opened Wrappers
  import opened Server

  /**
   What a built statement names: something in the session's database, an object by its three-part name, or,
   in the REVOKE of a named function, a function `name` of schema `schema` with one argument type.
   */
  datatype Subject =
    | Here(target: Target)
    | Qualified(database: string, kind: Kind, schema: string, name: string)
    | Signature(schema: string, name: string, argument: string)

  datatype Built = Built(verb: Verb, privs: seq<string>, subject: Subject, user: string, grantOption: bool)

  /** NormalizePrivileges before joining: an empty list means USAGE. */
  function Normalized(privs: seq<string>): (r: seq<string>)
    ensures r != []
  {
    if privs == [] then ["USAGE"]
    else seq(|privs|, i requires 0 <= i < |privs| => if privs[i] == "ALL PRIVILEGES" then "ALL" else privs[i])
  }

  function SubjectOf(v: Verb, database: string, k: Kind, schema: string, name: string): Subject {
    if name == "*" then Here(OnAllObjects(k, schema))
    else if v.Revoke? && k == Function then Signature(database, schema, name)
    else Qualified(database, k, schema, name)
  }

  function BuiltObject(v: Verb, user: string, database: string, k: Kind, schema: string, o: ObjectSpec): Built {
    Built(v, Normalized(o.privileges), SubjectOf(v, database, k, schema, o.name), user, v.Grant? && o.withGrantOption)
  }

  function BuiltSchema(v: Verb, user: string, s: SchemaSpec): Built {
    Built(v, Normalized(s.privileges), Here(OnSchema(s.name)), user, v.Grant? && s.withGrantOption)
  }

  function BuiltDatabase(v: Verb, user: string, d: DatabaseSpec): Built {
    Built(v, Normalized(d.privileges), Here(OnDatabase(d.name)), user, v.Grant? && d.withGrantOption)
  }

  // ---------- texts ----------

  function SubjectKeyword(x: Subject): string {
    match x
    case Here(t) => Keyword(t)
    case Qualified(_, k, _, _) => KindWord(k) + " "
    case Signature(_, _, _) => KindWord(Function) + " "
  }

  /** The quoted names and what follows them (concatenation written right to left). */
  function NamesThen(x: Subject, rest: string): string {
    match x
    case Here(t) => Names(t) + rest
    case Qualified(d, _, s, n) =>
      QuoteIdentifier(d) + ("." + (QuoteIdentifier(s) + ("." + (QuoteIdentifier(n) + rest))))
    case Signature(s, n, a) =>
      QuoteIdentifier(s) + ("." + (QuoteIdentifier(n) + ("(" + (QuoteIdentifier(a) + (")" + rest)))))
  }

  function GrantOption(withGrant: bool): string {
    if withGrant then " WITH GRANT OPTION" else ""
  }

  function BuiltText(b: Built): string {
    VerbWord(b.verb) + (" " + (Join(b.privs, ", ") + (" ON " + (SubjectKeyword(b.subject)
    + NamesThen(b.subject, Preposition(b.verb) + (QuoteUser(b.user) + GrantOption(b.grantOption)))))))
  }

  function Each<T, U>(f: T -> U, xs: seq<T>): seq<U> {
    seq(|xs|, i requires 0 <= i < |xs| => f(xs[i]))
  }

  lemma EachOfSum<T, U>(f: T -> U, xs: seq<T>, ys: seq<T>)
    ensures Each(f, xs + ys) == Each(f, xs) + Each(f, ys)
  {
  }

  lemma EachOfOne<T, U>(f: T -> U, x: T)
    ensures Each(f, [x]) == [f(x)]
  {
  }

  function Texts(list: seq<Built>): seq<string> {
    Each(BuiltText, list)
  }

  // ---------- reading the texts ----------

  /** Privileges are words, and only a GRANT has a grant option. */
  predicate Decodable(b: Built) {
    b.privs != [] && AreWords(b.privs) && (b.grantOption ==> b.verb.Grant?)
  }

  /** What a command names. */
  function AsSubject(c: Clause): Option<Subject> {
    match c
    case Everything(k, s) => Some(Here(OnAllObjects(k, s)))
    case Thing(noun, path, argument) =>
      if argument.Some? then
        if noun == ObjectNoun(Function) && |path| == 2 then Some(Signature(path[0], path[1], argument.value)) else None
      else if noun.DatabaseNoun? && |path| == 1 then Some(Here(OnDatabase(path[0])))
      else if noun.SchemaNoun? && |path| == 1 then Some(Here(OnSchema(path[0])))
      else if noun.ObjectNoun? && |path| == 2 then Some(Here(OnObject(noun.kind, path[0], path[1])))
      else if noun.ObjectNoun? && |path| == 3 then Some(Qualified(path[0], noun.kind, path[1], path[2]))
      else None
  }

  /** What a text asks the server for. */
  function ReadsBuilt(text: string): Option<Built> {
    var c := ReadTokens(Tokens(text));
    if c.None? || AsSubject(c.value.clause).None? then None
    else Some(Built(c.value.verb, c.value.privs, AsSubject(c.value.clause).value, c.value.user, c.value.grantOption))
  }

  /** The clause a subject is written as. */
  function SubjectClause(x: Subject): Clause {
    match x
    case Here(t) => ClauseOf(t)
    case Qualified(d, k, s, n) => Thing(ObjectNoun(k), [d, s, n], None)
    case Signature(s, n, a) => Thing(ObjectNoun(Function), [s, n], Some(a))
  }

  lemma SubjectOfClause(x: Subject)
    ensures AsSubject(SubjectClause(x)) == Some(x)
  {
  }

  lemma ThreeWords(u: string, v: string, w: string)
    requires IsWord(u) && IsWord(v) && IsWord(w)
    ensures Tokens(" " + (u + (" " + (v + (" " + (w + "")))))) == [Word(u), Word(v), Word(w)]
  {
    SpaceTokens(u + (" " + (v + (" " + (w + "")))));
    TwoWords(u, v, w + "");
    WordTokens(w, "");
  }

  lemma GrantOptionTokens(withGrant: bool)
    ensures Tokens(GrantOption(withGrant))
      == if withGrant then [Word("WITH"), Word("GRANT"), Word("OPTION")] else []
  {
    if withGrant {
      assert GrantOption(withGrant) == " " + ("WITH" + (" " + ("GRANT" + (" " + ("OPTION" + "")))));
      ThreeWords("WITH", "GRANT", "OPTION");
    }
  }

  lemma QualifiedRead(x: Subject, r: string)
    requires x.Qualified? && (r == "" || r[0] != '"') && WordNext(Tokens(r))
    ensures ReadClause(Tokens(SubjectKeyword(x) + NamesThen(x, r))) == Some((SubjectClause(x), Tokens(r)))
  {
    var path := [x.database, x.schema, x.name];
    assert path[1..] == [x.schema, x.name] && path[1..][1..] == [x.name];
    assert PathText([x.schema, x.name], r) == QuoteIdentifier(x.schema) + ("." + PathText([x.name], r));
    assert PathText(path, r) == QuoteIdentifier(x.database) + ("." + PathText(path[1..], r)) == NamesThen(x, r);
    ThingRead(ObjectNoun(x.kind), path, r);
  }

  /** The argument in its parentheses. */
  lemma ArgumentRead(a: string, r: string)
    ensures var text := "(" + (QuoteIdentifier(a) + (")" + r));
      Tokens(text)[0] == Symbol('(') && ReadArgument(Tokens(text)) == Some((Some(a), Tokens(r)))
  {
    SymbolTokens('(', QuoteIdentifier(a) + (")" + r));
    NameTokens(a, ")" + r);
    SymbolTokens(')', r);
    var ts := [Symbol('(')] + ([NameToken(a)] + ([Symbol(')')] + Tokens(r)));
    assert ts[1] == NameToken(a) && ts[2] == Symbol(')') && ts[3..] == Tokens(r);
  }

  lemma SignatureRead(x: Subject, r: string)
    requires x.Signature?
    ensures ReadClause(Tokens(SubjectKeyword(x) + NamesThen(x, r))) == Some((SubjectClause(x), Tokens(r)))
  {
    var argument := "(" + (QuoteIdentifier(x.argument) + (")" + r));
    var path := [x.schema, x.name];
    assert path[1..] == [x.name];
    assert PathText(path, argument) == QuoteIdentifier(x.schema) + ("." + PathText([x.name], argument));
    ArgumentRead(x.argument, r);
    NounRead(ObjectNoun(Function), PathText(path, argument));
    PathRead(path, argument);
  }

  lemma SubjectRead(x: Subject, r: string)
    requires (r == "" || r[0] != '"') && WordNext(Tokens(r))
    ensures ReadClause(Tokens(SubjectKeyword(x) + NamesThen(x, r))) == Some((SubjectClause(x), Tokens(r)))
  {
    match x
    case Here(t) => TargetRead(t, r);
    case Qualified(_, _, _, _) => QualifiedRead(x, r);
    case Signature(_, _, _) => SignatureRead(x, r);
  }

  /** Reading a built text gives back verb, privileges, what is named, user and grant option. */
  lemma BuiltTextReads(b: Built)
    requires Decodable(b)
    ensures ReadsBuilt(BuiltText(b)) == Some(b)
  {
    var after := GrantOption(b.grantOption);
    var grantee := Preposition(b.verb) + (QuoteUser(b.user) + after);
    GrantOptionTokens(b.grantOption);
    GranteeFollows(b.verb, b.user, after);
    SubjectRead(b.subject, grantee);
    CommandRead(b.verb, b.privs, SubjectKeyword(b.subject) + NamesThen(b.subject, grantee), SubjectClause(b.subject),
      b.user, after);
    SubjectOfClause(b.subject);
  }

  /** A built text determines what it was built from. */
  lemma BuiltTextInjective(a: Built, b: Built)
    requires Decodable(a) && Decodable(b)
    requires BuiltText(a) == BuiltText(b)
    ensures a == b
  {
    BuiltTextReads(a);
    BuiltTextReads(b);
  }

  // ---------- the lists ----------

  function ObjectStatements(v: Verb, user: string, database: string, schema: string, k: Kind,
                            objects: seq<ObjectSpec>): seq<Built> {
    if objects == [] then []
    else
      ObjectStatements(v, user, database, schema, k, objects[..|objects| - 1])
      + [BuiltObject(v, user, database, k, schema, objects[|objects| - 1])]
  }

  function KindStatements(v: Verb, user: string, database: string, s: SchemaSpec, ks: seq<Kind>): seq<Built> {
    if ks == [] then []
    else
      var k := ks[|ks| - 1];
      KindStatements(v, user, database, s, ks[..|ks| - 1])
        + ObjectStatements(v, user, database, s.name, k, s.objects.Of(k))
  }

  function SchemaLevel(v: Verb, user: string, s: SchemaSpec): seq<Built> {
    if s.privileges != [] then [BuiltSchema(v, user, s)] else []
  }

  function SchemaStatements(v: Verb, user: string, database: string, s: SchemaSpec): seq<Built> {
    SchemaLevel(v, user, s) + KindStatements(v, user, database, s, KINDS)
  }

  function SchemasStatements(v: Verb, user: string, database: string, schemas: seq<SchemaSpec>): seq<Built> {
    if schemas == [] then []
    else
      SchemasStatements(v, user, database, schemas[..|schemas| - 1])
      + SchemaStatements(v, user, database, schemas[|schemas| - 1])
  }

  function DatabaseLevel(v: Verb, user: string, d: DatabaseSpec): seq<Built> {
    if d.privileges != [] then [BuiltDatabase(v, user, d)] else []
  }

  function DatabaseStatements(v: Verb, user: string, d: DatabaseSpec): seq<Built> {
    DatabaseLevel(v, user, d) + SchemasStatements(v, user, d.name, d.schemas)
  }

  function Statements(v: Verb, user: string, spec: seq<DatabaseSpec>): seq<Built> {
    if spec == [] then []
    else Statements(v, user, spec[..|spec| - 1]) + DatabaseStatements(v, user, spec[|spec| - 1])
  }

  // ---------- the two builders ----------

  lemma TextsSum(a: seq<Built>, b: seq<Built>)
    ensures Texts(a + b) == Texts(a) + Texts(b)
  {
    EachOfSum(BuiltText, a, b);
  }

  lemma TextsSnoc(a: seq<Built>, b: Built)
    ensures Texts(a + [b]) == Texts(a) + [BuiltText(b)]
  {
    EachOfSum(BuiltText, a, [b]);
    EachOfOne(BuiltText, b);
  }

  lemma ObjectTexts(v: Verb, user: string, database: string, schema: string, k: Kind, objects: seq<ObjectSpec>, j: nat)
    requires j < |objects|
    ensures Texts(ObjectStatements(v, user, database, schema, k, objects[..j + 1]))
      == Texts(ObjectStatements(v, user, database, schema, k, objects[..j]))
         + [BuiltText(BuiltObject(v, user, database, k, schema, objects[j]))]
  {
    assert objects[..j + 1][..j] == objects[..j];
    TextsSnoc(ObjectStatements(v, user, database, schema, k, objects[..j]),
      BuiltObject(v, user, database, k, schema, objects[j]));
  }

  lemma SchemaTexts(v: Verb, user: string, database: string, s: SchemaSpec, ks: seq<Kind>)
    ensures Texts(SchemaLevel(v, user, s) + KindStatements(v, user, database, s, ks))
      == (if s.privileges != [] then [BuiltText(BuiltSchema(v, user, s))] else [])
         + Texts(KindStatements(v, user, database, s, ks))
  {
    TextsSum(SchemaLevel(v, user, s), KindStatements(v, user, database, s, ks));
    var one := BuiltSchema(v, user, s);
    assert Texts([one]) == [BuiltText(one)];
  }

  lemma DatabaseTexts(v: Verb, user: string, d: DatabaseSpec)
    ensures Texts(DatabaseStatements(v, user, d))
      == (if d.privileges != [] then [BuiltText(BuiltDatabase(v, user, d))] else [])
         + Texts(SchemasStatements(v, user, d.name, d.schemas))
  {
    TextsSum(DatabaseLevel(v, user, d), SchemasStatements(v, user, d.name, d.schemas));
    var one := BuiltDatabase(v, user, d);
    assert Texts([one]) == [BuiltText(one)];
  }

  method GrantObjects(user: string, database: string, schema: string, k: Kind, objects: seq<ObjectSpec>)
    returns (texts: seq<string>)
    ensures texts == Texts(ObjectStatements(Grant, user, database, schema, k, objects))
  {
    texts := [];
    for j := 0 to |objects|
      invariant texts == Texts(ObjectStatements(Grant, user, database, schema, k, objects[..j]))
    {
      ObjectTexts(Grant, user, database, schema, k, objects, j);
      texts := texts + [BuiltText(BuiltObject(Grant, user, database, k, schema, objects[j]))];
    }
    assert objects[..|objects|] == objects;
  }

  method GrantKinds(user: string, database: string, s: SchemaSpec, ks: seq<Kind>) returns (texts: seq<string>)
    ensures texts == Texts(KindStatements(Grant, user, database, s, ks))
  {
    texts := [];
    for i := 0 to |ks|
      invariant texts == Texts(KindStatements(Grant, user, database, s, ks[..i]))
    {
      assert ks[..i + 1][..i] == ks[..i];
      var more := GrantObjects(user, database, s.name, ks[i], s.objects.Of(ks[i]));
      TextsSum(KindStatements(Grant, user, database, s, ks[..i]),
               ObjectStatements(Grant, user, database, s.name, ks[i], s.objects.Of(ks[i])));
      texts := texts + more;
    }
    assert ks[..|ks|] == ks;
  }

  method GrantSchema(user: string, database: string, s: SchemaSpec) returns (texts: seq<string>)
    ensures texts == Texts(SchemaStatements(Grant, user, database, s))
  {
    texts := [];
    if |s.privileges| > 0 {
      texts := [BuiltText(BuiltSchema(Grant, user, s))];
    }
    var more := GrantKinds(user, database, s, KINDS);
    SchemaTexts(Grant, user, database, s, KINDS);
    texts := texts + more;
  }

  method GrantSchemas(user: string, database: string, schemas: seq<SchemaSpec>) returns (texts: seq<string>)
    ensures texts == Texts(SchemasStatements(Grant, user, database, schemas))
  {
    texts := [];
    for j := 0 to |schemas|
      invariant texts == Texts(SchemasStatements(Grant, user, database, schemas[..j]))
    {
      assert schemas[..j + 1][..j] == schemas[..j];
      var more := GrantSchema(user, database, schemas[j]);
      TextsSum(SchemasStatements(Grant, user, database, schemas[..j]),
        SchemaStatements(Grant, user, database, schemas[j]));
      texts := texts + more;
    }
    assert schemas[..|schemas|] == schemas;
  }

  method GrantDatabase(user: string, d: DatabaseSpec) returns (texts: seq<string>)
    ensures texts == Texts(DatabaseStatements(Grant, user, d))
  {
    texts := [];
    if |d.privileges| > 0 {
      texts := [BuiltText(BuiltDatabase(Grant, user, d))];
    }
    var more := GrantSchemas(user, d.name, d.schemas);
    DatabaseTexts(Grant, user, d);
    texts := texts + more;
  }

  method BuildGrantStatements(user: string, grants: Option<seq<DatabaseSpec>>) returns (texts: seq<string>)
    ensures texts == if grants.Some? then Texts(Statements(Grant, user, grants.value)) else []
  {
    texts := [];
    if grants.None? { return; }
    var spec := grants.value;
    for i := 0 to |spec|
      invariant texts == Texts(Statements(Grant, user, spec[..i]))
    {
      assert spec[..i + 1][..i] == spec[..i];
      var more := GrantDatabase(user, spec[i]);
      TextsSum(Statements(Grant, user, spec[..i]), DatabaseStatements(Grant, user, spec[i]));
      texts := texts + more;
    }
    assert spec[..|spec|] == spec;
  }

  method RevokeObjects(user: string, database: string, schema: string, k: Kind, objects: seq<ObjectSpec>)
    returns (texts: seq<string>)
    ensures texts == Texts(ObjectStatements(Revoke, user, database, schema, k, objects))
  {
    texts := [];
    for j := 0 to |objects|
      invariant texts == Texts(ObjectStatements(Revoke, user, database, schema, k, objects[..j]))
    {
      ObjectTexts(Revoke, user, database, schema, k, objects, j);
      texts := texts + [BuiltText(BuiltObject(Revoke, user, database, k, schema, objects[j]))];
    }
    assert objects[..|objects|] == objects;
  }

  method RevokeKinds(user: string, database: string, s: SchemaSpec, ks: seq<Kind>) returns (texts: seq<string>)
    ensures texts == Texts(KindStatements(Revoke, user, database, s, ks))
  {
    texts := [];
    for i := 0 to |ks|
      invariant texts == Texts(KindStatements(Revoke, user, database, s, ks[..i]))
    {
      assert ks[..i + 1][..i] == ks[..i];
      var more := RevokeObjects(user, database, s.name, ks[i], s.objects.Of(ks[i]));
      TextsSum(KindStatements(Revoke, user, database, s, ks[..i]),
               ObjectStatements(Revoke, user, database, s.name, ks[i], s.objects.Of(ks[i])));
      texts := texts + more;
    }
    assert ks[..|ks|] == ks;
  }

  method RevokeSchema(user: string, database: string, s: SchemaSpec) returns (texts: seq<string>)
    ensures texts == Texts(SchemaStatements(Revoke, user, database, s))
  {
    texts := [];
    if |s.privileges| > 0 {
      texts := [BuiltText(BuiltSchema(Revoke, user, s))];
    }
    var more := RevokeKinds(user, database, s, KINDS);
    SchemaTexts(Revoke, user, database, s, KINDS);
    texts := texts + more;
  }

  method RevokeSchemas(user: string, database: string, schemas: seq<SchemaSpec>) returns (texts: seq<string>)
    ensures texts == Texts(SchemasStatements(Revoke, user, database, schemas))
  {
    texts := [];
    for j := 0 to |schemas|
      invariant texts == Texts(SchemasStatements(Revoke, user, database, schemas[..j]))
    {
      assert schemas[..j + 1][..j] == schemas[..j];
      var more := RevokeSchema(user, database, schemas[j]);
      TextsSum(SchemasStatements(Revoke, user, database, schemas[..j]),
        SchemaStatements(Revoke, user, database, schemas[j]));
      texts := texts + more;
    }
    assert schemas[..|schemas|] == schemas;
  }

  method RevokeDatabase(user: string, d: DatabaseSpec) returns (texts: seq<string>)
    ensures texts == Texts(DatabaseStatements(Revoke, user, d))
  {
    texts := [];
    if |d.privileges| > 0 {
      texts := [BuiltText(BuiltDatabase(Revoke, user, d))];
    }
    var more := RevokeSchemas(user, d.name, d.schemas);
    DatabaseTexts(Revoke, user, d);
    texts := texts + more;
  }

  method BuildRevokeStatements(user: string, grants: Option<seq<DatabaseSpec>>) returns (texts: seq<string>)
    ensures texts == if grants.Some? then Texts(Statements(Revoke, user, grants.value)) else []
  {
    texts := [];
    if grants.None? { return; }
    var spec := grants.value;
    for i := 0 to |spec|
      invariant texts == Texts(Statements(Revoke, user, spec[..i]))
    {
      assert spec[..i + 1][..i] == spec[..i];
      var more := RevokeDatabase(user, spec[i]);
      TextsSum(Statements(Revoke, user, spec[..i]), DatabaseStatements(Revoke, user, spec[i]));
      texts := texts + more;
    }
    assert spec[..|spec|] == spec;
  }

  // ---------- duality ----------

  /** A GRANT and its REVOKE: the same privileges and user, and the same thing named unless it is a named function. */
  predicate Mates(g: Built, r: Built) {
    && g.verb.Grant? && r.verb.Revoke? && r.privs == g.privs && r.user == g.user && !r.grantOption
    && (r.subject == g.subject || (
        && g.subject.Qualified? && g.subject.kind == Function
        && r.subject == Signature(g.subject.database, g.subject.schema, g.subject.name)))
  }

  ghost predicate Paired(grants: seq<Built>, revokes: seq<Built>) {
    |grants| == |revokes| && forall i :: 0 <= i < |grants| ==> Mates(grants[i], revokes[i])
  }

  /** Position by position the same privileges, user and thing named. */
  ghost predicate Dual(grants: seq<Built>, revokes: seq<Built>) {
    Paired(grants, revokes) && forall i :: 0 <= i < |grants| ==> revokes[i].subject == grants[i].subject
  }

  lemma PairedSum(a: seq<Built>, b: seq<Built>, c: seq<Built>, d: seq<Built>)
    requires Paired(a, c) && Paired(b, d)
    ensures Paired(a + b, c + d)
  {
  }

  lemma {:induction false} ObjectsPaired(user: string, database: string, schema: string, k: Kind,
                                         objects: seq<ObjectSpec>)
    ensures Paired(ObjectStatements(Grant, user, database, schema, k, objects),
                   ObjectStatements(Revoke, user, database, schema, k, objects))
  {
    if objects != [] {
      ObjectsPaired(user, database, schema, k, objects[..|objects| - 1]);
    }
  }

  lemma {:induction false} KindsPaired(user: string, database: string, s: SchemaSpec, ks: seq<Kind>)
    ensures Paired(KindStatements(Grant, user, database, s, ks), KindStatements(Revoke, user, database, s, ks))
  {
    if ks != [] {
      KindsPaired(user, database, s, ks[..|ks| - 1]);
      ObjectsPaired(user, database, s.name, ks[|ks| - 1], s.objects.Of(ks[|ks| - 1]));
    }
  }

  lemma {:induction false} SchemasPaired(user: string, database: string, schemas: seq<SchemaSpec>)
    ensures Paired(SchemasStatements(Grant, user, database, schemas),
      SchemasStatements(Revoke, user, database, schemas))
  {
    if schemas != [] {
      var front, s := schemas[..|schemas| - 1], schemas[|schemas| - 1];
      SchemasPaired(user, database, front);
      KindsPaired(user, database, s, KINDS);
      assert Paired([BuiltSchema(Grant, user, s)], [BuiltSchema(Revoke, user, s)]);
      PairedSum([BuiltSchema(Grant, user, s)], KindStatements(Grant, user, database, s, KINDS),
                [BuiltSchema(Revoke, user, s)], KindStatements(Revoke, user, database, s, KINDS));
      PairedSum(SchemasStatements(Grant, user, database, front), SchemaStatements(Grant, user, database, s),
                SchemasStatements(Revoke, user, database, front), SchemaStatements(Revoke, user, database, s));
    }
  }

  /** For every declaration the lists pair up, the REVOKE of a named function naming something else. */
  lemma {:induction false} BuildersPaired(user: string, spec: seq<DatabaseSpec>)
    ensures Paired(Statements(Grant, user, spec), Statements(Revoke, user, spec))
  {
    if spec != [] {
      var front, d := spec[..|spec| - 1], spec[|spec| - 1];
      BuildersPaired(user, front);
      SchemasPaired(user, d.name, d.schemas);
      assert Paired([BuiltDatabase(Grant, user, d)], [BuiltDatabase(Revoke, user, d)]);
      PairedSum([BuiltDatabase(Grant, user, d)], SchemasStatements(Grant, user, d.name, d.schemas),
                [BuiltDatabase(Revoke, user, d)], SchemasStatements(Revoke, user, d.name, d.schemas));
      PairedSum(Statements(Grant, user, front), DatabaseStatements(Grant, user, d),
                Statements(Revoke, user, front), DatabaseStatements(Revoke, user, d));
    }
  }

  // ---------- what is in the lists ----------

  /** Entry `o` of kind `k` in schema `s` of database `d` is declared. */
  predicate DeclaredEntry(spec: seq<DatabaseSpec>, d: DatabaseSpec, s: SchemaSpec, k: Kind, o: ObjectSpec) {
    d in spec && s in d.schemas && k in KINDS && o in s.objects.Of(k)
  }

  /** A statement about an object, and not about a schema or a database. */
  predicate AboutObject(b: Built) {
    b.subject.Here? ==> !b.subject.target.OnDatabase? && !b.subject.target.OnSchema?
  }

  lemma {:induction false} InObjects(v: Verb, user: string, database: string, schema: string, k: Kind,
                                     objects: seq<ObjectSpec>, b: Built)
    ensures b in ObjectStatements(v, user, database, schema, k, objects) <==>
      exists o :: o in objects && b == BuiltObject(v, user, database, k, schema, o)
  {
    if objects != [] {
      var front, last := objects[..|objects| - 1], objects[|objects| - 1];
      InObjects(v, user, database, schema, k, front, b);
      assert objects == front + [last];
    }
  }

  lemma {:induction false} InKinds(v: Verb, user: string, database: string, s: SchemaSpec, ks: seq<Kind>, b: Built)
    ensures b in KindStatements(v, user, database, s, ks) <==>
      exists k, o :: k in ks && o in s.objects.Of(k) && b == BuiltObject(v, user, database, k, s.name, o)
  {
    if ks != [] {
      var front, last := ks[..|ks| - 1], ks[|ks| - 1];
      var some := KindStatements(v, user, database, s, front);
      var more := ObjectStatements(v, user, database, s.name, last, s.objects.Of(last));
      InKinds(v, user, database, s, front, b);
      InObjects(v, user, database, s.name, last, s.objects.Of(last), b);
      assert b in some + more <==> b in some || b in more;
      assert forall k :: k in ks <==> k in front || k == last;
    }
  }

  /** Statement `b` is that of an entry of schema `s`. */
  ghost predicate FromSchema(v: Verb, user: string, database: string, s: SchemaSpec, b: Built) {
    exists k, o :: k in KINDS && o in s.objects.Of(k) && b == BuiltObject(v, user, database, k, s.name, o)
  }

  /** Statement `b` is that of schema `s` itself or of an entry in it. */
  ghost predicate InSchemaOf(v: Verb, user: string, database: string, s: SchemaSpec, b: Built) {
    (s.privileges != [] && b == BuiltSchema(v, user, s)) || FromSchema(v, user, database, s, b)
  }

  lemma InSchema(v: Verb, user: string, database: string, s: SchemaSpec, b: Built)
    ensures b in SchemaStatements(v, user, database, s) <==> InSchemaOf(v, user, database, s, b)
  {
    InKinds(v, user, database, s, KINDS, b);
  }

  lemma {:induction false} InSchemas(v: Verb, user: string, database: string, schemas: seq<SchemaSpec>, b: Built)
    ensures b in SchemasStatements(v, user, database, schemas) <==>
      exists s :: s in schemas && InSchemaOf(v, user, database, s, b)
  {
    if schemas != [] {
      var front, last := schemas[..|schemas| - 1], schemas[|schemas| - 1];
      var some, more := SchemasStatements(v, user, database, front), SchemaStatements(v, user, database, last);
      InSchemas(v, user, database, front, b);
      InSchema(v, user, database, last, b);
      assert b in some + more <==> b in some || b in more;
      assert forall s :: s in schemas <==> s in front || s == last;
    }
  }

  /** Statement `b` is that of database `d` itself or of something declared in it. */
  ghost predicate InDatabaseOf(v: Verb, user: string, d: DatabaseSpec, b: Built) {
    (d.privileges != [] && b == BuiltDatabase(v, user, d))
    || exists s :: s in d.schemas && InSchemaOf(v, user, d.name, s, b)
  }

  lemma InDatabase(v: Verb, user: string, d: DatabaseSpec, b: Built)
    ensures b in DatabaseStatements(v, user, d) <==> InDatabaseOf(v, user, d, b)
  {
    InSchemas(v, user, d.name, d.schemas, b);
  }

  lemma {:induction false} InDatabases(v: Verb, user: string, spec: seq<DatabaseSpec>, b: Built)
    ensures b in Statements(v, user, spec) <==> exists d :: d in spec && InDatabaseOf(v, user, d, b)
  {
    if spec != [] {
      var front, last := spec[..|spec| - 1], spec[|spec| - 1];
      var some, more := Statements(v, user, front), DatabaseStatements(v, user, last);
      InDatabases(v, user, front, b);
      InDatabase(v, user, last, b);
      assert b in some + more <==> b in some || b in more;
      assert forall d :: d in spec <==> d in front || d == last;
    }
  }

  /** The object statements of a list are those of the declared entries. */
  lemma InStatements(v: Verb, user: string, spec: seq<DatabaseSpec>, b: Built)
    requires AboutObject(b)
    ensures b in Statements(v, user, spec) <==>
      exists d, s, k, o :: DeclaredEntry(spec, d, s, k, o) && b == BuiltObject(v, user, d.name, k, s.name, o)
  {
    InDatabases(v, user, spec, b);
    if b in Statements(v, user, spec) {
      var d :| d in spec && InDatabaseOf(v, user, d, b);
      assert b != BuiltDatabase(v, user, d);
      var s :| s in d.schemas && InSchemaOf(v, user, d.name, s, b);
      assert b != BuiltSchema(v, user, s);
      var k, o :| k in KINDS && o in s.objects.Of(k) && b == BuiltObject(v, user, d.name, k, s.name, o);
      assert DeclaredEntry(spec, d, s, k, o);
    }
    if d, s, k, o :| DeclaredEntry(spec, d, s, k, o) && b == BuiltObject(v, user, d.name, k, s.name, o) {
      assert FromSchema(v, user, d.name, s, b) && InSchemaOf(v, user, d.name, s, b);
      assert InDatabaseOf(v, user, d, b);
    }
  }

  /** Every privilege listed is a word, or ALL PRIVILEGES. */
  ghost predicate Wordy(spec: seq<DatabaseSpec>) {
    forall d :: d in spec ==>
      && AreWords(Normalized(d.privileges))
      && forall s :: s in d.schemas ==>
        && AreWords(Normalized(s.privileges))
        && forall k, o :: k in KINDS && o in s.objects.Of(k) ==> AreWords(Normalized(o.privileges))
  }

  /** The texts of the lists are read as the statements they were built for. */
  lemma ListsAreRead(v: Verb, user: string, spec: seq<DatabaseSpec>, i: nat)
    requires Wordy(spec) && i < |Statements(v, user, spec)|
    ensures ReadsBuilt(Texts(Statements(v, user, spec))[i]) == Some(Statements(v, user, spec)[i])
  {
    ListedIsDecodable(v, user, spec, Statements(v, user, spec)[i]);
    BuiltTextReads(Statements(v, user, spec)[i]);
  }

  lemma ListedIsDecodable(v: Verb, user: string, spec: seq<DatabaseSpec>, b: Built)
    requires Wordy(spec) && b in Statements(v, user, spec)
    ensures Decodable(b)
  {
    InDatabases(v, user, spec, b);
    var d :| d in spec && InDatabaseOf(v, user, d, b);
    if !(d.privileges != [] && b == BuiltDatabase(v, user, d)) {
      var s :| s in d.schemas && InSchemaOf(v, user, d.name, s, b);
      if !(s.privileges != [] && b == BuiltSchema(v, user, s)) {
        var k, o :| k in KINDS && o in s.objects.Of(k) && b == BuiltObject(v, user, d.name, k, s.name, o);
      }
    }
  }

  /** A function is declared by name. */
  ghost predicate NamesFunction(spec: seq<DatabaseSpec>) {
    exists d, s, o :: DeclaredEntry(spec, d, s, Function, o) && o.name != "*"
  }

  /** The two lists mirror each other if and only if no function is declared by name. */
  lemma BuildersDual(user: string, spec: seq<DatabaseSpec>)
    ensures Dual(Statements(Grant, user, spec), Statements(Revoke, user, spec)) <==> !NamesFunction(spec)
  {
    var grants, revokes := Statements(Grant, user, spec), Statements(Revoke, user, spec);
    BuildersPaired(user, spec);
    if NamesFunction(spec) {
      var d, s, o :| DeclaredEntry(spec, d, s, Function, o) && o.name != "*";
      var b := BuiltObject(Revoke, user, d.name, Function, s.name, o);
      InStatements(Revoke, user, spec, b);
      var i :| 0 <= i < |revokes| && revokes[i] == b;
      GrantsNameNoSignature(user, spec, grants[i]);
    }
    if !Dual(grants, revokes) {
      var i :| 0 <= i < |grants| && revokes[i].subject != grants[i].subject;
      InStatements(Revoke, user, spec, revokes[i]);
      var d, s, k, o :|
        DeclaredEntry(spec, d, s, k, o) && revokes[i] == BuiltObject(Revoke, user, d.name, k, s.name, o);
      assert k == Function && o.name != "*";
    }
  }

  lemma GrantsNameNoSignature(user: string, spec: seq<DatabaseSpec>, b: Built)
    requires b in Statements(Grant, user, spec)
    ensures !b.subject.Signature?
  {
    if b.subject.Signature? {
      InStatements(Grant, user, spec, b);
    }
  }

  // ---------- running both lists ----------

  /** Which functions take exactly one argument of a type, for the server to resolve a signature. */
  type Arguments = (Place, string) -> bool

  /** Does a built statement, run by a session in `session`, act on a cell? */
  predicate Reaches(b: Built, session: string, takes: Arguments, c: Cell) {
    c.grantee == b.user && match b.subject
    case Here(t) => Covers(t, session, c.place)
    case Qualified(d, k, s, n) => c.place == ObjectPlace(d, k, s, n)
    case Signature(s, n, a) => c.place == ObjectPlace(session, Function, s, n) && takes(c.place, a)
  }

  function Touched(b: Built, session: string, takes: Arguments, c: Cell): set<string> {
    if Reaches(b, session, takes, c) then Expand(c.place, AsSet(b.privs)) else {}
  }

  function RunBuilt(v: set<string>, list: seq<Built>, session: string, takes: Arguments, c: Cell): set<string> {
    if list == [] then v
    else
      var before, b := RunBuilt(v, list[..|list| - 1], session, takes, c), list[|list| - 1];
      if b.verb.Grant? then before + Touched(b, session, takes, c) else before - Touched(b, session, takes, c)
  }

  function AllTouched(list: seq<Built>, session: string, takes: Arguments, c: Cell): set<string> {
    set b, q | b in list && q in Touched(b, session, takes, c) :: q
  }

  lemma TouchedGrows(list: seq<Built>, session: string, takes: Arguments, c: Cell)
    requires list != []
    ensures AllTouched(list, session, takes, c)
      == AllTouched(list[..|list| - 1], session, takes, c) + Touched(list[|list| - 1], session, takes, c)
  {
    assert list == list[..|list| - 1] + [list[|list| - 1]];
  }

  lemma {:induction false} RunGrants(v: set<string>, list: seq<Built>, session: string, takes: Arguments, c: Cell)
    requires forall i :: 0 <= i < |list| ==> list[i].verb.Grant?
    ensures RunBuilt(v, list, session, takes, c) == v + AllTouched(list, session, takes, c)
  {
    if list != [] {
      RunGrants(v, list[..|list| - 1], session, takes, c);
      TouchedGrows(list, session, takes, c);
    }
  }

  lemma {:induction false} RunRevokes(v: set<string>, list: seq<Built>, session: string, takes: Arguments, c: Cell)
    requires forall i :: 0 <= i < |list| ==> list[i].verb.Revoke?
    ensures RunBuilt(v, list, session, takes, c) == v - AllTouched(list, session, takes, c)
  {
    if list != [] {
      RunRevokes(v, list[..|list| - 1], session, takes, c);
      TouchedGrows(list, session, takes, c);
    }
  }

  /** Mates touch the same, except on functions. */
  lemma MatesTouch(g: Built, r: Built, session: string, takes: Arguments, c: Cell)
    requires Mates(g, r)
    requires r.subject == g.subject || !(c.place.ObjectPlace? && c.place.kind == Function)
    ensures Touched(g, session, takes, c) == Touched(r, session, takes, c)
  {
  }

  lemma PairedTouch(grants: seq<Built>, revokes: seq<Built>, session: string, takes: Arguments, c: Cell)
    requires Paired(grants, revokes)
    requires Dual(grants, revokes) || !(c.place.ObjectPlace? && c.place.kind == Function)
    ensures AllTouched(grants, session, takes, c) == AllTouched(revokes, session, takes, c)
  {
    forall q ensures q in AllTouched(grants, session, takes, c) <==> q in AllTouched(revokes, session, takes, c) {
      if q in AllTouched(grants, session, takes, c) {
        var b :| b in grants && q in Touched(b, session, takes, c);
        var i :| 0 <= i < |grants| && grants[i] == b;
        MatesTouch(grants[i], revokes[i], session, takes, c);
        assert revokes[i] in revokes;
      }
      if q in AllTouched(revokes, session, takes, c) {
        var b :| b in revokes && q in Touched(b, session, takes, c);
        var i :| 0 <= i < |revokes| && revokes[i] == b;
        MatesTouch(grants[i], revokes[i], session, takes, c);
        assert grants[i] in grants;
      }
    }
  }

  /** What all grants and then all revokes make of a cell. */
  function AfterBoth(user: string, spec: seq<DatabaseSpec>, v: set<string>, session: string, takes: Arguments,
                     c: Cell): set<string>
  {
    RunBuilt(RunBuilt(v, Statements(Grant, user, spec), session, takes, c), Statements(Revoke, user, spec), session,
      takes, c)
  }

  lemma BothLists(user: string, spec: seq<DatabaseSpec>, v: set<string>, session: string, takes: Arguments, c: Cell)
    ensures AfterBoth(user, spec, v, session, takes, c)
      == (v + AllTouched(Statements(Grant, user, spec), session, takes, c))
         - AllTouched(Statements(Revoke, user, spec), session, takes, c)
  {
    BuildersPaired(user, spec);
    RunGrants(v, Statements(Grant, user, spec), session, takes, c);
    RunRevokes(v + AllTouched(Statements(Grant, user, spec), session, takes, c), Statements(Revoke, user, spec),
      session, takes, c);
  }

  /**
   All grants, then all revokes: on every cell that is not a function's, and on all cells when no function is
   declared by name, the granted privileges are gone and the others as before.
   */
  lemma GrantsThenRevokes(user: string, spec: seq<DatabaseSpec>, v: set<string>, session: string, takes: Arguments,
                          c: Cell)
    requires !(c.place.ObjectPlace? && c.place.kind == Function) || !NamesFunction(spec)
    ensures AfterBoth(user, spec, v, session, takes, c)
      == v - AllTouched(Statements(Grant, user, spec), session, takes, c)
  {
    BothLists(user, spec, v, session, takes, c);
    BuildersPaired(user, spec);
    BuildersDual(user, spec);
    PairedTouch(Statements(Grant, user, spec), Statements(Revoke, user, spec), session, takes, c);
  }

  /** What an entry is read as, with its grant option where it is granted. */
  ghost predicate ReadAsEntry(text: string, v: Verb, user: string, subject: Subject, privs: seq<string>, option: bool) {
    exists b :: ReadsBuilt(text) == Some(b) && b == Built(v, privs, subject, user, v.Grant? && option)
  }

  /** Every declared object has a GRANT that reads as it is declared, grant option included. */
  lemma EntryIsGranted(user: string, spec: seq<DatabaseSpec>, d: DatabaseSpec, s: SchemaSpec, k: Kind, o: ObjectSpec)
    returns (text: string)
    requires Wordy(spec) && DeclaredEntry(spec, d, s, k, o)
    ensures text in Texts(Statements(Grant, user, spec))
    ensures ReadAsEntry(text, Grant, user,
      if o.name == "*" then Here(OnAllObjects(k, s.name)) else Qualified(d.name, k, s.name, o.name),
      Normalized(o.privileges), o.withGrantOption)
  {
    var b := BuiltObject(Grant, user, d.name, k, s.name, o);
    InStatements(Grant, user, spec, b);
    text := ListedTextRead(Grant, user, spec, b);
  }

  lemma ListedTextRead(v: Verb, user: string, spec: seq<DatabaseSpec>, b: Built) returns (text: string)
    requires Wordy(spec) && b in Statements(v, user, spec)
    ensures text in Texts(Statements(v, user, spec)) && ReadsBuilt(text) == Some(b)
  {
    var i :| 0 <= i < |Statements(v, user, spec)| && Statements(v, user, spec)[i] == b;
    ListsAreRead(v, user, spec, i);
    text := Texts(Statements(v, user, spec))[i];
  }

  /** So has every schema and database entry that lists something. */
  lemma LevelsAreGranted(user: string, spec: seq<DatabaseSpec>, d: DatabaseSpec, s: SchemaSpec)
    requires Wordy(spec) && d in spec && s in d.schemas
    ensures d.privileges != [] ==> exists text ::
      text in Texts(Statements(Grant, user, spec))
      && ReadAsEntry(text, Grant, user, Here(OnDatabase(d.name)), Normalized(d.privileges), d.withGrantOption)
    ensures s.privileges != [] ==> exists text ::
      text in Texts(Statements(Grant, user, spec))
      && ReadAsEntry(text, Grant, user, Here(OnSchema(s.name)), Normalized(s.privileges), s.withGrantOption)
  {
    if d.privileges != [] {
      var b := BuiltDatabase(Grant, user, d);
      assert InDatabaseOf(Grant, user, d, b);
      InDatabases(Grant, user, spec, b);
      var text := ListedTextRead(Grant, user, spec, b);
    }
    if s.privileges != [] {
      var b := BuiltSchema(Grant, user, s);
      assert InSchemaOf(Grant, user, d.name, s, b) && InDatabaseOf(Grant, user, d, b);
      InDatabases(Grant, user, spec, b);
      var text := ListedTextRead(Grant, user, spec, b);
    }
  }

  // ---------- what the grants give ----------

  /** The privileges a list names: ALL PRIVILEGES is ALL. */
  function NamedIn(privs: seq<string>): set<string> {
    set p | p in privs :: if p == "ALL PRIVILEGES" then "ALL" else p
  }

  /** An object entry that lists nothing is granted USAGE, of whatever kind it is. */
  function NamedInEntry(o: ObjectSpec): set<string> {
    if o.privileges == [] then {"USAGE"} else NamedIn(o.privileges)
  }

  lemma NormalizedNames(privs: seq<string>)
    ensures AsSet(Normalized(privs)) == if privs == [] then {"USAGE"} else NamedIn(privs)
  {
    var r := Normalized(privs);
    if privs != [] {
      forall q ensures q in AsSet(r) <==> q in NamedIn(privs) {
        if q in AsSet(r) {
          var i :| 0 <= i < |r| && r[i] == q;
          assert privs[i] in privs;
        }
        if q in NamedIn(privs) {
          var p :| p in privs && q == if p == "ALL PRIVILEGES" then "ALL" else p;
          var i :| 0 <= i < |privs| && privs[i] == p;
          assert r[i] == q;
        }
      }
    }
  }

  /** What is declared for a place, for a session in `session`. */
  ghost predicate DeclaredFor(spec: seq<DatabaseSpec>, session: string, p: Place, q: string) {
    match p
    case DatabasePlace(d) => exists e :: e in spec && e.name == d && q in Expand(p, NamedIn(e.privileges))
    case SchemaPlace(d, s) =>
      d == session
      && exists e, t :: e in spec && t in e.schemas && t.name == s && q in Expand(p, NamedIn(t.privileges))
    case ObjectPlace(d, k, s, n) =>
      exists e, t, o :: DeclaredEntry(spec, e, t, k, o) && t.name == s
        && (if o.name == "*" then d == session else e.name == d && o.name == n)
        && q in Expand(p, NamedInEntry(o))
  }

  lemma DatabaseTouches(user: string, spec: seq<DatabaseSpec>, session: string, takes: Arguments, c: Cell,
                        e: DatabaseSpec, q: string)
    requires e in spec && e.privileges != [] && q in Touched(BuiltDatabase(Grant, user, e), session, takes, c)
    ensures c.grantee == user && DeclaredFor(spec, session, c.place, q)
  {
    NormalizedNames(e.privileges);
  }

  lemma SchemaTouches(user: string, spec: seq<DatabaseSpec>, session: string, takes: Arguments, c: Cell,
                      e: DatabaseSpec, t: SchemaSpec, q: string)
    requires e in spec && t in e.schemas && t.privileges != []
    requires q in Touched(BuiltSchema(Grant, user, t), session, takes, c)
    ensures c.grantee == user && DeclaredFor(spec, session, c.place, q)
  {
    NormalizedNames(t.privileges);
  }

  lemma ObjectTouches(user: string, spec: seq<DatabaseSpec>, session: string, takes: Arguments, c: Cell,
                      e: DatabaseSpec, t: SchemaSpec, k: Kind, o: ObjectSpec, q: string)
    requires DeclaredEntry(spec, e, t, k, o)
    requires q in Touched(BuiltObject(Grant, user, e.name, k, t.name, o), session, takes, c)
    ensures c.grantee == user && DeclaredFor(spec, session, c.place, q)
  {
    NormalizedNames(o.privileges);
  }

  /** A statement of a list touches a place with what is declared there. */
  lemma TouchedIsDeclared(user: string, spec: seq<DatabaseSpec>, session: string, takes: Arguments, c: Cell, b: Built,
                          q: string)
    requires b in Statements(Grant, user, spec) && q in Touched(b, session, takes, c)
    ensures c.grantee == user && DeclaredFor(spec, session, c.place, q)
  {
    InDatabases(Grant, user, spec, b);
    var e :| e in spec && InDatabaseOf(Grant, user, e, b);
    if b == BuiltDatabase(Grant, user, e) && e.privileges != [] {
      DatabaseTouches(user, spec, session, takes, c, e, q);
    } else {
      var t :| t in e.schemas && InSchemaOf(Grant, user, e.name, t, b);
      if b == BuiltSchema(Grant, user, t) && t.privileges != [] {
        SchemaTouches(user, spec, session, takes, c, e, t, q);
      } else {
        var k, o :| k in KINDS && o in t.objects.Of(k) && b == BuiltObject(Grant, user, e.name, k, t.name, o);
        ObjectTouches(user, spec, session, takes, c, e, t, k, o, q);
      }
    }
  }

  lemma DatabaseGiven(user: string, spec: seq<DatabaseSpec>, session: string, takes: Arguments, e: DatabaseSpec,
                      q: string) returns (b: Built)
    requires e in spec && q in Expand(DatabasePlace(e.name), NamedIn(e.privileges))
    ensures b in Statements(Grant, user, spec) && q in Touched(b, session, takes, Cell(user, DatabasePlace(e.name)))
  {
    b := BuiltDatabase(Grant, user, e);
    NormalizedNames(e.privileges);
    assert e.privileges != [] && InDatabaseOf(Grant, user, e, b);
    InDatabases(Grant, user, spec, b);
  }

  lemma SchemaGiven(user: string, spec: seq<DatabaseSpec>, session: string, takes: Arguments, e: DatabaseSpec,
                    t: SchemaSpec, q: string) returns (b: Built)
    requires e in spec && t in e.schemas && q in Expand(SchemaPlace(session, t.name), NamedIn(t.privileges))
    ensures b in Statements(Grant, user, spec)
      && q in Touched(b, session, takes, Cell(user, SchemaPlace(session, t.name)))
  {
    b := BuiltSchema(Grant, user, t);
    NormalizedNames(t.privileges);
    assert t.privileges != [] && InSchemaOf(Grant, user, e.name, t, b) && InDatabaseOf(Grant, user, e, b);
    InDatabases(Grant, user, spec, b);
  }

  lemma ObjectGiven(user: string, spec: seq<DatabaseSpec>, session: string, takes: Arguments, p: Place, e: DatabaseSpec,
                    t: SchemaSpec, o: ObjectSpec, q: string) returns (b: Built)
    requires p.ObjectPlace? && DeclaredEntry(spec, e, t, p.kind, o) && t.name == p.schema
    requires if o.name == "*" then p.database == session else e.name == p.database && o.name == p.name
    requires q in Expand(p, NamedInEntry(o))
    ensures b in Statements(Grant, user, spec) && q in Touched(b, session, takes, Cell(user, p))
  {
    b := BuiltObject(Grant, user, e.name, p.kind, t.name, o);
    NormalizedNames(o.privileges);
    InStatements(Grant, user, spec, b);
  }

  /** What is declared for a place is in some statement of the list. */
  lemma DeclaredIsTouched(user: string, spec: seq<DatabaseSpec>, session: string, takes: Arguments, p: Place, q: string)
    returns (b: Built)
    requires DeclaredFor(spec, session, p, q)
    ensures b in Statements(Grant, user, spec) && q in Touched(b, session, takes, Cell(user, p))
  {
    match p
    case DatabasePlace(d) =>
      var e :| e in spec && e.name == d && q in Expand(p, NamedIn(e.privileges));
      b := DatabaseGiven(user, spec, session, takes, e, q);
    case SchemaPlace(d, s) =>
      var e, t :| e in spec && t in e.schemas && t.name == s && q in Expand(p, NamedIn(t.privileges));
      b := SchemaGiven(user, spec, session, takes, e, t, q);
    case ObjectPlace(d, k, s, n) =>
      var e, t, o :| DeclaredEntry(spec, e, t, k, o) && t.name == s
        && (if o.name == "*" then d == session else e.name == d && o.name == n)
        && q in Expand(p, NamedInEntry(o));
      b := ObjectGiven(user, spec, session, takes, p, e, t, o, q);
  }

  /** Running all grants gives each place of the user exactly what is declared for it, and takes nothing. */
  lemma GrantsGiveExactly(user: string, spec: seq<DatabaseSpec>, v: set<string>, session: string, takes: Arguments,
                          c: Cell, q: string)
    ensures q in RunBuilt(v, Statements(Grant, user, spec), session, takes, c) <==>
      q in v || (c.grantee == user && DeclaredFor(spec, session, c.place, q))
  {
    var list := Statements(Grant, user, spec);
    BuildersPaired(user, spec);
    RunGrants(v, list, session, takes, c);
    if q in AllTouched(list, session, takes, c) {
      var b :| b in list && q in Touched(b, session, takes, c);
      TouchedIsDeclared(user, spec, session, takes, c, b, q);
    }
    if c.grantee == user && DeclaredFor(spec, session, c.place, q) {
      var b := DeclaredIsTouched(user, spec, session, takes, c.place, q);
      assert c == Cell(user, c.place);
    }
  }

  /** Which function a revoke entry acts on: all of a schema for `*`, else the one its signature happens to name. */
  predicate RevokeFinds(d: string, s: string, name: string, session: string, takes: Arguments, p: Place)
    requires p.ObjectPlace?
  {
    if name == "*" then p.database == session && p.schema == s
    else p == ObjectPlace(session, Function, d, s) && takes(p, name)
  }

  /** What the revokes take from a function. */
  ghost predicate TakenFromFunction(spec: seq<DatabaseSpec>, session: string, takes: Arguments, p: Place, q: string)
    requires p.ObjectPlace?
  {
    exists d, s, o :: DeclaredEntry(spec, d, s, Function, o) && RevokeFinds(d.name, s.name, o.name, session, takes, p)
      && q in Expand(p, AsSet(Normalized(o.privileges)))
  }

  /** Which function a grant entry acts on. */
  predicate GrantFinds(d: string, s: string, name: string, session: string, p: Place)
    requires p.ObjectPlace?
  {
    if name == "*" then p.database == session && p.schema == s else p == ObjectPlace(d, Function, s, name)
  }

  /** What the grants give on a function. */
  ghost predicate GivenOnFunction(spec: seq<DatabaseSpec>, session: string, p: Place, q: string)
    requires p.ObjectPlace?
  {
    exists d, s, o :: DeclaredEntry(spec, d, s, Function, o) && GrantFinds(d.name, s.name, o.name, session, p)
      && q in Expand(p, AsSet(Normalized(o.privileges)))
  }

  /** What the statement of an entry touches on a function. */
  lemma EntryTouches(v: Verb, user: string, d: string, s: string, k: Kind, o: ObjectSpec, session: string,
                     takes: Arguments, c: Cell)
    requires c.grantee == user && c.place.ObjectPlace? && c.place.kind == Function
    ensures var b := BuiltObject(v, user, d, k, s, o);
      && AboutObject(b)
      && (Reaches(b, session, takes, c) <==> (
            && k == Function
            && if v.Grant? then GrantFinds(d, s, o.name, session, c.place)
               else RevokeFinds(d, s, o.name, session, takes, c.place)))
  {
  }

  lemma TouchedIsAboutObject(b: Built, session: string, takes: Arguments, c: Cell, q: string)
    requires c.place.ObjectPlace? && q in Touched(b, session, takes, c)
    ensures AboutObject(b)
  {
  }

  lemma ListTouchesFunction(v: Verb, user: string, spec: seq<DatabaseSpec>, session: string, takes: Arguments, c: Cell,
                            q: string)
    requires c.grantee == user && c.place.ObjectPlace? && c.place.kind == Function
    ensures q in AllTouched(Statements(v, user, spec), session, takes, c) <==>
      exists d, s, o :: DeclaredEntry(spec, d, s, Function, o) && q in Expand(c.place, AsSet(Normalized(o.privileges)))
        && if v.Grant? then GrantFinds(d.name, s.name, o.name, session, c.place)
           else RevokeFinds(d.name, s.name, o.name, session, takes, c.place)
  {
    if q in AllTouched(Statements(v, user, spec), session, takes, c) {
      var b :| b in Statements(v, user, spec) && q in Touched(b, session, takes, c);
      TouchedIsAboutObject(b, session, takes, c, q);
      InStatements(v, user, spec, b);
      var d, s, k, o :| DeclaredEntry(spec, d, s, k, o) && b == BuiltObject(v, user, d.name, k, s.name, o);
      EntryTouches(v, user, d.name, s.name, k, o, session, takes, c);
    }
    forall d, s, o | DeclaredEntry(spec, d, s, Function, o) && q in Expand(c.place, AsSet(Normalized(o.privileges)))
        && if v.Grant? then GrantFinds(d.name, s.name, o.name, session, c.place)
           else RevokeFinds(d.name, s.name, o.name, session, takes, c.place)
      ensures q in AllTouched(Statements(v, user, spec), session, takes, c)
    {
      var b := BuiltObject(v, user, d.name, Function, s.name, o);
      EntryTouches(v, user, d.name, s.name, Function, o, session, takes, c);
      InStatements(v, user, spec, b);
      assert q in Touched(b, session, takes, c);
    }
  }

  /**
   On a function both lists leave exactly what was held or granted and is not taken by a `*` entry or by a
   signature that happens to name it: a function granted by name keeps its grant.
   */
  lemma FunctionsKeepGrants(user: string, spec: seq<DatabaseSpec>, v: set<string>, session: string, takes: Arguments,
                            c: Cell, q: string)
    requires c.grantee == user && c.place.ObjectPlace? && c.place.kind == Function
    ensures q in AfterBoth(user, spec, v, session, takes, c) <==>
      (q in v || GivenOnFunction(spec, session, c.place, q)) && !TakenFromFunction(spec, session, takes, c.place, q)
  {
    BothLists(user, spec, v, session, takes, c);
    ListTouchesFunction(Grant, user, spec, session, takes, c, q);
    ListTouchesFunction(Revoke, user, spec, session, takes, c, q);
  }

  // ---------- one named function ----------

  /** EXECUTE on `myfunc` in schema `public` of database `mydb`. */
  const NAMED_SPEC: seq<DatabaseSpec> :=
    [DatabaseSpec("mydb", [], false, [SchemaSpec("public", [], false,
      Listing([], [], [], [], [], [], [ObjectSpec("myfunc", ["EXECUTE"], false)]))])]

  lemma NamedEntries()
    ensures var d := NAMED_SPEC[0]; var s := d.schemas[0]; var o := s.objects.Of(Function)[0];
      && DeclaredEntry(NAMED_SPEC, d, s, Function, o)
      && (forall e, t, x :: DeclaredEntry(NAMED_SPEC, e, t, Function, x) ==> e == d && t == s && x == o)
      && AsSet(Normalized(o.privileges)) == {"EXECUTE"}
  {
    assert KINDS[6] == Function;
    var d := NAMED_SPEC[0];
    var s := d.schemas[0];
    var o := s.objects.Of(Function)[0];
    assert d in NAMED_SPEC && s in d.schemas && o in s.objects.Of(Function);
    assert Normalized(o.privileges) == ["EXECUTE"];
  }

  /** After all grants and all revokes the function is still granted, whatever functions take which arguments. */
  lemma NamedFunctionStaysGranted(user: string, session: string, takes: Arguments)
    ensures var c := Cell(user, ObjectPlace("mydb", Function, "public", "myfunc"));
      AfterBoth(user, NAMED_SPEC, {}, session, takes, c) == {"EXECUTE"}
  {
    var p := ObjectPlace("mydb", Function, "public", "myfunc");
    NamedEntries();
    assert Expand(p, {"EXECUTE"}) == {"EXECUTE"};
    forall q
      ensures q in AfterBoth(user, NAMED_SPEC, {}, session, takes, Cell(user, p)) <==> q in {"EXECUTE"}
    {
      FunctionsKeepGrants(user, NAMED_SPEC, {}, session, takes, Cell(user, p), q);
    }
  }
}
