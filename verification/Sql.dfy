/**
 The GRANT and REVOKE statements the operator sends, their texts, and a reader of such texts: what is read is
 what was meant, so that a text names one statement only (the executor looks statements up by their text).
 */
module Sql {
  import opened Strings
  import opened Wrappers

  datatype Kind = Table | View | MaterializedView | Source | Sink | Secret | Function

  const KINDS: seq<Kind> := [Table, View, MaterializedView, Source, Sink, Secret, Function]

  /** One value per object kind: the seven list fields of a schema entry. */
  datatype Listing<T> = Listing(
    tables: seq<T>, views: seq<T>, materializedViews: seq<T>, sources: seq<T>,
    sinks: seq<T>, secrets: seq<T>, functions: seq<T>)
  {
    function Of(k: Kind): seq<T> {
      match k
      case Table => tables
      case View => views
      case MaterializedView => materializedViews
      case Source => sources
      case Sink => sinks
      case Secret => secrets
      case Function => functions
    }
  }

  datatype Verb = Grant | Revoke

  /** What a statement is about; the database of the last three is the session's. */
  datatype Target =
    | OnDatabase(database: string)
    | OnSchema(schema: string)
    | OnObject(kind: Kind, schema: string, name: string)
    | OnAllObjects(kind: Kind, schema: string)

  datatype Stmt = Stmt(verb: Verb, privs: seq<string>, target: Target, user: string)

  /** The name `*` asks for every object of the kind. */
  function TargetFor(k: Kind, schema: string, name: string): Target {
    if name == "*" then OnAllObjects(k, schema) else OnObject(k, schema, name)
  }

  // ---------- quoting ----------

  /** strings.ReplaceAll(s, q, qq) */
  function Doubled(s: string, q: char): string {
    if s == "" then "" else (if s[0] == q then [q, q] else [s[0]]) + Doubled(s[1..], q)
  }

  function QuoteUser(name: string): string {
    "\"" + (Doubled(name, '"') + "\"")
  }

  function QuoteIdentifier(name: string): string {
    if name == "*" then name else QuoteUser(name)
  }

  function EscapeStringLiteral(s: string): string {
    Doubled(s, '\'')
  }

  // ---------- statement texts ----------

  function VerbWord(v: Verb): string {
    if v.Grant? then "GRANT" else "REVOKE"
  }

  function KindWord(k: Kind): string {
    match k
    case Table => "TABLE"
    case View => "VIEW"
    case MaterializedView => "MATERIALIZED VIEW"
    case Source => "SOURCE"
    case Sink => "SINK"
    case Secret => "SECRET"
    case Function => "FUNCTION"
  }

  /** The words between ON and the first quoted name. */
  function Keyword(t: Target): string {
    match t
    case OnDatabase(_) => "DATABASE "
    case OnSchema(_) => "SCHEMA "
    case OnObject(k, _, _) => KindWord(k) + " "
    case OnAllObjects(k, _) => "ALL " + (KindWord(k) + "S IN SCHEMA ")
  }

  function Names(t: Target): string {
    match t
    case OnDatabase(d) => QuoteIdentifier(d)
    case OnSchema(s) => QuoteIdentifier(s)
    case OnObject(_, s, n) => QuoteIdentifier(s) + ("." + QuoteIdentifier(n))
    case OnAllObjects(_, s) => QuoteIdentifier(s)
  }

  function Preposition(v: Verb): string {
    if v.Grant? then " TO " else " FROM "
  }

  /** The text sent to the server (concatenation written right to left). */
  function Text(s: Stmt): string {
    VerbWord(s.verb) + (" " + (Join(s.privs, ", ") + (" ON " + (Keyword(s.target)
    + (Names(s.target) + (Preposition(s.verb) + QuoteUser(s.user)))))))
  }

  predicate IsLetter(c: char) { 'A' <= c <= 'Z' }

  /** The declared privilege names are all of this form. */
  predicate IsWord(p: string) { p != "" && Within(p, IsLetter) }

  predicate AreWords(privs: seq<string>) { forall i :: 0 <= i < |privs| ==> IsWord(privs[i]) }

  predicate WellFormed(s: Stmt) { s.privs != [] && AreWords(s.privs) }

  // ---------- reading a text ----------

  /** What a text consists of; spaces only keep words apart. */
  datatype Token = Word(word: string) | Name(name: string) | Literal(text: string) | Symbol(symbol: char)

  /** A quoted string after its opening quote: two quotes stand for one, and a lone one ends it. */
  function ReadQuoted(q: char, s: string): (r: Option<(string, string)>)
    ensures r.Some? ==> |r.value.1| < |s|
  {
    if s == "" then None
    else if s[0] != q then
      var r := ReadQuoted(q, s[1..]);
      if r.None? then None else Some(([s[0]] + r.value.0, r.value.1))
    else if |s| > 1 && s[1] == q then
      var r := ReadQuoted(q, s[2..]);
      if r.None? then None else Some(([q] + r.value.0, r.value.1))
    else Some(("", s[1..]))
  }

  /** How many letters `s` starts with. */
  function LettersIn(s: string): (n: nat)
    ensures n <= |s|
  {
    if s != "" && 'A' <= s[0] <= 'Z' then 1 + LettersIn(s[1..]) else 0
  }

  function Tokens(s: string): seq<Token>
    decreases |s|
  {
    if s == "" then []
    else if s[0] == ' ' then Tokens(s[1..])
    else if LettersIn(s) > 0 then [Word(s[..LettersIn(s)])] + Tokens(s[LettersIn(s)..])
    else if s[0] == '"' && ReadQuoted('"', s[1..]).Some? then
      var r := ReadQuoted('"', s[1..]).value; [Name(r.0)] + Tokens(r.1)
    else if s[0] == '\'' && ReadQuoted('\'', s[1..]).Some? then
      var r := ReadQuoted('\'', s[1..]).value; [Literal(r.0)] + Tokens(r.1)
    else [Symbol(s[0])] + Tokens(s[1..])
  }

  datatype Noun = DatabaseNoun | SchemaNoun | ObjectNoun(kind: Kind)

  /** What stands after ON: everything of a kind in a schema, or one thing by its path, maybe with an argument. */
  datatype Clause =
    | Everything(kind: Kind, schema: string)
    | Thing(noun: Noun, path: seq<string>, argument: Option<string>)

  datatype Command = Command(verb: Verb, privs: seq<string>, clause: Clause, user: string, grantOption: bool)

  function ReadVerb(t: Token): Option<Verb> {
    if t == Word("GRANT") then Some(Grant) else if t == Word("REVOKE") then Some(Revoke) else None
  }

  /** Words with commas between. */
  function ReadPrivileges(ts: seq<Token>): Option<(seq<string>, seq<Token>)> {
    if ts == [] || !ts[0].Word? then None
    else if |ts| > 1 && ts[1] == Symbol(',') then
      var r := ReadPrivileges(ts[2..]);
      if r.None? then None else Some(([ts[0].word] + r.value.0, r.value.1))
    else Some(([ts[0].word], ts[1..]))
  }

  function ReadNoun(ts: seq<Token>): Option<(Noun, seq<Token>)> {
    if ts == [] then None
    else if ts[0] == Word("DATABASE") then Some((DatabaseNoun, ts[1..]))
    else if ts[0] == Word("SCHEMA") then Some((SchemaNoun, ts[1..]))
    else if ts[0] == Word("TABLE") then Some((ObjectNoun(Table), ts[1..]))
    else if ts[0] == Word("VIEW") then Some((ObjectNoun(View), ts[1..]))
    else if ts[0] == Word("MATERIALIZED") && |ts| > 1 && ts[1] == Word("VIEW") then
      Some((ObjectNoun(MaterializedView), ts[2..]))
    else if ts[0] == Word("SOURCE") then Some((ObjectNoun(Source), ts[1..]))
    else if ts[0] == Word("SINK") then Some((ObjectNoun(Sink), ts[1..]))
    else if ts[0] == Word("SECRET") then Some((ObjectNoun(Secret), ts[1..]))
    else if ts[0] == Word("FUNCTION") then Some((ObjectNoun(Function), ts[1..]))
    else None
  }

  function ReadPlural(ts: seq<Token>): Option<(Kind, seq<Token>)> {
    if ts == [] then None
    else if ts[0] == Word("TABLES") then Some((Table, ts[1..]))
    else if ts[0] == Word("VIEWS") then Some((View, ts[1..]))
    else if ts[0] == Word("MATERIALIZED") && |ts| > 1 && ts[1] == Word("VIEWS") then Some((MaterializedView, ts[2..]))
    else if ts[0] == Word("SOURCES") then Some((Source, ts[1..]))
    else if ts[0] == Word("SINKS") then Some((Sink, ts[1..]))
    else if ts[0] == Word("SECRETS") then Some((Secret, ts[1..]))
    else if ts[0] == Word("FUNCTIONS") then Some((Function, ts[1..]))
    else None
  }

  /** A quoted name, or the bare `*` that the operator writes for the name `*`. */
  function ReadName(t: Token): Option<string> {
    if t.Name? then Some(t.name) else if t == Symbol('*') then Some("*") else None
  }

  /** Names with dots between. */
  function ReadPath(ts: seq<Token>): Option<(seq<string>, seq<Token>)> {
    if ts == [] || ReadName(ts[0]).None? then None
    else if |ts| > 1 && ts[1] == Symbol('.') then
      var r := ReadPath(ts[2..]);
      if r.None? then None else Some(([ReadName(ts[0]).value] + r.value.0, r.value.1))
    else Some(([ReadName(ts[0]).value], ts[1..]))
  }

  /** One name in parentheses, if there are any. */
  function ReadArgument(ts: seq<Token>): Option<(Option<string>, seq<Token>)> {
    if ts == [] || ts[0] != Symbol('(') then Some((None, ts))
    else if |ts| >= 3 && ReadName(ts[1]).Some? && ts[2] == Symbol(')') then Some((ReadName(ts[1]), ts[3..]))
    else None
  }

  function ReadEverything(ts: seq<Token>): Option<(Clause, seq<Token>)> {
    var kind := ReadPlural(ts);
    if kind.None? then None
    else
      var rest := kind.value.1;
      if |rest| >= 3 && rest[0] == Word("IN") && rest[1] == Word("SCHEMA") && ReadName(rest[2]).Some?
      then Some((Everything(kind.value.0, ReadName(rest[2]).value), rest[3..]))
      else None
  }

  function ReadThing(ts: seq<Token>): Option<(Clause, seq<Token>)> {
    var noun := ReadNoun(ts);
    if noun.None? then None
    else
      var path := ReadPath(noun.value.1);
      if path.None? then None
      else
        var argument := ReadArgument(path.value.1);
        if argument.None? then None
        else Some((Thing(noun.value.0, path.value.0, argument.value.0), argument.value.1))
  }

  function ReadClause(ts: seq<Token>): Option<(Clause, seq<Token>)> {
    if ts != [] && ts[0] == Word("ALL") then ReadEverything(ts[1..]) else ReadThing(ts)
  }

  /** To whom is granted, from whom is revoked, and whether it may be passed on. */
  function ReadGrantee(v: Verb, ts: seq<Token>): Option<(string, bool)> {
    if |ts| < 2 || ts[0] != Word(if v.Grant? then "TO" else "FROM") || !ts[1].Name? then None
    else if |ts| == 2 then Some((ts[1].name, false))
    else if v.Grant? && ts[2..] == [Word("WITH"), Word("GRANT"), Word("OPTION")] then Some((ts[1].name, true))
    else None
  }

  function ReadTokens(ts: seq<Token>): Option<Command> {
    if ts == [] || ReadVerb(ts[0]).None? then None
    else
      var verb, privs := ReadVerb(ts[0]).value, ReadPrivileges(ts[1..]);
      if privs.None? || privs.value.1 == [] || privs.value.1[0] != Word("ON") then None
      else
        var clause := ReadClause(privs.value.1[1..]);
        if clause.None? then None
        else
          var grantee := ReadGrantee(verb, clause.value.1);
          if grantee.None? then None
          else Some(Command(verb, privs.value.0, clause.value.0, grantee.value.0, grantee.value.1))
  }

  /** The statement a command asks for, when it is of the form the executor sends. */
  function AsStmt(c: Command): Option<Stmt> {
    if c.grantOption then None
    else
      match c.clause
      case Everything(k, s) => Some(Stmt(c.verb, c.privs, OnAllObjects(k, s), c.user))
      case Thing(noun, path, argument) =>
        if argument.Some? then None
        else if noun.DatabaseNoun? && |path| == 1 then Some(Stmt(c.verb, c.privs, OnDatabase(path[0]), c.user))
        else if noun.SchemaNoun? && |path| == 1 then Some(Stmt(c.verb, c.privs, OnSchema(path[0]), c.user))
        else if noun.ObjectNoun? && |path| == 2 then
          Some(Stmt(c.verb, c.privs, OnObject(noun.kind, path[0], path[1]), c.user))
        else None
  }

  /** What a text asks the server for. */
  function Reads(text: string): Option<Stmt> {
    var c := ReadTokens(Tokens(text));
    if c.None? then None else AsStmt(c.value)
  }

  // ---------- tokens of a text ----------

  /** A doubled string is read back up to the first lone quote. */
  lemma {:induction false} DoubledReads(q: char, a: string, s: string)
    requires s == "" || s[0] != q
    ensures ReadQuoted(q, Doubled(a, q) + ([q] + s)) == Some((a, s))
  {
    var u := Doubled(a, q) + ([q] + s);
    if a == "" {
      assert u == [q] + s && u[1..] == s;
    } else {
      var rest := Doubled(a[1..], q) + ([q] + s);
      DoubledReads(q, a[1..], s);
      assert u == (if a[0] == q then [q, q] else [a[0]]) + rest;
      assert u[if a[0] == q then 2 else 1..] == rest;
      assert a == [a[0]] + a[1..];
    }
  }

  lemma {:induction false} WordTokens(w: string, r: string)
    requires IsWord(w) && Leaves(r, IsLetter)
    ensures Tokens(w + r) == [Word(w)] + Tokens(r)
  {
    LettersOfWord(w, r);
    assert (w + r)[0] == w[0] && (w + r)[..|w|] == w && (w + r)[|w|..] == r;
  }

  lemma {:induction false} LettersOfWord(w: string, r: string)
    requires Within(w, IsLetter) && Leaves(r, IsLetter)
    ensures LettersIn(w + r) == |w|
  {
    if w == "" {
      assert w + r == r;
    } else {
      assert w[0] in w && forall c :: c in w[1..] ==> c in w;
      assert (w + r)[0] == w[0] && (w + r)[1..] == w[1..] + r;
      LettersOfWord(w[1..], r);
    }
  }

  lemma SpaceTokens(r: string)
    ensures Tokens(" " + r) == Tokens(r)
  {
    assert (" " + r)[1..] == r;
  }

  /** A word and a space. */
  lemma SpacedTokens(w: string, r: string)
    requires IsWord(w)
    ensures Tokens(w + (" " + r)) == [Word(w)] + Tokens(r)
  {
    WordTokens(w, " " + r);
    SpaceTokens(r);
  }

  lemma TwoWords(v: string, w: string, r: string)
    requires IsWord(v) && IsWord(w)
    ensures Tokens(v + (" " + (w + (" " + r)))) == [Word(v), Word(w)] + Tokens(r)
  {
    SpacedTokens(v, w + (" " + r));
    SpacedTokens(w, r);
  }

  lemma SymbolTokens(c: char, r: string)
    requires c in ['*', '.', ',', '(', ')']
    ensures Tokens([c] + r) == [Symbol(c)] + Tokens(r)
  {
    assert ([c] + r)[1..] == r && LettersIn([c] + r) == 0;
  }

  lemma UserTokens(a: string, r: string)
    requires r == "" || r[0] != '"'
    ensures Tokens(QuoteUser(a) + r) == [Name(a)] + Tokens(r)
  {
    var u := QuoteUser(a) + r;
    Associates("\"", Doubled(a, '"') + "\"", r);
    Associates(Doubled(a, '"'), "\"", r);
    assert u[0] == '"' && u[1..] == Doubled(a, '"') + ("\"" + r);
    DoubledReads('"', a, r);
    assert LettersIn(u) == 0;
  }

  lemma LiteralTokens(a: string)
    ensures Tokens("'" + (EscapeStringLiteral(a) + "'")) == [Literal(a)]
  {
    var u := "'" + (EscapeStringLiteral(a) + "'");
    assert "'" == ['\''] + "" && u[0] == '\'' && u[1..] == EscapeStringLiteral(a) + "'";
    DoubledReads('\'', a, "");
    assert LettersIn(u) == 0;
  }

  function NameToken(a: string): Token {
    if a == "*" then Symbol('*') else Name(a)
  }

  lemma NameTokens(a: string, r: string)
    requires r == "" || r[0] != '"'
    ensures Tokens(QuoteIdentifier(a) + r) == [NameToken(a)] + Tokens(r) && ReadName(NameToken(a)) == Some(a)
  {
    if a == "*" {
      SymbolTokens('*', r);
    } else {
      UserTokens(a, r);
    }
  }

  /** Quoting an identifier is injective and self-delimiting, with `*` left bare. */
  lemma QuotedUnique(a: string, s: string, b: string, t: string)
    requires s == "" || s[0] != '"'
    requires t == "" || t[0] != '"'
    requires QuoteIdentifier(a) + s == QuoteIdentifier(b) + t
    ensures a == b && s == t
  {
    NameTokens(a, s);
    NameTokens(b, t);
    assert NameToken(a) == Tokens(QuoteIdentifier(a) + s)[0] == NameToken(b);
    assert a == b by {
      assert ReadName(NameToken(a)) == ReadName(NameToken(b));
    }
    PrefixCancels(QuoteIdentifier(a), s, t);
  }

  // ---------- what is read is what was meant ----------

  lemma PrivilegesEnd(p: string, rest: seq<Token>)
    requires rest != [] && rest[0].Word?
    ensures ReadPrivileges([Word(p)] + rest) == Some(([p], rest))
  {
    assert ([Word(p)] + rest)[1..] == rest;
  }

  lemma PrivilegesGoOn(p: string, rest: seq<Token>)
    requires ReadPrivileges(rest).Some?
    ensures ReadPrivileges([Word(p)] + ([Symbol(',')] + rest))
      == Some(([p] + ReadPrivileges(rest).value.0, ReadPrivileges(rest).value.1))
  {
    assert ([Word(p)] + ([Symbol(',')] + rest))[2..] == rest;
  }

  lemma CommaTokens(w: string, more: string)
    requires IsWord(w)
    ensures Tokens(w + (", " + more)) == [Word(w)] + ([Symbol(',')] + Tokens(more))
  {
    WordTokens(w, ", " + more);
    assert ", " + more == [','] + (" " + more);
    SymbolTokens(',', " " + more);
    SpaceTokens(more);
  }

  lemma JoinForm(a: seq<string>, on: string)
    requires |a| > 1
    ensures Join(a, ", ") + on == a[0] + (", " + (Join(a[1..], ", ") + on))
  {
    Associates(a[0], ", " + Join(a[1..], ", "), on);
    Associates(", ", Join(a[1..], ", "), on);
    Associates(a[0], ", ", Join(a[1..], ", "));
  }

  /** A list of privileges and the ON after it. */
  lemma {:induction false} PrivilegesRead(a: seq<string>, r: string)
    requires a != [] && AreWords(a)
    ensures ReadPrivileges(Tokens(Join(a, ", ") + (" ON " + r))) == Some((a, [Word("ON")] + Tokens(r)))
  {
    var on := " ON " + r;
    if |a| == 1 {
      assert a == [a[0]];
      WordTokens(a[0], on);
      OnTokens(r);
      PrivilegesEnd(a[0], Tokens(on));
    } else {
      PrivilegesRead(a[1..], r);
      JoinForm(a, on);
      CommaTokens(a[0], Join(a[1..], ", ") + on);
      PrivilegesGoOn(a[0], Tokens(Join(a[1..], ", ") + on));
      assert a == [a[0]] + a[1..];
    }
  }

  lemma OnTokens(r: string)
    ensures Tokens(" ON " + r) == [Word("ON")] + Tokens(r)
  {
    assert " ON " + r == " " + ("ON" + (" " + r));
    SpaceTokens("ON" + (" " + r));
    SpacedTokens("ON", r);
  }

  /** The words of a kind, alone and after ALL. */
  function KindTokens(k: Kind): seq<Token> {
    if k == MaterializedView then [Word("MATERIALIZED"), Word("VIEW")] else [Word(KindWord(k))]
  }

  function PluralTokens(k: Kind): seq<Token> {
    if k == MaterializedView then [Word("MATERIALIZED"), Word("VIEWS")] else [Word(KindWord(k) + "S")]
  }

  lemma KindIsWord(k: Kind)
    ensures k != MaterializedView ==> IsWord(KindWord(k)) && IsWord(KindWord(k) + "S")
  {
    match k
    case Table => AllLetters("TABLE");
    case View => AllLetters("VIEW");
    case MaterializedView =>
    case Source => AllLetters("SOURCE");
    case Sink => AllLetters("SINK");
    case Secret => AllLetters("SECRET");
    case Function => AllLetters("FUNCTION");
  }

  lemma AllLetters(w: string)
    requires w != "" && forall i :: 0 <= i < |w| ==> IsLetter(w[i])
    ensures IsWord(w) && IsWord(w + "S")
  {
  }

  lemma NounOfKind(k: Kind, rest: seq<Token>)
    ensures ReadNoun(KindTokens(k) + rest) == Some((ObjectNoun(k), rest))
    ensures (KindTokens(k) + rest)[0] != Word("ALL")
  {
    var ts := KindTokens(k) + rest;
    assert ts[|KindTokens(k)|..] == rest;
    assert ts[0] == KindTokens(k)[0];
    match k
    case MaterializedView => assert ts[1] == Word("VIEW");
    case _ =>
  }

  lemma KindOfPlural(k: Kind, rest: seq<Token>)
    ensures ReadPlural(PluralTokens(k) + rest) == Some((k, rest))
  {
    var ts := PluralTokens(k) + rest;
    assert ts[|PluralTokens(k)|..] == rest;
    assert ts[0] == PluralTokens(k)[0];
    match k
    case Table => assert KindWord(k) + "S" == "TABLES";
    case View => assert KindWord(k) + "S" == "VIEWS";
    case MaterializedView => assert ts[1] == Word("VIEWS");
    case Source => assert KindWord(k) + "S" == "SOURCES";
    case Sink => assert KindWord(k) + "S" == "SINKS";
    case Secret => assert KindWord(k) + "S" == "SECRETS";
    case Function => assert KindWord(k) + "S" == "FUNCTIONS";
  }

  lemma SingularTokens(k: Kind, r: string)
    ensures Tokens(KindWord(k) + (" " + r)) == KindTokens(k) + Tokens(r)
  {
    if k == MaterializedView {
      assert KindWord(k) + (" " + r) == "MATERIALIZED" + (" " + ("VIEW" + (" " + r)));
      TwoWords("MATERIALIZED", "VIEW", r);
    } else {
      KindIsWord(k);
      SpacedTokens(KindWord(k), r);
    }
  }

  lemma PluralsTokens(k: Kind, r: string)
    ensures Tokens(KindWord(k) + ("S" + (" " + r))) == PluralTokens(k) + Tokens(r)
  {
    if k == MaterializedView {
      assert KindWord(k) + ("S" + (" " + r)) == "MATERIALIZED" + (" " + ("VIEWS" + (" " + r)));
      TwoWords("MATERIALIZED", "VIEWS", r);
    } else {
      KindIsWord(k);
      Associates(KindWord(k), "S", " " + r);
      SpacedTokens(KindWord(k) + "S", r);
    }
  }

  lemma EverythingOfTokens(k: Kind, s: string, rest: seq<Token>)
    ensures ReadClause([Word("ALL")] + (PluralTokens(k) + ([Word("IN"), Word("SCHEMA")] + ([NameToken(s)] + rest))))
      == Some((Everything(k, s), rest))
  {
    var inSchema := [Word("IN"), Word("SCHEMA")] + ([NameToken(s)] + rest);
    var ts := PluralTokens(k) + inSchema;
    KindOfPlural(k, inSchema);
    assert ([Word("ALL")] + ts)[1..] == ts;
    assert inSchema[2] == NameToken(s) && inSchema[3..] == rest;
  }

  /** ALL ... IN SCHEMA and the name. */
  lemma EverythingRead(k: Kind, s: string, r: string)
    requires r == "" || r[0] != '"'
    ensures ReadClause(Tokens(Keyword(OnAllObjects(k, s)) + (QuoteIdentifier(s) + r)))
      == Some((Everything(k, s), Tokens(r)))
  {
    var named := QuoteIdentifier(s) + r;
    EverythingText(k, s, named);
    EverythingTokens(k, named);
    NameTokens(s, r);
    EverythingOfTokens(k, s, Tokens(r));
  }

  lemma EverythingTokens(k: Kind, named: string)
    ensures Tokens("ALL" + (" " + (KindWord(k) + ("S" + (" " + ("IN" + (" " + ("SCHEMA" + (" " + named)))))))))
      == [Word("ALL")] + (PluralTokens(k) + ([Word("IN"), Word("SCHEMA")] + Tokens(named)))
  {
    var inSchema := "IN" + (" " + ("SCHEMA" + (" " + named)));
    SpacedTokens("ALL", KindWord(k) + ("S" + (" " + inSchema)));
    PluralsTokens(k, inSchema);
    TwoWords("IN", "SCHEMA", named);
  }

  lemma EverythingText(k: Kind, s: string, named: string)
    ensures Keyword(OnAllObjects(k, s)) + named
      == "ALL" + (" " + (KindWord(k) + ("S" + (" " + ("IN" + (" " + ("SCHEMA" + (" " + named))))))))
  {
    assert "S IN SCHEMA " + named == "S" + (" " + ("IN" + (" " + ("SCHEMA" + (" " + named)))));
    Associates(KindWord(k), "S IN SCHEMA ", named);
    Associates("ALL ", KindWord(k) + "S IN SCHEMA ", named);
    Associates("ALL", " ", KindWord(k) + ("S IN SCHEMA " + named));
  }

  /** The words in front of a path. */
  function NounText(n: Noun): string {
    match n
    case DatabaseNoun => "DATABASE "
    case SchemaNoun => "SCHEMA "
    case ObjectNoun(k) => KindWord(k) + " "
  }

  lemma NounRead(n: Noun, r: string)
    ensures ReadNoun(Tokens(NounText(n) + r)) == Some((n, Tokens(r)))
    ensures Tokens(NounText(n) + r) != [] && Tokens(NounText(n) + r)[0] != Word("ALL")
  {
    match n
    case DatabaseNoun =>
      assert "DATABASE " + r == "DATABASE" + (" " + r);
      SpacedTokens("DATABASE", r);
      assert Tokens(NounText(n) + r)[1..] == Tokens(r);
    case SchemaNoun =>
      assert "SCHEMA " + r == "SCHEMA" + (" " + r);
      SpacedTokens("SCHEMA", r);
      assert Tokens(NounText(n) + r)[1..] == Tokens(r);
    case ObjectNoun(k) =>
      Associates(KindWord(k), " ", r);
      SingularTokens(k, r);
      NounOfKind(k, Tokens(r));
  }

  /** Quoted names with dots between, and what follows. */
  function PathText(path: seq<string>, r: string): string
    requires path != []
  {
    if |path| == 1 then QuoteIdentifier(path[0]) + r
    else QuoteIdentifier(path[0]) + ("." + PathText(path[1..], r))
  }

  lemma {:induction false} PathRead(path: seq<string>, r: string)
    requires path != []
    requires r == "" || r[0] != '"'
    requires Tokens(r) == [] || Tokens(r)[0] != Symbol('.')
    ensures ReadPath(Tokens(PathText(path, r))) == Some((path, Tokens(r)))
  {
    if |path| == 1 {
      NameTokens(path[0], r);
      PathEnds(path[0], Tokens(r));
      assert path == [path[0]];
    } else {
      var more := PathText(path[1..], r);
      PathRead(path[1..], r);
      DotTokens(path[0], more);
      PathGoesOn(path[0], Tokens(more));
      assert path == [path[0]] + path[1..];
    }
  }

  lemma DotTokens(name: string, more: string)
    ensures Tokens(QuoteIdentifier(name) + ("." + more)) == [NameToken(name)] + ([Symbol('.')] + Tokens(more))
    ensures ReadName(NameToken(name)) == Some(name)
  {
    NameTokens(name, "." + more);
    SymbolTokens('.', more);
  }

  lemma PathEnds(name: string, rest: seq<Token>)
    requires rest == [] || rest[0] != Symbol('.')
    requires ReadName(NameToken(name)) == Some(name)
    ensures ReadPath([NameToken(name)] + rest) == Some(([name], rest))
  {
    assert ([NameToken(name)] + rest)[1..] == rest;
  }

  lemma PathGoesOn(name: string, rest: seq<Token>)
    requires ReadPath(rest).Some? && ReadName(NameToken(name)) == Some(name)
    ensures ReadPath([NameToken(name)] + ([Symbol('.')] + rest))
      == Some(([name] + ReadPath(rest).value.0, ReadPath(rest).value.1))
  {
    assert ([NameToken(name)] + ([Symbol('.')] + rest))[2..] == rest;
  }

  /** What follows the names: a word. */
  predicate WordNext(ts: seq<Token>) {
    ts != [] && ts[0].Word?
  }

  lemma ThingRead(n: Noun, path: seq<string>, r: string)
    requires path != [] && (r == "" || r[0] != '"') && WordNext(Tokens(r))
    ensures ReadClause(Tokens(NounText(n) + PathText(path, r))) == Some((Thing(n, path, None), Tokens(r)))
  {
    NounRead(n, PathText(path, r));
    PathRead(path, r);
  }

  lemma GranteeTokens(v: Verb, user: string, r: string)
    requires r == "" || r[0] != '"'
    ensures Tokens(Preposition(v) + (QuoteUser(user) + r))
      == [Word(if v.Grant? then "TO" else "FROM"), Name(user)] + Tokens(r)
  {
    PrepositionForm(v, QuoteUser(user) + r);
    WordAndUser(if v.Grant? then "TO" else "FROM", user, r);
  }

  lemma WordAndUser(word: string, user: string, r: string)
    requires IsWord(word) && (r == "" || r[0] != '"')
    ensures Tokens(" " + (word + (" " + (QuoteUser(user) + r)))) == [Word(word), Name(user)] + Tokens(r)
  {
    SpaceTokens(word + (" " + (QuoteUser(user) + r)));
    SpacedTokens(word, QuoteUser(user) + r);
    UserTokens(user, r);
  }

  lemma PrepositionForm(v: Verb, named: string)
    ensures Preposition(v) + named == " " + ((if v.Grant? then "TO" else "FROM") + (" " + named))
  {
    assert " TO " == " " + ("TO" + " ") && " FROM " == " " + ("FROM" + " ");
  }

  /** The clause a target is written as. */
  function ClauseOf(t: Target): Clause {
    match t
    case OnDatabase(d) => Thing(DatabaseNoun, [d], None)
    case OnSchema(s) => Thing(SchemaNoun, [s], None)
    case OnObject(k, s, n) => Thing(ObjectNoun(k), [s, n], None)
    case OnAllObjects(k, s) => Everything(k, s)
  }

  lemma TargetRead(t: Target, r: string)
    requires (r == "" || r[0] != '"') && WordNext(Tokens(r))
    ensures ReadClause(Tokens(Keyword(t) + (Names(t) + r))) == Some((ClauseOf(t), Tokens(r)))
  {
    match t
    case OnDatabase(d) => ThingRead(DatabaseNoun, [d], r);
    case OnSchema(s) => ThingRead(SchemaNoun, [s], r);
    case OnObject(k, s, n) =>
      Associates(QuoteIdentifier(s), "." + QuoteIdentifier(n), r);
      Associates(".", QuoteIdentifier(n), r);
      assert [s, n][1..] == [n];
      assert PathText([s, n], r) == QuoteIdentifier(s) + ("." + PathText([n], r));
      ThingRead(ObjectNoun(k), [s, n], r);
    case OnAllObjects(k, s) => EverythingRead(k, s, r);
  }

  /** A verb, a list of privileges, a clause and a grantee are read as the command they make up. */
  lemma CommandRead(v: Verb, privs: seq<string>, clauseThen: string, clause: Clause, user: string, after: string)
    requires privs != [] && AreWords(privs) && (after == "" || after[0] != '"')
    requires var grantee := Preposition(v) + (QuoteUser(user) + after);
      ReadClause(Tokens(clauseThen)) == Some((clause, Tokens(grantee)))
    requires Tokens(after) == [] || (v.Grant? && Tokens(after) == [Word("WITH"), Word("GRANT"), Word("OPTION")])
    ensures ReadTokens(Tokens(VerbWord(v) + (" " + (Join(privs, ", ") + (" ON " + clauseThen)))))
      == Some(Command(v, privs, clause, user, Tokens(after) != []))
  {
    var listed := Join(privs, ", ") + (" ON " + clauseThen);
    SpacedTokens(VerbWord(v), listed);
    PrivilegesRead(privs, clauseThen);
    GranteeTokens(v, user, after);
    GranteeOfTokens(v, user, Tokens(after));
    CommandOfTokens(v, Tokens(listed), privs, Tokens(clauseThen), clause,
      [Word(if v.Grant? then "TO" else "FROM"), Name(user)] + Tokens(after), user, Tokens(after) != []);
  }

  lemma GranteeOfTokens(v: Verb, user: string, after: seq<Token>)
    requires after == [] || (v.Grant? && after == [Word("WITH"), Word("GRANT"), Word("OPTION")])
    ensures ReadGrantee(v, [Word(if v.Grant? then "TO" else "FROM"), Name(user)] + after) == Some((user, after != []))
  {
    var ts := [Word(if v.Grant? then "TO" else "FROM"), Name(user)] + after;
    assert ts[2..] == after;
  }

  lemma CommandOfTokens(v: Verb, listed: seq<Token>, privs: seq<string>, on: seq<Token>, clause: Clause,
                        grantee: seq<Token>, user: string, option: bool)
    requires ReadPrivileges(listed) == Some((privs, [Word("ON")] + on))
    requires ReadClause(on) == Some((clause, grantee)) && ReadGrantee(v, grantee) == Some((user, option))
    ensures ReadTokens([Word(VerbWord(v))] + listed) == Some(Command(v, privs, clause, user, option))
  {
    assert ([Word(VerbWord(v))] + listed)[1..] == listed;
    assert ([Word("ON")] + on)[1..] == on;
  }

  lemma GranteeFollows(v: Verb, user: string, after: string)
    requires after == "" || after[0] != '"'
    ensures var grantee := Preposition(v) + (QuoteUser(user) + after); grantee[0] != '"' && WordNext(Tokens(grantee))
  {
    GranteeTokens(v, user, after);
  }

  lemma ClauseIsTarget(s: Stmt)
    ensures AsStmt(Command(s.verb, s.privs, ClauseOf(s.target), s.user, false)) == Some(s)
  {
  }

  /** Reading a sent text gives back verb, privilege list, target and user. */
  lemma TextReads(s: Stmt)
    requires WellFormed(s)
    ensures Reads(Text(s)) == Some(s)
  {
    var after := "";
    assert QuoteUser(s.user) + after == QuoteUser(s.user);
    var grantee := Preposition(s.verb) + (QuoteUser(s.user) + after);
    GranteeFollows(s.verb, s.user, after);
    TargetRead(s.target, grantee);
    CommandRead(s.verb, s.privs, Keyword(s.target) + (Names(s.target) + grantee), ClauseOf(s.target), s.user, after);
    ClauseIsTarget(s);
  }

  /** Equal texts are equal statements. */
  lemma TextInjective(a: Stmt, b: Stmt)
    requires WellFormed(a) && WellFormed(b)
    requires Text(a) == Text(b)
    ensures a == b
  {
    TextReads(a);
    TextReads(b);
  }

  // ---------- the ON clause of the object diff ----------

  /** The object type syncPrivileges passes to the object diff. */
  function ObjectType(k: Kind, name: string): string {
    if name == "*" then "ALL " + (KindWord(k) + "S IN SCHEMA") else KindWord(k)
  }

  /** The object type and the names of the ON clause, with both readings of `*`. */
  function OnClause(objectType: string, schema: string, name: string): (string, string) {
    if name == "*" then
      if "ALL " <= objectType then (objectType + " ", QuoteIdentifier(schema))
      else
        var plural := if objectType == "MATERIALIZED VIEW" then "MATERIALIZED VIEWS" else objectType + "S";
        ("ALL " + (plural + " IN SCHEMA "), QuoteIdentifier(schema))
    else (objectType + " ", QuoteIdentifier(schema) + ("." + QuoteIdentifier(name)))
  }

  lemma KindIsNotPlural(k: Kind)
    ensures !("ALL " <= KindWord(k)) && |KindWord(k)| >= 4
  {
    assert KindWord(k)[0] != 'A' && "ALL "[0] == 'A';
  }

  /** Called with the full wildcard type or with the bare kind, the diff writes the same clause. */
  lemma OnClauseNamesTarget(k: Kind, schema: string, name: string)
    ensures var t := TargetFor(k, schema, name);
      (Keyword(t), Names(t)) == OnClause(ObjectType(k, name), schema, name) == OnClause(KindWord(k), schema, name)
  {
    KindIsNotPlural(k);
    var w := KindWord(k);
    assert w == "MATERIALIZED VIEW" ==> w + "S" == "MATERIALIZED VIEWS";
    Associates("ALL ", w + "S IN SCHEMA", " ");
    Associates(w, "S IN SCHEMA", " ");
    Associates(w, "S", " IN SCHEMA ");
    assert "S IN SCHEMA" + " " == "S IN SCHEMA " == "S" + " IN SCHEMA ";
  }

  // ---------- other statements ----------

  function UseText(database: string): string {
    "USE " + QuoteIdentifier(database)
  }

  /** The database a text switches to. */
  function ReadsUse(text: string): Option<string> {
    var ts := Tokens(text);
    if |ts| == 2 && ts[0] == Word("USE") then ReadName(ts[1]) else None
  }

  lemma UseReads(database: string)
    ensures ReadsUse(UseText(database)) == Some(database)
  {
    assert UseText(database) == "USE" + (" " + (QuoteIdentifier(database) + ""));
    SpacedTokens("USE", QuoteIdentifier(database) + "");
    NameTokens(database, "");
  }

  function AlterUserPassword(user: string, password: string): string {
    "ALTER USER " + (QuoteUser(user) + (" WITH PASSWORD '" + (EscapeStringLiteral(password) + "'")))
  }

  /** The account a text is about and the password it sets. */
  function ReadsPassword(text: string): Option<(string, string)> {
    var ts := Tokens(text);
    if |ts| == 6 && ts[..2] == [Word("ALTER"), Word("USER")] && ts[2].Name?
      && ts[3..5] == [Word("WITH"), Word("PASSWORD")] && ts[5].Literal?
    then Some((ts[2].name, ts[5].text)) else None
  }

  /** The text sets this password for this account: no password can end its literal early. */
  lemma PasswordReads(user: string, password: string)
    ensures ReadsPassword(AlterUserPassword(user, password)) == Some((user, password))
  {
    var literal := "'" + (EscapeStringLiteral(password) + "'");
    var with := " " + ("WITH" + (" " + ("PASSWORD" + (" " + literal))));
    AlterUserForm(user, password, literal, with);
    TwoWords("ALTER", "USER", QuoteUser(user) + with);
    UserTokens(user, with);
    WithPassword(literal);
    LiteralTokens(password);
    PasswordTokens(user, password);
  }

  lemma WithPassword(literal: string)
    ensures Tokens(" " + ("WITH" + (" " + ("PASSWORD" + (" " + literal)))))
      == [Word("WITH"), Word("PASSWORD")] + Tokens(literal)
  {
    SpaceTokens("WITH" + (" " + ("PASSWORD" + (" " + literal))));
    TwoWords("WITH", "PASSWORD", literal);
  }

  lemma AlterUserForm(user: string, password: string, literal: string, with: string)
    requires literal == "'" + (EscapeStringLiteral(password) + "'")
    requires with == " " + ("WITH" + (" " + ("PASSWORD" + (" " + literal))))
    ensures AlterUserPassword(user, password) == "ALTER" + (" " + ("USER" + (" " + (QuoteUser(user) + with))))
  {
    assert " WITH PASSWORD '" + (EscapeStringLiteral(password) + "'") == with;
  }

  lemma PasswordTokens(user: string, password: string)
    ensures [Word("ALTER"), Word("USER")] + ([Name(user)] + ([Word("WITH"), Word("PASSWORD")] + [Literal(password)]))
      == [Word("ALTER"), Word("USER"), Name(user), Word("WITH"), Word("PASSWORD"), Literal(password)]
  {
  }

  /** The statement text determines the account and the password. */
  lemma AlterUserPasswordInjective(u: string, p: string, v: string, q: string)
    requires AlterUserPassword(u, p) == AlterUserPassword(v, q)
    ensures u == v && p == q
  {
    PasswordReads(u, p);
    PasswordReads(v, q);
  }
}
