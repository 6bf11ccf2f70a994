/** Reading access control lists of the form `{grantee=privileges/grantor,...}`. */
module Acl {
  import opened Strings
  import opened Wrappers
  import opened Sql

  datatype PrivilegeGrant = PrivilegeGrant(privilege: char, withGrantOption: bool)

  datatype UserPrivileges = UserPrivileges(user: string, privileges: seq<PrivilegeGrant>)

  // ---------- specification of the parser ----------

  predicate IsBrace(c: char) { c == '{' || c == '}' }

  function TrimLeft(s: string): string {
    if s != "" && IsBrace(s[0]) then TrimLeft(s[1..]) else s
  }

  function TrimRight(s: string): string {
    if s != "" && IsBrace(s[|s| - 1]) then TrimRight(s[..|s| - 1]) else s
  }

  /** strings.Trim(s, "{}") */
  function TrimBraces(s: string): string {
    TrimRight(TrimLeft(s))
  }

  /** All braces at either end go, and nothing else. */
  lemma TrimExactly(s: string) returns (left: string, right: string)
    ensures s == left + TrimBraces(s) + right && Within(left, IsBrace) && Within(right, IsBrace)
    ensures var t := TrimBraces(s); t != "" ==> !IsBrace(t[0]) && !IsBrace(t[|t| - 1])
  {
    left := LeftTrimmed(s);
    right := RightTrimmed(TrimLeft(s));
    var l, t := TrimLeft(s), TrimBraces(s);
    Associates(left, t, right);
    if t != "" {
      assert t[0] == l[0];
    }
  }

  lemma {:induction false} LeftTrimmed(s: string) returns (left: string)
    ensures s == left + TrimLeft(s) && Within(left, IsBrace)
    ensures TrimLeft(s) != "" ==> !IsBrace(TrimLeft(s)[0])
  {
    left := "";
    if s != "" && IsBrace(s[0]) {
      var rest := LeftTrimmed(s[1..]);
      left := [s[0]] + rest;
      assert s == [s[0]] + s[1..];
    }
  }

  lemma {:induction false} RightTrimmed(s: string) returns (right: string)
    ensures s == TrimRight(s) + right && Within(right, IsBrace)
    ensures var t := TrimRight(s); t != "" ==> !IsBrace(t[|t| - 1])
  {
    right := "";
    if s != "" && IsBrace(s[|s| - 1]) {
      var rest := RightTrimmed(s[..|s| - 1]);
      right := rest + [s[|s| - 1]];
      assert s == s[..|s| - 1] + [s[|s| - 1]];
    }
  }

  /** A privilege letter, with a grant option if a star follows. */
  function PrivilegesIn(s: string): seq<PrivilegeGrant> {
    if s == "" then []
    else if |s| > 1 && s[1] == '*' then [PrivilegeGrant(s[0], true)] + PrivilegesIn(s[2..])
    else [PrivilegeGrant(s[0], false)] + PrivilegesIn(s[1..])
  }

  function EntryIn(entry: string): Option<UserPrivileges> {
    var parts := Split(entry, '=');
    if |parts| != 2 then None
    else
      var privsGrantor := Split(parts[1], '/');
      if |privsGrantor| != 2 then None else Some(UserPrivileges(parts[0], PrivilegesIn(privsGrantor[0])))
  }

  /** Which entries are read, and as what: one `=`, and after it one `/`. All others are passed over. */
  lemma EntryExactly(entry: string, user: string, privileges: seq<PrivilegeGrant>)
    ensures EntryIn(entry) == Some(UserPrivileges(user, privileges)) <==>
      exists privs: string, grantor: string :: privileges == PrivilegesIn(privs) && IsEntry(entry, user, privs, grantor)
  {
    var parts := Split(entry, '=');
    if |parts| == 2 {
      var cut := Split(parts[1], '/');
      assert parts == [parts[0], parts[1]];
      SplitInTwo(entry, '=', parts[0], parts[1]);
      if |cut| == 2 {
        assert cut == [cut[0], cut[1]];
        SplitInTwo(parts[1], '/', cut[0], cut[1]);
        assert IsEntry(entry, parts[0], cut[0], cut[1]);
      }
    }
    forall privs: string, grantor: string | IsEntry(entry, user, privs, grantor)
      ensures EntryIn(entry) == Some(UserPrivileges(user, PrivilegesIn(privs)))
    {
      SplitInTwo(entry, '=', user, privs + ['/'] + grantor);
      SplitInTwo(privs + ['/'] + grantor, '/', privs, grantor);
    }
  }

  /** The entry says `user=privs/grantor`. */
  predicate IsEntry(entry: string, user: string, privs: string, grantor: string) {
    && entry == user + ['='] + (privs + ['/'] + grantor)
    && '=' !in user && '=' !in privs + ['/'] + grantor && '/' !in privs && '/' !in grantor
  }

  /** Malformed entries are passed over. */
  function EntriesIn(entries: seq<string>): seq<UserPrivileges> {
    if entries == [] then []
    else
      var last := EntryIn(entries[|entries| - 1]);
      EntriesIn(entries[..|entries| - 1]) + if last.Some? then [last.value] else []
  }

  function AclIn(aclStr: string): seq<UserPrivileges> {
    var s := TrimBraces(aclStr);
    if s == "" then [] else EntriesIn(Split(s, ','))
  }

  // ---------- the parser ----------

  method ParsePrivileges(privsStr: string) returns (privileges: seq<PrivilegeGrant>)
    ensures privileges == PrivilegesIn(privsStr)
  {
    privileges := [];
    var i := 0;
    while i < |privsStr|
      invariant 0 <= i <= |privsStr|
      invariant privileges + PrivilegesIn(privsStr[i..]) == PrivilegesIn(privsStr)
    {
      var rest := privsStr[i..];
      var withGrantOption := false;
      var c := privsStr[i];
      if i + 1 < |privsStr| && privsStr[i + 1] == '*' {
        withGrantOption := true;
        i := i + 1;
      }
      i := i + 1;
      assert rest[if withGrantOption then 2 else 1..] == privsStr[i..];
      assert PrivilegesIn(rest) == [PrivilegeGrant(c, withGrantOption)] + PrivilegesIn(privsStr[i..]);
      privileges := privileges + [PrivilegeGrant(c, withGrantOption)];
    }
  }

  method ParseACL(aclStr: string) returns (results: seq<UserPrivileges>)
    ensures results == AclIn(aclStr)
  {
    var s := TrimBraces(aclStr);
    if s == "" {
      return [];
    }
    results := [];
    var entries := Split(s, ',');
    for i := 0 to |entries|
      invariant results == EntriesIn(entries[..i])
    {
      assert entries[..i + 1][..i] == entries[..i];
      var parts := Split(entries[i], '=');
      if |parts| == 2 {
        var privsGrantor := Split(parts[1], '/');
        if |privsGrantor| == 2 {
          var privileges := ParsePrivileges(privsGrantor[0]);
          results := results + [UserPrivileges(parts[0], privileges)];
        }
      }
    }
    assert entries[..|entries|] == entries;
  }

  // ---------- printing ----------

  datatype AclEntry = AclEntry(user: string, privileges: seq<PrivilegeGrant>, grantor: string)

  function PrintPrivilege(p: PrivilegeGrant): string {
    [p.privilege] + if p.withGrantOption then "*" else ""
  }

  function PrintPrivileges(ps: seq<PrivilegeGrant>): string {
    if ps == [] then "" else PrintPrivilege(ps[0]) + PrintPrivileges(ps[1..])
  }

  function PrintEntry(e: AclEntry): string {
    e.user + "=" + (PrintPrivileges(e.privileges) + "/" + e.grantor)
  }

  function PrintEntries(es: seq<AclEntry>): (texts: seq<string>)
    ensures |texts| == |es|
    ensures forall i :: 0 <= i < |es| ==> texts[i] == PrintEntry(es[i])
  {
    if es == [] then [] else [PrintEntry(es[0])] + PrintEntries(es[1..])
  }

  function PrintAcl(es: seq<AclEntry>): string {
    "{" + Join(PrintEntries(es), ",") + "}"
  }

  // ---------- round trips ----------

  /** Printing parsed privileges gives the string back, whatever it was. */
  lemma {:induction false} PrintUndoesParse(s: string)
    ensures PrintPrivileges(PrivilegesIn(s)) == s
  {
    if s != "" {
      var n := if |s| > 1 && s[1] == '*' then 2 else 1;
      PrintUndoesParse(s[n..]);
      var p := PrivilegeGrant(s[0], n == 2);
      assert PrivilegesIn(s)[1..] == PrivilegesIn(s[n..]);
      assert PrintPrivilege(p) == s[..n];
      assert s[..n] + s[n..] == s;
    }
  }

  /** No privilege without grant option is followed by the privilege `*`. */
  ghost predicate StarsAttached(ps: seq<PrivilegeGrant>) {
    forall i :: 0 <= i < |ps| - 1 && ps[i + 1].privilege == '*' ==> ps[i].withGrantOption
  }

  /** Parsing printed privileges gives them back exactly when no star can be taken for a grant option. */
  lemma {:induction false} ParseUndoesPrintExactly(ps: seq<PrivilegeGrant>)
    ensures PrivilegesIn(PrintPrivileges(ps)) == ps <==> StarsAttached(ps)
  {
    if ps != [] {
      var p, rest := ps[0], ps[1..];
      var s := PrintPrivileges(ps);
      ParseUndoesPrintExactly(rest);
      assert ps == [p] + rest;
      assert s[0] == p.privilege;
      assert rest != [] ==> PrintPrivileges(rest)[0] == rest[0].privilege;
      if p.withGrantOption {
        assert s[1] == '*' && s[2..] == PrintPrivileges(rest);
        assert PrivilegesIn(s)[1..] == PrivilegesIn(PrintPrivileges(rest));
        assert StarsAttached(ps) <==> StarsAttached(rest);
      } else {
        assert s[1..] == PrintPrivileges(rest);
        if rest != [] && rest[0].privilege == '*' {
          assert s[1] == '*';
          assert PrivilegesIn(s)[0].withGrantOption;
        } else {
          assert |s| > 1 ==> s[1] != '*';
          assert PrivilegesIn(s)[1..] == PrivilegesIn(PrintPrivileges(rest));
          assert StarsAttached(ps) <==> StarsAttached(rest) by {
            assert forall i :: 0 <= i < |rest| ==> rest[i] == ps[i + 1];
          }
        }
      }
    }
  }

  /** Names and privilege letters avoid the characters the parser cuts at. */
  ghost predicate Clean(e: AclEntry) {
    && ',' !in e.user && '=' !in e.user
    && ',' !in e.grantor && '=' !in e.grantor && '/' !in e.grantor
    && (forall p :: p in e.privileges ==> p.privilege !in [',', '=', '/'])
    && StarsAttached(e.privileges)
  }

  /** The outermost names do not touch the braces. */
  ghost predicate OuterNamesClear(es: seq<AclEntry>) {
    es != [] ==>
      && (es[0].user != "" ==> !IsBrace(es[0].user[0]))
      && var g := es[|es| - 1].grantor; (g != "" ==> !IsBrace(g[|g| - 1]))
  }

  lemma {:induction false} PrintedLetters(ps: seq<PrivilegeGrant>, c: char)
    requires c != '*' && forall p :: p in ps ==> p.privilege != c
    ensures c !in PrintPrivileges(ps)
  {
    if ps != [] {
      assert ps[0] in ps;
      PrintedLetters(ps[1..], c);
    }
  }

  lemma EntryRoundTrip(e: AclEntry)
    requires Clean(e)
    ensures EntryIn(PrintEntry(e)) == Some(UserPrivileges(e.user, e.privileges))
    ensures ',' !in PrintEntry(e)
  {
    var privs := PrintPrivileges(e.privileges);
    PrintedLetters(e.privileges, ',');
    PrintedLetters(e.privileges, '=');
    PrintedLetters(e.privileges, '/');
    var rest := privs + "/" + e.grantor;
    SplitCons(e.user, rest, '=');
    SplitWhole(rest, '=');
    SplitCons(privs, e.grantor, '/');
    SplitWhole(e.grantor, '/');
    ParseUndoesPrintExactly(e.privileges);
  }

  lemma {:induction false} EntriesRoundTrip(es: seq<AclEntry>, texts: seq<string>)
    requires forall e :: e in es ==> Clean(e)
    requires |texts| == |es| && forall i :: 0 <= i < |es| ==> texts[i] == PrintEntry(es[i])
    ensures EntriesIn(texts) == seq(|es|, i requires 0 <= i < |es| => UserPrivileges(es[i].user, es[i].privileges))
  {
    if es != [] {
      var n := |es| - 1;
      EntriesRoundTrip(es[..n], texts[..n]);
      EntryRoundTrip(es[n]);
    }
  }

  lemma JoinEnds(texts: seq<string>, sep: string)
    requires texts != [] && texts[0] != "" && texts[|texts| - 1] != ""
    ensures Join(texts, sep) != ""
    ensures Join(texts, sep)[0] == texts[0][0]
    ensures var l := texts[|texts| - 1]; Join(texts, sep)[|Join(texts, sep)| - 1] == l[|l| - 1]
  {
    LastOfJoin(texts, sep);
  }

  lemma {:induction false} LastOfJoin(texts: seq<string>, sep: string)
    requires texts != [] && texts[|texts| - 1] != ""
    ensures Join(texts, sep) != ""
    ensures var l := texts[|texts| - 1]; Join(texts, sep)[|Join(texts, sep)| - 1] == l[|l| - 1]
  {
    if |texts| > 1 {
      LastOfJoin(texts[1..], sep);
    }
  }

  lemma TrimsExactly(body: string)
    requires body != "" ==> !IsBrace(body[0]) && !IsBrace(body[|body| - 1])
    ensures TrimBraces("{" + body + "}") == body
  {
    var s := "{" + body + "}";
    assert s[1..] == body + "}";
    if body == "" {
      assert TrimLeft(s) == TrimLeft("}") == "";
    } else {
      assert (body + "}")[0] == body[0];
      assert (body + "}")[..|body|] == body;
      assert TrimLeft(s) == body + "}";
      assert TrimRight(body + "}") == TrimRight(body) == body;
    }
  }

  /** Parsing a printed list gives back every grantee and every privilege. */
  lemma AclRoundTrip(es: seq<AclEntry>)
    requires forall e :: e in es ==> Clean(e)
    requires OuterNamesClear(es)
    ensures AclIn(PrintAcl(es)) == seq(|es|, i requires 0 <= i < |es| => UserPrivileges(es[i].user, es[i].privileges))
  {
    var texts := PrintEntries(es);
    var body := Join(texts, ",");
    if es == [] {
      TrimsExactly("");
    } else {
      var first, last := es[0], es[|es| - 1];
      assert PrintEntry(first)[0] == if first.user == "" then '=' else first.user[0];
      var t := PrintEntry(last);
      assert t[|t| - 1] == if last.grantor == "" then '/' else last.grantor[|last.grantor| - 1];
      JoinEnds(texts, ",");
      TrimsExactly(body);
      forall text | text in texts ensures ',' !in text {
        var i :| 0 <= i < |texts| && texts[i] == text;
        EntryRoundTrip(es[i]);
      }
      SplitJoin(texts, ',');
      EntriesRoundTrip(es, texts);
    }
  }

  // ---------- letters and privileges ----------

  /** Which of the letter tables is meant. */
  datatype LetterTable = DatabaseLetters | SchemaLetters | ObjectLetters(kind: Kind)

  /** The privilege a letter stands for, or "" for none. */
  function MapChar(t: LetterTable, c: char): string {
    match t
    case DatabaseLetters => if c == 'c' then "CONNECT" else if c == 'C' then "CREATE" else ""
    case SchemaLetters => if c == 'U' then "USAGE" else if c == 'C' then "CREATE" else ""
    case ObjectLetters(k) =>
      match k {
        case Table => MapTableChar(c)
        case View => MapTableChar(c)
        case MaterializedView => MapTableChar(c)
        case Source => if c == 'r' then "SELECT" else ""
        case Sink => if c == 'r' then "SELECT" else ""
        case Secret => if c == 'U' then "USAGE" else ""
        case Function => if c == 'X' then "EXECUTE" else ""
      }
  }

  function MapTableChar(c: char): string {
    if c == 'r' then "SELECT"
    else if c == 'a' then "INSERT"
    else if c == 'w' then "UPDATE"
    else if c == 'd' then "DELETE"
    else if c == 'D' then "TRUNCATE"
    else if c == 'x' then "REFERENCES"
    else if c == 't' then "TRIGGER"
    else ""
  }

  // ---------- the letters the server writes ----------

  /** The abbreviations of table 5.1 of the PostgreSQL 17 manual that the operator reads: one letter per privilege. */
  const ABBREVIATIONS: map<string, char> :=
    map["SELECT" := 'r', "INSERT" := 'a', "UPDATE" := 'w', "DELETE" := 'd', "TRUNCATE" := 'D', "REFERENCES" := 'x',
        "TRIGGER" := 't', "CREATE" := 'C', "CONNECT" := 'c', "EXECUTE" := 'X', "USAGE" := 'U']

  const ON_TABLES: set<string> := {"SELECT", "INSERT", "UPDATE", "DELETE", "TRUNCATE", "REFERENCES", "TRIGGER"}

  /** The privileges to be read from the lists of a catalog table. */
  function Legible(t: LetterTable): set<string> {
    match t
    case DatabaseLetters => {"CONNECT", "CREATE"}
    case SchemaLetters => {"USAGE", "CREATE"}
    case ObjectLetters(k) =>
      match k {
        case Table => ON_TABLES
        case View => ON_TABLES
        case MaterializedView => ON_TABLES
        case Source => {"SELECT"}
        case Sink => {"SELECT"}
        case Secret => {"USAGE"}
        case Function => {"EXECUTE"}
      }
  }

  lemma LegibleAbbreviated(t: LetterTable)
    ensures Legible(t) <= ABBREVIATIONS.Keys
  {
  }

  /** The letter written for a privilege is read as that privilege. */
  lemma WrittenLetterRead(t: LetterTable, q: string)
    requires q in Legible(t)
    ensures q in ABBREVIATIONS && MapChar(t, ABBREVIATIONS[q]) == q != ""
  {
    match t
    case DatabaseLetters =>
    case SchemaLetters =>
    case ObjectLetters(k) =>
  }

  /** Any other letter is read as nothing. */
  lemma OtherLettersMeanNothing(t: LetterTable, c: char)
    requires MapChar(t, c) != ""
    ensures MapChar(t, c) in Legible(t) && MapChar(t, c) in ABBREVIATIONS && ABBREVIATIONS[MapChar(t, c)] == c
  {
    match t
    case DatabaseLetters =>
    case SchemaLetters =>
    case ObjectLetters(k) =>
  }

  /** A letter means a privilege exactly if it is what the server writes for it, where that is read. */
  lemma LettersExactly(t: LetterTable, c: char, q: string)
    requires q != ""
    ensures MapChar(t, c) == q <==> q in Legible(t) && q in ABBREVIATIONS && ABBREVIATIONS[q] == c
  {
    if MapChar(t, c) == q {
      OtherLettersMeanNothing(t, c);
    }
    if q in Legible(t) {
      WrittenLetterRead(t, q);
    }
  }

  /** Distinct letters never stand for the same privilege. */
  lemma MapCharInjective(t: LetterTable, a: char, b: char)
    requires MapChar(t, a) == MapChar(t, b) != ""
    ensures a == b
  {
    OtherLettersMeanNothing(t, a);
    OtherLettersMeanNothing(t, b);
  }
}
