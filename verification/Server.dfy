/**
 What GRANT and REVOKE do to the server, for all users and all databases at once.
 A cell is one grantee's privileges on one place; a statement acts on cells through
 the database its session is in.
 */
module Server {
  import opened Sql
  import opened Privileges

  datatype Place =
    | DatabasePlace(database: string)
    | SchemaPlace(database: string, schema: string)
    | ObjectPlace(database: string, kind: Kind, schema: string, name: string)

  datatype Cell = Cell(grantee: string, place: Place)

  /** Existing places only: the keys never change. */
  type Cells = map<Cell, set<string>>

  /** What ALL means on a place. */
  function Universe(p: Place): set<string> {
    match p
    case DatabasePlace(_) => {"CONNECT", "CREATE"}
    case SchemaPlace(_, _) => {"USAGE", "CREATE"}
    case ObjectPlace(_, k, _, _) =>
      match k
      case Table => {"SELECT", "INSERT", "UPDATE", "DELETE", "TRUNCATE", "REFERENCES", "TRIGGER"}
      case View => {"SELECT", "INSERT", "DELETE", "UPDATE", "TRIGGER"}
      case MaterializedView => {"SELECT"}
      case Source => {"SELECT"}
      case Sink => {"SELECT"}
      case Secret => {"USAGE"}
      case Function => {"EXECUTE"}
  }

  function Expand(p: Place, privs: set<string>): set<string> {
    (privs - {"ALL"}) + if "ALL" in privs then Universe(p) else {}
  }

  /** Does a statement about `t`, run by a session in `session`, act on `p`? */
  predicate Covers(t: Target, session: string, p: Place) {
    match t
    case OnDatabase(d) => p == DatabasePlace(d)
    case OnSchema(s) => p == SchemaPlace(session, s)
    case OnObject(k, s, n) => p == ObjectPlace(session, k, s, n)
    case OnAllObjects(k, s) => p.ObjectPlace? && p.database == session && p.kind == k && p.schema == s
  }

  predicate Hits(s: Stmt, session: string, c: Cell) {
    c.grantee == s.user && Covers(s.target, session, c.place)
  }

  function ApplyTo(v: set<string>, s: Stmt, session: string, c: Cell): set<string> {
    if !Hits(s, session, c) then v
    else if s.verb.Grant? then v + Expand(c.place, AsSet(s.privs))
    else v - Expand(c.place, AsSet(s.privs))
  }

  function Apply(cells: Cells, s: Stmt, session: string): Cells {
    map c | c in cells :: ApplyTo(cells[c], s, session, c)
  }

  /** The server's answer to a statement. */
  datatype Reply = Done | Failed(message: string)

  /**
   One sent statement: the database it was planned for ("" for none), the database the
   executor believed the session to be in, the one it was in, and the answer.
   */
  datatype Sent = Sent(target: string, believed: string, session: string, stmt: Stmt, reply: Reply)

  function Replay(cells: Cells, log: seq<Sent>): Cells {
    if log == [] then cells
    else
      var last := log[|log| - 1];
      var before := Replay(cells, log[..|log| - 1]);
      if last.reply.Done? then Apply(before, last.stmt, last.session) else before
  }

  /** One cell's value after a log. */
  function ValueAfter(v: set<string>, c: Cell, log: seq<Sent>): set<string> {
    if log == [] then v
    else
      var last := log[|log| - 1];
      var before := ValueAfter(v, c, log[..|log| - 1]);
      if last.reply.Done? then ApplyTo(before, last.stmt, last.session, c) else before
  }

  /** Cells do not influence each other. */
  lemma {:induction false} ReplayPerCell(cells: Cells, log: seq<Sent>)
    ensures Replay(cells, log).Keys == cells.Keys
    ensures forall c :: c in cells ==> Replay(cells, log)[c] == ValueAfter(cells[c], c, log)
  {
    if log != [] {
      ReplayPerCell(cells, log[..|log| - 1]);
    }
  }

  predicate Grants(e: Sent, c: Cell, p: string) {
    e.reply.Done? && e.stmt.verb.Grant? && Hits(e.stmt, e.session, c) && p in Expand(c.place, AsSet(e.stmt.privs))
  }

  predicate Revokes(e: Sent, c: Cell, p: string) {
    e.reply.Done? && e.stmt.verb.Revoke? && Hits(e.stmt, e.session, c) && p in Expand(c.place, AsSet(e.stmt.privs))
  }

  ghost predicate RevokesFirst(log: seq<Sent>) {
    forall i, j :: 0 <= i < j < |log| && log[i].stmt.verb.Grant? ==> log[j].stmt.verb.Grant?
  }

  ghost predicate Granted(log: seq<Sent>, c: Cell, p: string) {
    exists i :: 0 <= i < |log| && Grants(log[i], c, p)
  }

  ghost predicate Revoked(log: seq<Sent>, c: Cell, p: string) {
    exists i :: 0 <= i < |log| && Revokes(log[i], c, p)
  }

  /** With every REVOKE before every GRANT, order inside the two halves does not matter. */
  lemma {:induction false} RevokesFirstValue(v: set<string>, c: Cell, log: seq<Sent>, p: string)
    requires RevokesFirst(log)
    ensures p in ValueAfter(v, c, log) <==> Granted(log, c, p) || (p in v && !Revoked(log, c, p))
  {
    if log != [] {
      var n := |log| - 1;
      var front, last := log[..n], log[n];
      RevokesFirstValue(v, c, front, p);
      assert forall i :: 0 <= i < n ==> front[i] == log[i];
      assert Granted(front, c, p) ==> Granted(log, c, p);
      assert Revoked(front, c, p) ==> Revoked(log, c, p);
      assert Grants(last, c, p) ==> Granted(log, c, p);
      assert Revokes(last, c, p) ==> Revoked(log, c, p) && !Granted(front, c, p);
      if Granted(log, c, p) && !Granted(front, c, p) { assert Grants(last, c, p); }
      if Revoked(log, c, p) && !Revoked(front, c, p) { assert Revokes(last, c, p); }
    }
  }
}
