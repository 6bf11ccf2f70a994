/** The declared grants of a user and the snapshot of what the user holds. */
module Privileges {
  import opened Sql
  import opened Wrappers

  datatype ObjectSpec = ObjectSpec(name: string, privileges: seq<string>, withGrantOption: bool)

  datatype SchemaSpec = SchemaSpec(name: string, privileges: seq<string>, withGrantOption: bool,
    objects: Listing<ObjectSpec>)

  datatype DatabaseSpec = DatabaseSpec(name: string, privileges: seq<string>, withGrantOption: bool,
    schemas: seq<SchemaSpec>)

  datatype ObjectPrivilege = ObjectPrivilege(name: string, privileges: seq<string>, withGrantOption: bool)

  datatype SchemaSnapshot = SchemaSnapshot(
    name: string, privileges: seq<string>, withGrantOption: bool, objects: Listing<ObjectPrivilege>)

  datatype DatabaseSnapshot = DatabaseSnapshot(
    name: string, privileges: seq<string>, withGrantOption: bool, schemas: seq<SchemaSnapshot>)

  function AsSet(privs: seq<string>): set<string> {
    set p | p in privs
  }

  function Held(snap: Option<SchemaSnapshot>): seq<string> {
    if snap.Some? then snap.value.privileges else []
  }

  function HeldObjects(snap: Option<SchemaSnapshot>, k: Kind): seq<ObjectPrivilege> {
    if snap.Some? then snap.value.objects.Of(k) else []
  }

  function HeldOnDatabase(snap: Option<DatabaseSnapshot>): seq<string> {
    if snap.Some? then snap.value.privileges else []
  }

  /** A map filled from a list keeps the last entry of a name. */
  function DatabaseNamed(snaps: seq<DatabaseSnapshot>, name: string): Option<DatabaseSnapshot> {
    if snaps == [] then None
    else if snaps[|snaps| - 1].name == name then Some(snaps[|snaps| - 1])
    else DatabaseNamed(snaps[..|snaps| - 1], name)
  }

  function SchemaNamed(snaps: seq<SchemaSnapshot>, name: string): Option<SchemaSnapshot> {
    if snaps == [] then None
    else if snaps[|snaps| - 1].name == name then Some(snaps[|snaps| - 1])
    else SchemaNamed(snaps[..|snaps| - 1], name)
  }

  function SchemaIn(snap: Option<DatabaseSnapshot>, name: string): Option<SchemaSnapshot> {
    if snap.Some? then SchemaNamed(snap.value.schemas, name) else None
  }

  /** findObjectPrivilege: the first entry of a name, or an empty one. */
  function ObjectNamed(objects: seq<ObjectPrivilege>, name: string): ObjectPrivilege {
    if objects == [] then ObjectPrivilege(name, [], false)
    else if objects[0].name == name then objects[0]
    else ObjectNamed(objects[1..], name)
  }

  function ObjectNames(objects: seq<ObjectPrivilege>): set<string> {
    set o | o in objects :: o.name
  }

  predicate Declares(entries: seq<ObjectSpec>, name: string) {
    exists e <- entries :: e.name == name
  }

  /** Names are distinct within each declared list. */
  ghost predicate DistinctNames(spec: seq<DatabaseSpec>) {
    && (forall i, j :: 0 <= i < j < |spec| ==> spec[i].name != spec[j].name)
    && (forall e :: e in spec ==> DistinctSchemas(e.schemas))
  }

  ghost predicate DistinctSchemas(schemas: seq<SchemaSpec>) {
    && (forall i, j :: 0 <= i < j < |schemas| ==> schemas[i].name != schemas[j].name)
    && (forall s, k :: s in schemas && k in KINDS ==> DistinctEntries(s.objects.Of(k)))
  }

  ghost predicate DistinctEntries(entries: seq<ObjectSpec>) {
    forall i, j :: 0 <= i < j < |entries| ==> entries[i].name != entries[j].name
  }
}
