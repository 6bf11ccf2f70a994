# Verified model of the RisingWave resource operator

A Dafny model of the parts of the RisingWave resource operator (a Kubernetes
operator that keeps RisingWave users, databases and schemas in line with custom
resources) in which the order of steps and the exact text of statements matter.

## What is modelled

**Privilege reconciliation** (`Sql`, `Diff`, `Planner`, `Executor`, `Server`,
`Routing`, `Effect`, `Desired`, `Convergence`, `Runs`, `Stability`, `Duplicates`,
`Refusals`, `Determinism`).
A user's declared grants are compiled into GRANT and REVOKE statements by comparing
them with a snapshot, the statements of all databases are sorted into one list with REVOKEs
first, and the list is sent over one session that is switched with `USE`
whenever a statement's text is found in another database's group. The server is
a map from cells (grantee, place) to privilege sets; a statement is a value with
two meanings, a text and a change of the map, and reading the text gives the
statement back. `Desired.Goal` says what every
cell should end with and never mentions a statement; the results say that the
loops of the operator reach it, stay between safe bounds on the way, recover from
broken passes and then stop changing things.

**Access control lists and the snapshot** (`Acl`, `Snapshot`, `SingleDatabase`).
The parser of `{grantee=privileges/grantor,...}` (the format of section 5.8 of
the PostgreSQL 17 manual), the letter tables, and the row loops that build the
snapshot. When the snapshot is faithful to the server is stated exactly, for a session
in any database; where it is, the chain from list texts to the goal is closed.

**Password rotation** (`Rotation`). Account, Secret and annotation are three
writes, each of which may be refused or lose its answer.

**Deletion lifecycle** (`Lifecycle`). `HandleFinalizer` and the database and
schema reconcilers against an environment that edits, deletes and breaks writes.

**The password generator and the statement builders** (`Drawing`, `Password`,
`Builders`).

Methods follow the Go loops and are proved against functions; the lemmas are
about those functions and about all runs. Things decided outside the program
(replies of the server, whether a `USE` or a write succeeds, random draws, what a
catalog query returns) are parameters.

## Hypotheses

Stated as predicates, and why each is there:

- `Privileges.DistinctNames`: names are distinct within each declared list, which the
  API does not ask for. `Duplicates` does without: `DuplicatesExactly` says which
  repeated names let complete passes settle, and `DuplicatesOscillate` is an input at
  which they do not.
- `Desired.Faithful`: what the snapshot lists is what the server holds, and lists
  are complete. `SnapshotFaithfulExactly` says when the fetch provides it.
- `Snapshot.CatalogWritten`: what a session reads is written from what the server
  holds, in the manual's letters, with distinct names, one entry per grantee, and names
  the list format can carry. `Snapshot.CatalogMatches` is the weaker form the proofs
  use, which also admits lists with malformed entries.
- `Routing.DisjointTexts` and `Routing.Named`: no text is planned for two
  databases and no database has the empty name. `RoutingExact` shows that the
  first is exactly what the executor needs, `TextsDisjointExactly` says it of
  declaration and snapshot, and `DisjointSchemasDisjointTexts` gives a check a
  user can make.
- `Executor.Routed`: every statement with a database ran in it, which is so exactly
  when each `USE` was accepted or the session was there anyway (`RoutedExactly`). Only
  the results about complete passes need it; those about broken ones say what the
  statements that strayed do (`PrefixBounds`).
- `Stability.ListsHeldOrKnown` and `Stability.ListsHeldSchemas`: a database listed
  with nothing held was listed before, and a schema is listed only for a privilege
  on it (as the fetch does, `Snapshot.ListedSchemaHolds`).
- `Convergence.WordsDeclared`: declared privileges are upper-case words, as all
  declared constants are. The API itself accepts any string and leaves the values to
  the server (`api/v1alpha1/risingwaveuser_types.go:223`). `Desired.WellTyped`: held
  privileges are ones the place can have, and no object is called `*`.
- Reads of cluster objects are fresh: `Rotation.Begin` and `Lifecycle.Fetch` read the
  stored value. The operator reads through the default client of its manager
  (`cmd/main.go:71-88`), which may answer from an older copy; a Secret read late
  after a rotation would be written back over the new password.

## Findings

- A second pass is not always silent: a schema becomes listed only once the user
  holds a schema-level privilege on it, so a pass that grants the first such
  privilege leaves older object privileges there for the next pass to revoke.
  `IdempotenceExact` is the exact condition; two passes always suffice.
- Declarations with `ALL`, or with a `*` entry that lists something, are planned again
  at every pass (`SilentExactly`, `SettledRepeats`); with `ALL` on a database every pass
  revokes everything first (`AllIsNeverSilent`).
- A name listed twice with different privileges never settles, unless one entry lists
  `ALL` or a `*` entry gives the difference (`DuplicatesExactly`, `WhichListsSettle`).
- Statements are routed by text. As soon as two databases are asked for the same
  thing, some map iteration order sends a statement to the wrong one
  (`SharedTextMisroutes`); in `TwinDatabasesMisroute` a pass in which everything
  succeeds misses the goal.
- After a refused `USE` the executor goes on, in whatever database the session is in
  (`RoutedExactly`), and there gives what nothing declares (`StrayGrantGives`) and takes
  from places no pass should take from (`StrayRevokeTakes`).
- The snapshot gives every listed database the schemas of the session's database,
  which is "dev" unless something switched it (`internal/rwclient/pool.go:77`). It is
  wrong already for a user of one other database only (`AwayFromSession`).
- The REVOKE built for a function declared by name names a function with the schema's
  name and one argument, so that EXECUTE stays granted (`NamedFunctionStaysGranted`).
- A failing read of the managed Secret without a rotation generates a new password
  and stores it without changing the account (`UnreadableSecretExactly`).
- Creating an account resolves the password twice, so Secret and account agree only
  if both give the same (`AgreementExactly`): not when both draw, and not when a
  rotation is asked for while a Secret is there (`FlaggedCreationExactly`). A creation
  cut off before the Secret is written leaves a password stored nowhere, and only a
  rotation repairs what follows (`CrashAfterCreation`, `OnlyRotationRepairs`).
- The repository's README describes privilege conflicts as logged and passed over;
  the code passes over three kinds of message only and stops at any other error.
  It also gives `abandon` as the deletion default of all resources, while the user
  finalizer drops the account by default. The model follows the code.

## Model

| member | source | states |
|---|---|---|
| `Convergence.ReachesGoal` | internal/controller/risingwaveuser_controller.go:441-868 | After one complete pass every cell of the user equals the goal read off the declaration (`Goal`, which mentions no statement), and every other user's cell is unchanged. |
| `Convergence.ExactConvergence` | internal/controller/risingwaveuser_controller.go:683-773 | In a listed schema and a kind without a `*` entry, a declared object ends with exactly its expanded set (`ALL` is the whole universe) and an undeclared one with nothing. |
| `Convergence.ExactConvergenceAbove` | internal/controller/risingwaveuser_controller.go:441-488 | Listed databases and schemas end with exactly their declared set; a listed database that is not declared ends with nothing at its own level. |
| `Convergence.WildcardMeaning` | internal/controller/risingwaveuser_controller.go:683-693 | With a `*` entry W, a named object ends with its own set and W, every other existing object with what it had and W. |
| `Convergence.WildcardSparesOrphans` | internal/controller/risingwaveuser_controller.go:492-517 | Under a `*` entry no statement of any kind is planned for an unnamed object. |
| `Convergence.FrameAndMonotonicity` | internal/controller/risingwaveuser_controller.go:441-493 | What the snapshot does not list only gains what is declared; undeclared schemas are untouched; an undeclared database loses its own privileges and nothing nested. |
| `Convergence.PrefixBounds` | internal/controller/risingwaveuser_controller.go:806-868 | After any prefix of a run with any answers and any refused `USE`s, other users' cells are as before; a cell is at most what it had and what is asked if and only if no GRANT that strayed into it gives more; and a kept place loses nothing if and only if what strayed REVOKEs take from it is granted again. |
| `Convergence.PrefixSafety` | internal/controller/risingwaveuser_controller.go:818-868 | For an object in a kind without `*`, after any such prefix: at least held-and-declared, and at most held-or-declared, each if and only if the strays on it allow it. |
| `Convergence.SchemaPrefixSafety` | internal/controller/risingwaveuser_controller.go:818-868 | The same two equivalences for a declared schema. |
| `Convergence.DatabasePrefixSafety` | internal/controller/risingwaveuser_controller.go:818-868 | For a declared database both bounds hold outright, refused `USE`s or not: its own statements name it. |
| `Convergence.GrantPhaseSafety` | internal/controller/risingwaveuser_controller.go:806-868 | Once the first GRANT was sent and the REVOKEs about the cell landed (GRANTs may have failed), a place that is not kept holds nothing undeclared if and only if no strayed GRANT gives it such. |
| `Convergence.RetryConvergence` | internal/controller/risingwaveuser_controller.go:856-868 | After any number of passes broken anywhere, one complete pass that lists everything declared ends where a single undisturbed pass from the same start would have. For declared places nothing is asked of the broken passes, refused `USE`s included; for the places no pass takes from, their strays must have been harmless. |
| `Convergence.LastPassDecides` | internal/controller/risingwaveuser_controller.go:856-868 | Two complete passes that list everything declared, from any two starts, end alike: always on places passes may take from, and on the others if and only if the starts differ in nothing but what is asked. |
| `Convergence.IdempotenceExact` | internal/controller/risingwaveuser_controller.go:426-493 | A second complete pass changes a cell if and only if the place was unlisted at the first pass, is listed at the second, and held something not asked for. |
| `Convergence.Idempotence` | internal/controller/risingwaveuser_controller.go:409-876 | When the first pass saw every declared database and schema, a second complete pass changes nothing. |
| `Stability.SecondPassCanChange` | internal/rwclient/privilege_snapshot.go:204-210 | Two complete passes that refute unconditional idempotence: USAGE granted by the first makes a schema visible, and the second takes a table privilege the first left alone. |
| `Stability.StableFromSecondPass` | internal/controller/risingwaveuser_controller.go:409-876 | From any start at all, two complete passes suffice: the third changes nothing. A database may stay listed with nothing held if it was listed before. |
| `Stability.ThirdPlanEmpty` | internal/controller/risingwaveuser_controller.go:441-791 | From any start, after two complete passes the plan of a concrete declaration is empty. |
| `Stability.SecondPlanEmpty` | internal/rwclient/privilege_diff.go:47-72 | If every database and schema entry lists a concrete privilege and nothing uses `ALL` or `*`, the plan after a complete pass that saw everything declared is empty. |
| `Stability.SilentExactly` | internal/rwclient/privilege_diff.go:47-72 | In a state that is its own goal and fully listed, the planner emits nothing at all if and only if nothing declared uses `ALL` and no `*` entry lists a privilege. |
| `Stability.SettledRepeats` | internal/controller/risingwaveuser_controller.go:426-493 | A complete pass leaves such a state as it is, and the plan after it, from any other faithful and full listing, asks for exactly the same demands, database by database. |
| `Stability.StateFixesDemands` | internal/controller/risingwaveuser_controller.go:441-791 | What is asked depends only on the server's state and on which declared schemas are listed: not on the order of the catalog's rows, and whatever names repeat. |
| `Stability.AllIsNeverSilent` | internal/rwclient/privilege_diff.go:47-72 | With `ALL` declared for a database that holds all there is, the state is settled and every plan revokes everything and grants `ALL` again. |
| `Stability.SecondPlanExactly` | internal/rwclient/privilege_diff.go:158-186 | After a complete pass that saw everything declared, the next plan that sees it too is empty if and only if the declaration uses no `ALL` and lists nothing under `*`. |
| `Stability.StaysWellTyped` | internal/controller/risingwaveuser_controller.go:818-868 | Every pass, broken or not and whatever `USE`s were refused, keeps each cell inside its universe and creates or removes no place. |
| `Stability.DisjointSchemasDisjointTexts` | internal/controller/risingwaveuser_controller.go:825-837 | A check on the declaration alone (no schema name declared in two databases) rules out shared statement texts. |
| `Duplicates.DuplicatesExactly` | internal/controller/risingwaveuser_controller.go:683-694 | Whatever names repeat and from any start: a second complete pass changes a listed place if and only if some privilege is disputed there, which can be read off the entries of its name. |
| `Duplicates.WhichListsSettle` | internal/rwclient/privilege_diff.go:47-72 | Nothing is disputed if and only if one of the entries lists `ALL`, or all of them list the same apart from what a `*` entry gives; a schema entry that leaves an object out lists nothing for it. |
| `Duplicates.PassTurns` | internal/controller/risingwaveuser_controller.go:441-773 | A complete pass over any declaration, names repeated or not, leaves a listed database, schema or object as one turn of the lists declared for it does. |
| `Duplicates.TurnExactly` | internal/rwclient/privilege_diff.go:47-72 | After a turn a privilege is held if and only if a `*` list gives it, some list gives it that did not see it held, or it was held and every list has it. |
| `Duplicates.DisputedToggles` | internal/controller/risingwaveuser_controller.go:683-694 | A disputed privilege is held after a turn exactly if it was not before. |
| `Duplicates.DistinctIsUndisputed` | internal/controller/risingwaveuser_controller.go:683-694 | With distinct names nothing is disputed. |
| `Duplicates.DuplicatesOscillate` | internal/controller/risingwaveuser_controller.go:683-694 | A table listed once with SELECT and once with INSERT: two complete passes that lead into each other, swapping the two privileges. |
| `Routing.InterleavingRefinement` | internal/controller/risingwaveuser_controller.go:797-868 | The globally sorted run with on-demand `USE` leaves every cell as if the sorted statements of its own database had run alone in that database, with the same answers. |
| `Routing.EachDatabaseGetsItsOwn` | internal/controller/risingwaveuser_controller.go:797-816 | The statements sent for a database are exactly its own group, in the order in which its own sorted run would send them. |
| `Executor.RoutedExactly` | internal/controller/risingwaveuser_controller.go:839-849 | A statement runs in its own database if and only if its `USE` was accepted or the session was there anyway: when going on after a refused `USE` is harmless, and when not. |
| `Executor.BeliefsAreRight` | internal/controller/risingwaveuser_controller.go:839-849 | Whatever `USE`s are refused, a nonempty `currentDB` is where the session is. |
| `Refusals.GrantLandsInStart` | internal/controller/risingwaveuser_controller.go:839-868 | With every `USE` refused, whatever is granted for any database is granted in the session's. |
| `Refusals.RevokeLandsInStart` | internal/controller/risingwaveuser_controller.go:839-868 | And what is revoked for any database is lost in the session's, where nothing grants it. |
| `Refusals.StrayGrantGives` | internal/controller/risingwaveuser_controller.go:839-849 | A complete pass, every statement successful and every `USE` refused, that grants on a table of "dev" on which nothing was held or declared. |
| `Refusals.StrayRevokeTakes` | internal/controller/risingwaveuser_controller.go:839-849 | And one that takes from a table of "dev" in an undeclared schema, because a table of that name is an orphan in the declared database. |
| `Routing.RoutingExact` | internal/controller/risingwaveuser_controller.go:825-837 | Every run the executor can make with accepted `USE`s sends every database its own statements if and only if no text is planned for two databases. |
| `Routing.SharedTextMisroutes` | internal/controller/risingwaveuser_controller.go:825-837 | With a text planned for two databases there is, from any start, a run in which every statement and `USE` succeeds and one of the two never gets it. |
| `Runs.TextsDisjointExactly` | internal/controller/risingwaveuser_controller.go:441-773 | Every plan the code can produce keeps the texts of different databases apart if and only if no two databases are asked for the same thing: a condition on declaration and snapshot alone. |
| `Runs.ShadowedDatabaseIsSkipped` | internal/controller/risingwaveuser_controller.go:825-849 | When everything asked of one database is asked of another too, some pass in which everything succeeds changes nothing inside the first. |
| `Runs.SharedDemandsMiss` | internal/controller/risingwaveuser_controller.go:825-849 | Two databases asked for some of the same things: in the all-successful pass whose lookup prefers the other, a cell inside the one ends with exactly what the demands made of it alone take and give. |
| `Runs.TwinDatabasesMisroute` | internal/controller/risingwaveuser_controller.go:825-849 | Two databases with the same declaration: a complete, all-successful pass leaves a table ungranted that the declaration asks for. |
| `Runs.PlanExists` | internal/controller/risingwaveuser_controller.go:426-791 | Every declaration and snapshot has a plan, with object privileges listed in order and nothing repeated when names are distinct. |
| `Runs.SoundPassExists` | internal/controller/risingwaveuser_controller.go:797-868 | The hypotheses of the convergence results can be met: there is such a pass for every declaration whose databases ask for different things. |
| `Routing.OwnerIsPlanner` | internal/controller/risingwaveuser_controller.go:825-837 | With disjoint texts the lookup answers the planning database, and no database for a database-level statement. |
| `Routing.DatabaseTextsApart` | internal/rwclient/privilege_diff.go:55-58 | No database-level text equals the text of a statement about a schema or its objects. |
| `Executor.SyncPrivileges` | internal/controller/risingwaveuser_controller.go:409-876 | One call plans, orders and sends as specified, without repeating anything when names are distinct; absent grants change nothing; it fails exactly when some answer is an error that says none of the three tolerated phrases, and then at the first such answer; otherwise every statement is sent; with accepted `USE`s every statement is routed. |
| `Executor.Send` | internal/controller/risingwaveuser_controller.go:818-868 | The server ends as the replay of the log, and session and `currentDB` follow from the accepted `USE`s; the run stops at the first answer that is an error without a tolerated phrase, and sends everything if there is none. |
| `Executor.Tolerated` | internal/controller/risingwaveuser_controller.go:856-868 | An error is passed over if and only if "does not exist", "not found" or "must be owner" stands somewhere in its message, each upper-case ASCII letter counting as its lower-case one. |
| `Executor.Switch` | internal/controller/risingwaveuser_controller.go:839-849 | A refused `USE` leaves session and belief alone; an accepted one makes both the target. |
| `Executor.FindOwner` | internal/controller/risingwaveuser_controller.go:825-837 | The database found has the text in its group; none found means no named group has it. |
| `Executor.Collect` | internal/controller/risingwaveuser_controller.go:797-803 | Global statements, then every group once, in whatever order the map yields them. |
| `Executor.SortStatements` | internal/controller/risingwaveuser_controller.go:806-816 | The sorted list is ordered by the comparator and holds the same statements with the same multiplicity. |
| `Executor.PrecedesIsStrictTotal` | internal/controller/risingwaveuser_controller.go:806-816 | The comparator is a strict total order on texts and puts every REVOKE before every GRANT. |
| `Executor.PrecedesExactly` | internal/controller/risingwaveuser_controller.go:806-816 | One statement is sent before another if and only if it is a REVOKE and the other a GRANT, or both have the same verb and its text is a proper beginning of the other's or has the smaller character where they first differ. |
| `Executor.SortedPlanUnique` | internal/controller/risingwaveuser_controller.go:806-816 | Any two orderings of the same statements sort to the identical list. |
| `Determinism.ObjectStatementsDetermined` | internal/controller/risingwaveuser_controller.go:797-816 | Two passes over the same declaration and snapshot send the same statements about objects, each as often, in the same order, whatever order their maps were walked in. |
| `Executor.Connection.Use` | internal/controller/risingwaveuser_controller.go:839-849 | A `USE` moves the session exactly when the server accepts it, and never changes privileges. |
| `Executor.Connection.Exec` | internal/controller/risingwaveuser_controller.go:856-868 | A statement changes the server by its meaning in the session's database exactly when it succeeds, and that meaning is what a reader of its text gets from it. |
| `Server.ReplayPerCell` | internal/controller/risingwaveuser_controller.go:818-868 | Replaying a log acts on each cell separately and never adds or drops a place. |
| `Server.RevokesFirstValue` | internal/controller/risingwaveuser_controller.go:806-816 | With REVOKEs first, a cell holds a privilege afterwards if and only if it was granted, or was there and not revoked; order within the halves does not matter. |
| `Effect.CompleteValue` | internal/controller/risingwaveuser_controller.go:818-868 | A complete pass leaves a cell with (before - taken) + given, both read off the plan as a set of demands. |
| `Effect.PartialValue` | internal/controller/risingwaveuser_controller.go:818-868 | Any cut-off or partly refused pass whose statements ran in their own databases stays between before - taken and before + given. |
| `Effect.UpperExactly` | internal/controller/risingwaveuser_controller.go:818-868 | Under any answers and refused `USE`s, a cell stays below a bound that allows for what it held and is given, if and only if the strays on it do. |
| `Effect.LowerExactly` | internal/controller/risingwaveuser_controller.go:818-868 | It keeps what it held and the plan does not take, if and only if what strays took of that is granted again. |
| `Effect.GrantPhaseValue` | internal/controller/risingwaveuser_controller.go:806-868 | Once a GRANT was sent and the REVOKEs about the cell landed, it is within (before - taken) + given, if and only if no strayed GRANT gives more. |
| `Effect.OthersUntouched` | internal/controller/risingwaveuser_controller.go:818-868 | No pass ever changes a cell of a user other than the one reconciled. |
| `Desired.PlanReachesGoal` | internal/controller/risingwaveuser_controller.go:441-791 | For every database, schema and object, what the plan takes and gives turns the faithful snapshot's value into the goal, and nothing is taken from a kept place. |
| `Planner.PlanPrivileges` | internal/controller/risingwaveuser_controller.go:426-791 | The plan asks for exactly the specified demands (globals, and one group per declared database), none twice when names are distinct, with object privileges listed in order. |
| `Planner.ReconcileSchema` | internal/controller/risingwaveuser_controller.go:472-774 | A schema entry yields its own diff, the orphan revocations if the schema is listed, and the diffs of all entries of all seven kinds, nothing twice when names are distinct. |
| `Planner.RevokeOrphans` | internal/controller/risingwaveuser_controller.go:491-517 | Held objects without an entry are revoked wholesale, except named ones under a `*` entry. |
| `Planner.ReconcileEntries` | internal/controller/risingwaveuser_controller.go:683-694 | Each entry is diffed against the first held entry of its name, or against nothing. |
| `Planner.RevokeOrphanDatabases` | internal/controller/risingwaveuser_controller.go:775-791 | Exactly the listed, undeclared databases with database-level privileges are revoked, at that level only. |
| `Planner.FindObjectPrivilege` | internal/controller/risingwaveuser_controller.go:879-890 | The first entry of the name, or an empty entry with that name. |
| `Diff.CalculateDatabaseDiff` | internal/rwclient/privilege_diff.go:34-76 | At most one GRANT for declared-and-not-held, at most one REVOKE for held-and-not-declared, each listing every such privilege once, and none for an empty difference. |
| `Diff.CalculateSchemaDiff` | internal/rwclient/privilege_diff.go:79-121 | The same at schema level, on the entry's schema. |
| `Diff.CalculateObjectDiff` | internal/rwclient/privilege_diff.go:124-189 | The same for an object or a `*` entry, with each privilege list sorted. |
| `Diff.ObjectDiffDeterministic` | internal/rwclient/privilege_diff.go:158-186 | Held and declared sets determine the object diff: map iteration order does not show. |
| `Sql.TextInjective` | internal/rwclient/privilege_diff.go:138-185 | Equal statement texts mean equal verb, privilege list, kind, schema, object and user. |
| `Sql.TextReads` | internal/rwclient/privilege_diff.go:47-185 | A reader written from the grammar (GRANT ... ON ... TO, REVOKE ... ON ... FROM, the kind words and their plurals after ALL, quoted names, lists with commas) reads every text sent as exactly the statement meant. |
| `Sql.UseReads` | internal/controller/risingwaveuser_controller.go:839-849 | The text of a `USE` names the database to switch to, whatever its name. |
| `Sql.QuotedUnique` | internal/rwclient/sql_builder.go:27-37 | Quoting an identifier is injective and self-delimiting, with `*` left bare. |
| `Sql.OnClauseNamesTarget` | internal/rwclient/privilege_diff.go:138-156 | The full wildcard type and the bare kind lead to the same ON clause, the one of the target meant. |
| `Sql.AlterUserPasswordInjective` | internal/rwclient/sql_builder.go:62-66 | The text determines account and password. |
| `Sql.PasswordReads` | internal/rwclient/sql_builder.go:62-66 | The text is read as setting exactly this password for exactly this account: no password can end its literal early. |
| `Acl.ParseACL` | internal/rwclient/acl_parser.go:38-85 | The nested loops with the skipping index compute the recursive reading of the list; malformed entries are passed over. |
| `Acl.ParsePrivileges` | internal/rwclient/acl_parser.go:68-80 | The index loop that skips a star yields one privilege per letter, with the star as grant option. |
| `Acl.PrintUndoesParse` | internal/rwclient/acl_parser.go:68-80 | Printing the parsed privileges gives every privilege string back, whatever it was. |
| `Acl.ParseUndoesPrintExactly` | internal/rwclient/acl_parser.go:68-80 | Parsing printed privileges gives them back if and only if no privilege `*` follows a privilege without grant option. |
| `Acl.AclRoundTrip` | internal/rwclient/acl_parser.go:38-85 | Parsing a printed list gives back every grantee and privilege, for names free of the separators and outer names clear of braces. |
| `Acl.MapCharInjective` | internal/rwclient/acl_parser.go:87-171 | No two letters stand for the same privilege, in any of the tables. |
| `Acl.LettersExactly` | internal/rwclient/acl_parser.go:87-171 | A letter is read as a privilege if and only if it is the abbreviation the PostgreSQL manual gives that privilege and the privilege is among those of the catalog table. |
| `Acl.EntryExactly` | internal/rwclient/acl_parser.go:45-82 | An entry is read if and only if it has one `=` and after it one `/`, and then as user, privileges and grantor; all others are passed over. |
| `Acl.TrimExactly` | internal/rwclient/acl_parser.go:39-42 | All braces at either end of a list are cut off, and nothing else. |
| `Snapshot.UniverseLegible` | internal/rwclient/acl_parser.go:87-171 | What ALL means on a place is what its list can say, but for TRUNCATE and REFERENCES on views and all but SELECT on materialized views. |
| `Snapshot.FetchPrivileges` | internal/rwclient/privilege_snapshot.go:305-355 | The row loop computes what the rows say; one unreadable row fails the fetch. |
| `Snapshot.WrittenIsFetched` | internal/rwclient/privilege_snapshot.go:305-355 | Rows written from the cells (the manual's letter for every privilege held, printed among the entries of other users) are fetched back as the cells: each nonempty one once, with its exact set. |
| `Snapshot.EveryHoldingIsWritten` | internal/rwclient/privilege_snapshot.go:305-355 | For whatever a user holds on a place there is such a row. |
| `Snapshot.FetchedFromEntry` | internal/rwclient/privilege_snapshot.go:333-343 | Everything fetched is an entry of the user in a list of its name, with that entry's privileges, and has a grant option if and only if a privilege read there carries one. |
| `Snapshot.MapPrivileges` | internal/rwclient/privilege_snapshot.go:333-343 | The mapped letters in order, unknown ones dropped; grant option exactly when a mapped one carries it. |
| `Snapshot.FetchDatabases` | internal/rwclient/privilege_snapshot.go:217-267 | Later rows and entries overwrite earlier ones; a database naming the user is recorded even with nothing mapped. |
| `Snapshot.FetchObjects` | internal/rwclient/privilege_snapshot.go:116-165 | All seven lists of one schema, each with its own letter table; the fetch fails exactly when one of them has an unreadable row. |
| `Snapshot.FetchSchemas` | internal/rwclient/privilege_snapshot.go:109-215 | Exactly the schemas with a mapped schema-level privilege, each with its seven lists; the fetch fails exactly when the schema rows or a list of a listed schema are unreadable. |
| `Snapshot.FetchSnapshot` | internal/rwclient/privilege_snapshot.go:74-106 | The databases of the database rows, every one with the schemas of the session's database; the fetch fails exactly when the database rows are unreadable, or some database is listed and its schemas cannot be fetched. |
| `Snapshot.FetchFaithful` | internal/rwclient/privilege_snapshot.go:305-355 | With one entry per grantee, a fetched list has exactly the objects of its rows with a mapped privilege, each once, with exactly the mapped set, and no other name. |
| `Snapshot.RecordedIsMentioned` | internal/rwclient/privilege_snapshot.go:244-263 | A recorded database has a row whose list names the user. |
| `Snapshot.MentionedIsRecorded` | internal/rwclient/privilege_snapshot.go:244-263 | A database whose list names the user is recorded with exactly the mapped set. |
| `Snapshot.SnapshotFaithfulExactly` | internal/rwclient/privilege_snapshot.go:74-106 | For a session in any database, the fetched snapshot is faithful to the server if and only if every database whose list names the user agrees with the session's on schemas and on the objects of schemas where something is held. |
| `Snapshot.WrittenSnapshotFaithfulExactly` | internal/rwclient/privilege_snapshot.go:74-106 | The same for lists written from the cells: no letter table of the operator enters the hypothesis. |
| `Snapshot.SnapshotFaithful` | internal/rwclient/privilege_snapshot.go:74-106 | So it is for a user whom no list but that of the session's database names. |
| `Snapshot.AwayFromSession` | internal/rwclient/privilege_snapshot.go:92-101 | A catalog at which it is not, for a user of one database only: the user is named in "analytics" and the session is in "dev". |
| `Snapshot.TwoDatabasesMustAgree` | internal/rwclient/privilege_snapshot.go:92-101 | Whatever the catalog says, the snapshot can only be faithful to two listed databases if the user holds the same in both, on schemas and on the objects of schemas where something is held. |
| `SingleDatabase.ReconcilePrivileges` | internal/controller/risingwaveuser_controller.go:419-876 | Fetch and pass on one connection, the fetch reading what the connection's session sees: a failed fetch changes nothing, otherwise the run is a pass over the fetched snapshot. |
| `SingleDatabase.CatalogToGoal` | internal/controller/risingwaveuser_controller.go:409-876 | From lists written from the cells to the goal, for one declared database and a session in any database, if the databases naming the user agree with the session's. |
| `Builders.BuildGrantStatements` | internal/rwclient/sql_builder.go:100-179 | The texts of one statement per database and schema entry with privileges and per object entry, in declaration order; absent grants give none. |
| `Builders.BuildRevokeStatements` | internal/rwclient/sql_builder.go:436-506 | The texts of the same for REVOKE; that of a function declared by name names a function of one argument. |
| `Builders.BuiltTextInjective` | internal/rwclient/sql_builder.go:181-433 | A built text determines verb, privileges, what is named, user and grant option. |
| `Builders.BuiltTextReads` | internal/rwclient/sql_builder.go:181-433 | The same reader gets from every built text the verb, privileges, thing named (three-part names and signatures included), user and grant option. |
| `Builders.ListsAreRead` | internal/rwclient/sql_builder.go:100-179 | So it reads both lists, for any declaration whose privileges are words. |
| `Builders.EntryIsGranted` | internal/rwclient/sql_builder.go:181-433 | Every declared object entry has a GRANT that is read as its privileges on its object, with its grant option. |
| `Builders.LevelsAreGranted` | internal/rwclient/sql_builder.go:128-160 | And every schema and database entry that lists something. |
| `Builders.GrantsGiveExactly` | internal/rwclient/sql_builder.go:100-179 | Running all grants gives each place of the user exactly what is declared for it (an object entry without privileges gets USAGE, ALL PRIVILEGES is ALL), and nothing to anyone else. |
| `Builders.BuildersPaired` | internal/rwclient/sql_builder.go:100-179 | For every declaration both lists have the same length and agree position by position on privileges and user, and on what is named except at functions declared by name. |
| `Builders.BuildersDual` | internal/rwclient/sql_builder.go:301-314 | The two lists name the same things position by position if and only if no function is declared by name. |
| `Builders.GrantsThenRevokes` | internal/rwclient/sql_builder.go:436-506 | All grants and then all revokes: on every cell that is not a function's, and on all cells if no function is declared by name, the granted privileges are gone and the others as before. |
| `Builders.FunctionsKeepGrants` | internal/rwclient/sql_builder.go:301-314 | On a function, both lists leave exactly what was held or granted and is not taken by a `*` entry or by a signature that happens to name it. |
| `Builders.NamedFunctionStaysGranted` | internal/rwclient/sql_builder.go:301-314 | With one function declared by name, EXECUTE is still held after all grants and all revokes. |
| `Password.ClassesExactly` | internal/utils/password.go:27-36 | The first three classes are exactly the letters of either case and the digits, and the fourth has none of these. |
| `Password.ShuffleBytes` | internal/utils/password.go:90-98 | The in-place loop computes the shuffle specified by the draws, failed ones skipped. |
| `Password.ShuffledPermutes` | internal/utils/password.go:90-98 | For every draw sequence, failures included, the result is a rearrangement. |
| `Password.EveryRearrangementReachable` | internal/utils/password.go:90-98 | For every rearrangement there are draws j <= i that produce it. |
| `Password.DrawsTellApart` | internal/utils/password.go:90-98 | Of distinct elements, two draw sequences give the same rearrangement if and only if they swap the same positions, a failed draw counting as the position itself. |
| `Password.OneDrawSequenceEach` | internal/utils/password.go:90-98 | Each rearrangement of distinct elements is made by exactly one sequence of successful draws. |
| `Password.GenerateRandomPassword` | internal/utils/password.go:39-78 | The password the draws make; its length is the target minus failed fill draws, all characters are from the alphabet, and each class whose draw succeeded survives the shuffle. |
| `Password.PasswordOfDraws` | internal/utils/password.go:46-78 | Each character is in the password exactly as often as a draw picked it: a class draw from its class, a fill draw from the alphabet. |
| `Password.PasswordsExactly` | internal/utils/password.go:39-78 | The passwords that draws without failures can make are exactly the strings of the length asked for (16 below 8) with a character of each class at four different positions and otherwise characters of the alphabet, in any order. |
| `Password.NoFailuresFullLength` | internal/utils/password.go:67-72 | Without failing fill draws nothing is missing from the target length. |
| `Rotation.CrashSafeRotation` | internal/controller/risingwaveuser_controller.go:146-279 | In every reachable state, with any write failing with or without effect, passwords agree or rotation is still asked for, if Secret reads succeed. |
| `Rotation.RotationCompletes` | internal/controller/risingwaveuser_controller.go:200-279 | A pass without failures on a flagged user puts the generated password in both places and clears the flag. |
| `Rotation.QuietPass` | internal/controller/risingwaveuser_controller.go:352-358 | With nothing to rotate and a readable Secret, a pass changes nothing, whatever fails. |
| `Rotation.UnreadableSecretExactly` | internal/controller/risingwaveuser_controller.go:355-365 | A failing Secret read without rotation keeps agreement if and only if the pass stops before the Secret is written or the fresh password is the account's. |
| `Rotation.PassExactly` | internal/controller/risingwaveuser_controller.go:146-279 | Account, Secret and flag after a reconciliation from any world with any failures. |
| `Rotation.AgreementExactly` | internal/controller/risingwaveuser_controller.go:146-279 | When a finished pass leaves account and Secret in agreement, from any world: creating, if and only if both resolutions give the same password; rotating, always; otherwise, if and only if the password resolved is the account's. |
| `Rotation.FirstCreationExactly` | internal/controller/risingwaveuser_controller.go:922-930 | First creation draws twice, flagged or not: account and Secret agree if and only if the two draws coincide. |
| `Rotation.CreationWithSecretAgrees` | internal/controller/risingwaveuser_controller.go:176-199 | Creating the account while the Secret can be read and no rotation is asked for uses the Secret's password for both. |
| `Rotation.FlaggedCreationExactly` | internal/controller/risingwaveuser_controller.go:176-199 | With a rotation asked for, creation gives the account the old password and the Secret a new one and clears the flag; they agree if and only if the new one is the old one. |
| `Rotation.MissingSecretExactly` | internal/controller/risingwaveuser_controller.go:352-365 | An account without a Secret gets a Secret with a fresh password; they agree if and only if the draw is the account's password. |
| `Rotation.CrashAfterCreation` | internal/controller/risingwaveuser_controller.go:187-265 | A creation cut off before the Secret is written leaves an account whose password is stored nowhere. |
| `Rotation.OnlyRotationRepairs` | internal/controller/risingwaveuser_controller.go:146-279 | Once both exist, nothing but a rotation changes either over any run with readable Secrets, so that a disagreement lasts until one is asked for. |
| `Rotation.ManagedUser.Reconcile` | internal/controller/risingwaveuser_controller.go:146-279 | The step order with its early returns is one run of the five steps the safety results are about. |
| `Lifecycle.LifecycleSafe` | internal/controller/risingwaveschema_controller.go:110-173 | Over every run, with edits, deletions, crashes and failing writes: CREATE and ALTER only with the finalizer persisted and no deletion seen; DROP only with finalizer, deletion and policy `delete`, never for `public`; the finalizer comes off only by a successful DROP or a retain rule. |
| `Lifecycle.GoneOnlyAfterDropOrRetain` | internal/utils/finalizer.go:106-126 | An object that had the finalizer disappears only after the operator released it, right after a DROP that succeeded or by a retain rule. |
| `Lifecycle.DeletionCompletes` | internal/controller/risingwaveschema_controller.go:260-303 | One undisturbed reconciliation of a deleted object with policy `delete` drops and takes the finalizer off; the object is gone unless something else holds it. |
| `Lifecycle.RetentionCompletes` | internal/controller/risingwaveschema_controller.go:260-283 | With any policy but `delete` and `abandon`, and for the schema `public`, it releases the object the same way without a DROP. |
| `Lifecycle.AbandonmentCompletes` | internal/utils/finalizer.go:95-104 | And so with `abandon`. |
| `Lifecycle.KeptExactly` | internal/utils/finalizer.go:106-126 | With any outcomes a deleted object keeps its finalizer if and only if a DROP was asked for and it or the `USE` before it failed, or the update was refused. |
| `Lifecycle.CreationExactly` | internal/controller/risingwaveschema_controller.go:110-220 | One reconciliation of an object not being deleted, with any outcomes: finalizer first, then CREATE if missing, then ALTER if the owner differs, each only after the step before it succeeded. |
| `Lifecycle.NothingToDo` | internal/utils/finalizer.go:88-93 | An absent or paused object, or a deleted one without the finalizer, is left alone. |
| `Lifecycle.EditsAreNotOverwritten` | internal/utils/finalizer.go:46-62 | Over every step: an object the operator changes is still the copy it fetched. |
| `Lifecycle.CreationCompletes` | internal/controller/risingwavedatabase_controller.go:110-161 | One undisturbed reconciliation of a new object persists the finalizer first and then creates. |
| `Lifecycle.Controller.HandleFinalizer` | internal/utils/finalizer.go:68-130 | Adding, abandoning or finalizing and then removing, as the three operator steps of the state machine in order. |
| `Lifecycle.Controller.RunFinalization` | internal/controller/risingwavedatabase_controller.go:242-267 | Retain unless policy `delete` (and never drop `public`), else DROP; the outcome decides whether the finalizer may go. |
| `Lifecycle.Controller.RemoveFinalizer` | internal/utils/finalizer.go:46-62 | The finalizer goes only if nobody changed the object since it was fetched, and the object with it if nothing else holds it. |
| `Lifecycle.Controller.Reconcile` | internal/controller/risingwaveschema_controller.go:56-220 | One reconciliation of either resource is a run of the state machine the safety results are about. |

## Left out

- Rotation.CrashSafeRotation: starts from an existing account and Secret and needs readable Secrets, because the code does not keep agreement otherwise; `AgreementExactly` says when it does.
- Convergence.RetryConvergence: for undeclared schemas and for unnamed objects under a `*` entry what broken passes did astray must have been harmless, because nothing takes it back; `LastPassDecides` is the equivalence.
- Duplicates.DuplicatesExactly: speaks of places both passes list; what a pass does not list it compares with nothing held.
- Planner.PlanPrivileges: does not state the order of statements inside a group, nor of privileges in database and schema statements; the first does not survive sorting and the second is the map's.
- Executor.SortStatements: the sorting algorithm of the Go library is replaced by insertion into a sorted list; `SortedPlanUnique` shows that any sorting gives the same list.
- The repeated blocks for the seven object kinds are one loop over the kinds.
- Grant options are carried through parser, snapshot and builders, and never compared by the diff, as in the code.
- The connection pool and the driver: one session is assumed, so that `USE` and the statement after it reach the same session.
- Errors a row cursor reports at its end: the code never asks for them.
- Names, lists and error messages outside ASCII: a letter above 127 would be re-encoded by the parser, and lower-casing knows letters beyond A to Z.
- Which special characters there are, beyond that none is a letter or a digit: the constant is the only place that says so.
- The server's own checks of GRANT and REVOKE: a statement names an existing place or is answered with an error.
- The universes behind `ALL` are the declared constants of each kind; views have no TRUNCATE or REFERENCES there although the letter table reads them.
- User deletion: the user finalizer drops the account unless the policy is `abandon`, unlike databases and schemas, which retain by default.
- CREATE USER, user-level permissions, OAuth and LDAP accounts, passwords from a secretRef, admin credentials.
- Status fields, metrics, logging and redaction, requeue delays.
- Two reconciliations of the same object at the same time: the controller runtime does not start them.
