/**
 Password rotation for a password-authenticated user whose password the operator manages:
 three writes (account, Secret, annotation), any of which may fail with or without effect.
 */
module Rotation {
  import opened Wrappers
  import opened Writes

  /** What is stored: the account's password, the Secret's password, the rotate-password annotation. */
  datatype World = World(server: Option<string>, secret: Option<string>, rotate: bool)

  /** Where a reconciliation stands, with what it has in memory. */
  datatype Progress =
    | Idle
    | Resolved(rotating: bool, password: string)
    | AccountReady(rotating: bool, password: string)
    | Synced(rotating: bool, password: string)
    | Stored(rotating: bool)

  datatype State = State(world: World, progress: Progress)

  datatype Event =
    | Annotate                                                     // a user asks for rotation
    | Crash                                                        // the operator restarts
    | Begin(readable: bool, generated: string)                         // steps 1-5: annotation and password
    | Account(checked: bool, readable: bool, generated: string, write: Write)  // step 6
    | Sync(ok: bool)                                               // steps 7-8
    | Store(found: bool, write: Write)                             // step 9
    | Clear(write: Write)                                          // step 10

  /** Reuse the Secret's password unless it must rotate or cannot be read; else generate. */
  function ResolvePassword(w: World, readable: bool, rotating: bool, generated: string): string {
    if readable && w.secret.Some? && !rotating then w.secret.value else generated
  }

  /** One step; an event that does not fit the progress changes nothing. */
  function Step(s: State, e: Event): State {
    var w := s.world;
    match e
    case Annotate => s.(world := w.(rotate := true))
    case Crash => s.(progress := Idle)
    case Begin(readable, generated) =>
      if !s.progress.Idle? then s
      else s.(progress := Resolved(w.rotate, ResolvePassword(w, readable, w.rotate, generated)))
    case Account(checked, readable, generated, write) =>
      if !s.progress.Resolved? then s
      else
        var p := s.progress;
        if !checked then State(w, Idle)
        else if w.server.None? then
          // CREATE USER resolves the password a second time, as if not rotating
          var created := w.(server := Some(ResolvePassword(w, readable, false, generated)));
          State(if Takes(write) then created else w, if write.Applied? then AccountReady(p.rotating, p.password)
            else Idle)
        else if p.rotating then
          State(if Takes(write) then w.(server := Some(p.password)) else w,
                if write.Applied? then AccountReady(p.rotating, p.password) else Idle)
        else State(w, AccountReady(p.rotating, p.password))
    case Sync(ok) =>
      if !s.progress.AccountReady? then s
      else State(w, if ok then Synced(s.progress.rotating, s.progress.password) else Idle)
    case Store(found, write) =>
      if !s.progress.Synced? then s
      else if !found then State(w, Idle)
      else
        State(if Takes(write) then w.(secret := Some(s.progress.password)) else w,
              if write.Applied? then Stored(s.progress.rotating) else Idle)
    case Clear(write) =>
      if !s.progress.Stored? then s
      else State(if s.progress.rotating && Takes(write) then w.(rotate := false) else w, Idle)
  }

  function Run(s: State, events: seq<Event>): State {
    if events == [] then s else Step(Run(s, events[..|events| - 1]), events[|events| - 1])
  }

  // ---------- the reconciler ----------

  /** Outcomes of one reconciliation. */
  datatype Outcomes = Outcomes(
    readable: bool, generated: string, checked: bool, readableAgain: bool, generatedAgain: string, account: Write,
    synced: bool, found: bool, store: Write, clear: Write)

  function EventsOf(o: Outcomes): seq<Event> {
    [Begin(o.readable, o.generated), Account(o.checked, o.readableAgain, o.generatedAgain, o.account), Sync(o.synced),
     Store(o.found, o.store), Clear(o.clear)]
  }

  class ManagedUser {
    var server: Option<string>
    var secret: Option<string>
    var rotate: bool

    function Stored(): World
      reads this
    {
      World(server, secret, rotate)
    }

    /** resolveUserPassword without a secretRef */
    method Resolve(readable: bool, rotating: bool, generated: string) returns (password: string)
      ensures password == ResolvePassword(Stored(), readable, rotating, generated)
    {
      if readable && secret.Some? && !rotating {
        return secret.value;
      }
      return generated;
    }

    /** The step order of Reconcile; every early return is a failed step. */
    method Reconcile(o: Outcomes)
      modifies this
      ensures Stored() == AfterPass(old(Stored()), o)
    {
      Unrolled(Stored(), o);
      var rotatePassword := rotate;
      var password := Resolve(o.readable, rotatePassword, o.generated);
      if !o.checked { return; }
      if server.None? {
        var created := Resolve(o.readableAgain, false, o.generatedAgain);
        if Takes(o.account) { server := Some(created); }
        if !o.account.Applied? { return; }
      } else if rotatePassword {
        if Takes(o.account) { server := Some(password); }
        if !o.account.Applied? { return; }
      }
      if !o.synced { return; }
      if !o.found { return; }
      if Takes(o.store) { secret := Some(password); }
      if !o.store.Applied? { return; }
      if rotatePassword {
        if Takes(o.clear) { rotate := false; }
      }
    }
  }

  /** A reconciliation is its five events in order. */
  function AfterPass(w: World, o: Outcomes): World {
    Run(State(w, Idle), EventsOf(o)).world
  }

  lemma Unrolled(w: World, o: Outcomes)
    ensures var e := EventsOf(o);
      Run(State(w, Idle), e) == Step(Step(Step(Step(Step(State(w, Idle), e[0]), e[1]), e[2]), e[3]), e[4])
  {
    var s, e := State(w, Idle), EventsOf(o);
    assert e[..1][..0] == [] && e[..2][..1] == e[..1] && e[..3][..2] == e[..2] && e[..4][..3] == e[..3];
    assert Run(s, e[..1]) == Step(s, e[0]);
    assert Run(s, e[..2]) == Step(Run(s, e[..1]), e[1]);
    assert Run(s, e[..3]) == Step(Run(s, e[..2]), e[2]);
    assert Run(s, e[..4]) == Step(Run(s, e[..3]), e[3]);
  }

  // ---------- crash safety ----------

  /** Account and Secret exist and agree, or a rotation is still asked for. */
  predicate Safe(w: World) {
    w.server.Some? && w.secret.Some? && (w.server == w.secret || w.rotate)
  }

  /** What the memory of a reconciliation in progress knows. */
  predicate Consistent(s: State) {
    var w, p := s.world, s.progress;
    && Safe(w)
    && match p
       case Idle => true
       case Resolved(rotating, password) => if rotating then w.rotate else Some(password) == w.secret
       case AccountReady(rotating, password) =>
         if rotating then w.rotate && w.server == Some(password) else Some(password) == w.secret
       case Synced(rotating, password) =>
         if rotating then w.rotate && w.server == Some(password) else Some(password) == w.secret
       case Stored(rotating) => rotating ==> w.server == w.secret
  }

  /** Reads of the Secret succeed. */
  predicate ReadsSucceed(events: seq<Event>) {
    forall i :: 0 <= i < |events| && events[i].Begin? ==> events[i].readable
  }

  lemma StepStaysConsistent(s: State, e: Event)
    requires Consistent(s) && (e.Begin? ==> e.readable)
    ensures Consistent(Step(s, e))
  {
  }

  /** In every reachable state, whatever write failed wherever, passwords agree or the rotation is still asked for. */
  lemma {:induction false} CrashSafeRotation(s: State, events: seq<Event>)
    requires Consistent(s) && ReadsSucceed(events)
    ensures Consistent(Run(s, events)) && Safe(Run(s, events).world)
  {
    if events != [] {
      CrashSafeRotation(s, events[..|events| - 1]);
      StepStaysConsistent(Run(s, events[..|events| - 1]), events[|events| - 1]);
    }
  }

  // ---------- one pass, exactly ----------

  /** The password a pass resolves first, and stores. */
  function First(w: World, o: Outcomes): string {
    ResolvePassword(w, o.readable, w.rotate, o.generated)
  }

  /** The password a CREATE USER resolves again, and uses. */
  function Second(w: World, o: Outcomes): string {
    ResolvePassword(w, o.readableAgain, false, o.generatedAgain)
  }

  predicate WritesAccount(w: World, o: Outcomes) {
    o.checked && (w.server.None? || w.rotate)
  }

  /** The pass gets as far as the Secret. */
  predicate ReachesSecret(w: World, o: Outcomes) {
    o.checked && (WritesAccount(w, o) ==> o.account.Applied?) && o.synced && o.found
  }

  /** No step of the pass fails, up to and including the write of the Secret. */
  predicate Finishes(w: World, o: Outcomes) {
    ReachesSecret(w, o) && o.store.Applied?
  }

  predicate Agree(w: World) {
    w.server.Some? && w.server == w.secret
  }

  /** What each of the three stored things is after a pass, from any world and with any failures. */
  lemma PassExactly(w: World, o: Outcomes)
    ensures AfterPass(w, o).server ==
      if !WritesAccount(w, o) || !Takes(o.account) then w.server
      else Some(if w.server.None? then Second(w, o) else First(w, o))
    ensures AfterPass(w, o).secret == if ReachesSecret(w, o) && Takes(o.store) then Some(First(w, o)) else w.secret
    ensures AfterPass(w, o).rotate == (w.rotate && !(Finishes(w, o) && Takes(o.clear)))
  {
    Unrolled(w, o);
  }

  /**
   When a finished pass leaves account and Secret in agreement, from any world: creating the account, if and only
   if both resolutions give the same password; rotating, always; otherwise, if and only if the password resolved is
   the account's.
   */
  lemma AgreementExactly(w: World, o: Outcomes)
    requires Finishes(w, o)
    ensures Agree(AfterPass(w, o)) <==>
      if w.server.None? then
        ResolvePassword(w, o.readable, w.rotate, o.generated)
          == ResolvePassword(w, o.readableAgain, false, o.generatedAgain)
      else w.rotate || Some(ResolvePassword(w, o.readable, false, o.generated)) == w.server
  {
    PassExactly(w, o);
  }

  /** Rotation is live too: a pass without failures on a flagged user installs the generated password in both places. */
  lemma RotationCompletes(w: World, o: Outcomes)
    requires w.server.Some? && w.rotate && Finishes(w, o) && o.clear.Applied?
    ensures AfterPass(w, o) == World(Some(o.generated), Some(o.generated), false)
  {
    PassExactly(w, o);
  }

  /** A pass that has nothing to rotate and can read the Secret changes nothing, whatever fails. */
  lemma QuietPass(w: World, o: Outcomes)
    requires w.server.Some? && w.secret.Some? && !w.rotate && o.readable
    ensures AfterPass(w, o) == w
  {
    PassExactly(w, o);
  }

  /**
   A Secret read that fails without a rotation makes the operator generate a password and store
   it without changing the account: the pass keeps the passwords safe exactly when it does not get
   as far as the write, or the generated password happens to be the account's.
   */
  lemma UnreadableSecretExactly(w: World, o: Outcomes)
    requires Safe(w) && !w.rotate && !o.readable
    ensures Safe(AfterPass(w, o)) <==>
      !(o.checked && o.synced && o.found && Takes(o.store)) || Some(o.generated) == w.server
  {
    PassExactly(w, o);
  }

  /**
   First creation draws the password twice: the account gets the second draw and the Secret the first, flagged
   for rotation or not. They agree exactly when the two draws coincide.
   */
  lemma FirstCreationExactly(w: World, o: Outcomes)
    requires w.server.None? && w.secret.None? && Finishes(w, o)
    ensures AfterPass(w, o) == World(Some(o.generatedAgain), Some(o.generated), w.rotate && !Takes(o.clear))
    ensures Agree(AfterPass(w, o)) <==> o.generated == o.generatedAgain
  {
    PassExactly(w, o);
    AgreementExactly(w, o);
  }

  /** With a readable Secret beforehand and no rotation asked for, creation uses its password for both. */
  lemma CreationWithSecretAgrees(w: World, o: Outcomes)
    requires w.server.None? && w.secret.Some? && !w.rotate && o.readable && o.readableAgain && Finishes(w, o)
    ensures AfterPass(w, o) == World(w.secret, w.secret, false)
  {
    PassExactly(w, o);
  }

  /**
   With a rotation asked for, creation gives the account the Secret's old password and the Secret a new one, and
   clears the flag: they agree exactly when the new one is the old one.
   */
  lemma FlaggedCreationExactly(w: World, o: Outcomes)
    requires w.server.None? && w.secret.Some? && w.rotate && o.readableAgain && Finishes(w, o)
    ensures AfterPass(w, o) == World(w.secret, Some(o.generated), !Takes(o.clear))
    ensures Agree(AfterPass(w, o)) <==> Some(o.generated) == w.secret
  {
    PassExactly(w, o);
    AgreementExactly(w, o);
  }

  /** An account without a Secret gets a Secret with a fresh password, which is not its own unless the draw is. */
  lemma MissingSecretExactly(w: World, o: Outcomes)
    requires w.server.Some? && w.secret.None? && !w.rotate && Finishes(w, o)
    ensures AfterPass(w, o) == World(w.server, Some(o.generated), false)
    ensures Agree(AfterPass(w, o)) <==> Some(o.generated) == w.server
  {
    PassExactly(w, o);
    AgreementExactly(w, o);
  }

  // ---------- an interrupted creation ----------

  /** A creation cut off after the account was made leaves a password that is stored nowhere. */
  lemma CrashAfterCreation(readable: bool, first: string, readableAgain: bool, second: string)
    ensures var events := [Begin(readable, first), Account(true, readableAgain, second, Applied), Crash];
      Run(State(World(None, None, false), Idle), events) == State(World(Some(second), None, false), Idle)
  {
    var s := State(World(None, None, false), Idle);
    var events := [Begin(readable, first), Account(true, readableAgain, second, Applied), Crash];
    assert events[..2][..1] == events[..1] && events[..1][..0] == [] && events[..2][1] == events[1];
    assert Run(s, events[..1]) == Step(s, events[0]);
    assert Run(s, events[..2]) == Step(Run(s, events[..1]), events[1]);
  }

  predicate NeverFlagged(events: seq<Event>) {
    forall i :: 0 <= i < |events| ==> !events[i].Annotate?
  }

  /** The memory of a reconciliation that has nothing to rotate. */
  predicate Quiet(w: World, s: State) {
    s.world == w && match s.progress
    case Idle => true
    case Resolved(rotating, password) => !rotating && Some(password) == w.secret
    case AccountReady(rotating, password) => !rotating && Some(password) == w.secret
    case Synced(rotating, password) => !rotating && Some(password) == w.secret
    case Stored(rotating) => !rotating
  }

  /**
   Once account and Secret exist, nothing but a rotation changes either: if they disagree, as after an interrupted
   creation and the next pass (MissingSecretExactly), they disagree over every run until one is asked for.
   */
  lemma {:induction false} OnlyRotationRepairs(w: World, events: seq<Event>)
    requires w.server.Some? && w.secret.Some? && !w.rotate && NeverFlagged(events) && ReadsSucceed(events)
    ensures Quiet(w, Run(State(w, Idle), events)) && Run(State(w, Idle), events).world == w
  {
    if events != [] {
      OnlyRotationRepairs(w, events[..|events| - 1]);
    }
  }
}
