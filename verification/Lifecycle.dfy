/**
 Creation and deletion of databases and schemas: HandleFinalizer and the two reconcilers as a
 state machine whose environment edits the resource, asks for deletion and breaks writes.
 */
module Lifecycle {
  import opened Wrappers
  import opened Writes

  /** What is managed; the schema rules differ in two places. */
  datatype Resource = Database(name: string) | Schema(name: string)

  /** The custom resource in the API server. */
  datatype Object = Object(uid: nat, version: nat, finalizer: bool, others: bool, deleting: bool, policy: string,
    paused: bool)

  datatype Reason = Dropped | Retained | Abandoned

  /** What happened, oldest first. `seen` is the copy the operator acted on, `now` what the API server held. */
  datatype Entry =
    | Create(seen: Object, now: Option<Object>)
    | Alter(seen: Object, now: Option<Object>)
    | Drop(seen: Object, now: Option<Object>, answer: Write)
    | Removed(reason: Reason, seen: Object)
    | Gone(last: Object, finalized: bool)

  /** Where a reconciliation stands, with the copy it fetched. */
  datatype Progress =
    | Idle
    | Fetched(seen: Object)
    | Cleared(seen: Object, reason: Reason)
    | Ready(seen: Object)
    | Created(seen: Object)

  /** `finalized`: the present object once had the finalizer; `uids`: objects submitted so far. */
  datatype State = State(cr: Option<Object>, finalized: bool, uids: nat, progress: Progress, log: seq<Entry>)

  datatype Event =
    // the environment
    | Submit(policy: string)
    | Edit(policy: string, paused: bool, others: bool)
    | RequestDeletion
    | Crash
    // the operator
    | Fetch
    | AddFinalizer(write: Write)
    | Finalize(useOk: bool, drop: Write)
    | RemoveFinalizer(write: Write)
    | EnsureExists(useOk: bool, checkOk: bool, exists_: bool, create: Write)
    | EnsureOwner(ownerDiffers: bool, alter: Write)

  /** The object goes away once it is being deleted and nothing holds it. */
  function Settle(s: State): State {
    if s.cr.Some? && s.cr.value.deleting && !s.cr.value.finalizer && !s.cr.value.others
    then s.(cr := None, finalized := false, log := s.log + [Gone(s.cr.value, s.finalized)])
    else s
  }

  function Bump(o: Object): Object { o.(version := o.version + 1) }

  /** An update of the fetched copy lands only if nobody changed the object since. */
  predicate Lands(s: State, seen: Object, write: Write) {
    Takes(write) && s.cr == Some(seen)
  }

  function EnvironmentStep(s: State, e: Event): State {
    match e
    case Submit(policy) =>
      if s.cr.Some? then s
      else s.(cr := Some(Object(s.uids, 0, false, false, false, policy, false)), finalized := false, uids := s.uids + 1)
    case Edit(policy, paused, others) =>
      if s.cr.None? then s
      else Settle(s.(cr := Some(Bump(s.cr.value.(policy := policy, paused := paused, others := others)))))
    case RequestDeletion =>
      if s.cr.None? then s else Settle(s.(cr := Some(Bump(s.cr.value.(deleting := true)))))
    case Crash => s.(progress := Idle)
    case _ => s
  }

  /** The finalizers of the two reconcilers: retain by default, never drop the schema `public`, else DROP. */
  function FinalizeStep(r: Resource, s: State, seen: Object, useOk: bool, drop: Write): State {
    if seen.policy != "delete" || (r.Schema? && r.name == "public") then s.(progress := Cleared(seen, Retained))
    else if r.Schema? && !useOk then s.(progress := Idle)
    else
      s.(log := s.log + [Drop(seen, s.cr, drop)],
         progress := if drop.Applied? then Cleared(seen, Dropped) else Idle)
  }

  function OperatorStep(r: Resource, s: State, e: Event): State {
    match e
    case Fetch =>
      if !s.progress.Idle? || s.cr.None? || s.cr.value.paused then s else s.(progress := Fetched(s.cr.value))
    case AddFinalizer(write) =>
      if !s.progress.Fetched? || s.progress.seen.deleting then s
      else if s.progress.seen.finalizer then s.(progress := Ready(s.progress.seen))
      else
        var seen := s.progress.seen;
        var landed := Lands(s, seen, write);
        s.(cr := if landed then Some(Bump(seen.(finalizer := true))) else s.cr,
           finalized := s.finalized || landed,
           progress := if landed && write.Applied? then Ready(seen.(finalizer := true)) else Idle)
    case Finalize(useOk, drop) =>
      if !s.progress.Fetched? || !s.progress.seen.deleting then s
      else if !s.progress.seen.finalizer then s.(progress := Idle)
      else if s.progress.seen.policy == "abandon" then s.(progress := Cleared(s.progress.seen, Abandoned))
      else FinalizeStep(r, s, s.progress.seen, useOk, drop)
    case RemoveFinalizer(write) =>
      if !s.progress.Cleared? then s
      else
        var seen := s.progress.seen;
        if !Lands(s, seen, write) then s.(progress := Idle)
        else Settle(s.(cr := Some(Bump(seen.(finalizer := false))), progress := Idle,
                       log := s.log + [Removed(s.progress.reason, seen)]))
    case EnsureExists(useOk, checkOk, exists_, create) =>
      if !s.progress.Ready? then s
      else if (r.Schema? && !useOk) || !checkOk then s.(progress := Idle)
      else if exists_ then s.(progress := Created(s.progress.seen))
      else s.(log := s.log + [Create(s.progress.seen, s.cr)],
              progress := if create.Applied? then Created(s.progress.seen) else Idle)
    case EnsureOwner(ownerDiffers, alter) =>
      if !s.progress.Created? then s
      else s.(log := if ownerDiffers then s.log + [Alter(s.progress.seen, s.cr)] else s.log, progress := Idle)
    case _ => s
  }

  predicate IsEnvironment(e: Event) {
    e.Submit? || e.Edit? || e.RequestDeletion? || e.Crash?
  }

  function Step(r: Resource, s: State, e: Event): State {
    if IsEnvironment(e) then EnvironmentStep(s, e) else OperatorStep(r, s, e)
  }

  function Run(r: Resource, s: State, events: seq<Event>): State {
    if events == [] then s else Step(r, Run(r, s, events[..|events| - 1]), events[|events| - 1])
  }

  const START: State := State(None, false, 0, Idle, [])

  // ---------- the invariant ----------

  /** CREATE and ALTER act on a copy that is not being deleted, while the finalizer is persisted. */
  predicate Guarded(seen: Object, now: Option<Object>) {
    !seen.deleting && seen.finalizer && now.Some? && now.value.finalizer
  }

  /** What each entry of the log guarantees, given the entries before it. */
  predicate EntryOk(r: Resource, before: seq<Entry>, e: Entry) {
    match e
    case Create(seen, now) => Guarded(seen, now)
    case Alter(seen, now) => Guarded(seen, now)
    case Drop(seen, now, _) =>
      && seen.deleting && seen.finalizer && seen.policy == "delete" && r != Schema("public")
      && now.Some? && now.value.finalizer && now.value.deleting
    case Removed(reason, seen) =>
      && seen.deleting
      && (match reason
          case Dropped => before != [] && before[|before| - 1].Drop? && before[|before| - 1].seen == seen
                          && before[|before| - 1].answer.Applied?
          case Retained => seen.policy != "delete" || r == Schema("public")
          case Abandoned => seen.policy == "abandon")
    case Gone(last, finalized) => finalized ==> ReleasedIn(before, last.uid)
  }

  /** The operator took the finalizer off object `uid`. */
  predicate ReleasedIn(log: seq<Entry>, uid: nat) {
    exists i :: 0 <= i < |log| && log[i].Removed? && log[i].seen.uid == uid
  }

  predicate LogOk(r: Resource, log: seq<Entry>) {
    forall i :: 0 <= i < |log| ==> EntryOk(r, log[..i], log[i])
  }

  /** A copy in memory with the finalizer means the finalizer is still there: only the operator edits it. */
  predicate Holding(s: State, seen: Object) {
    seen.finalizer ==>
      s.cr.Some? && s.cr.value.finalizer && s.cr.value.uid == seen.uid && (seen.deleting ==> s.cr.value.deleting)
  }

  predicate ProgressOk(r: Resource, s: State) {
    match s.progress
    case Idle => true
    case Fetched(seen) => Holding(s, seen)
    case Ready(seen) => seen.finalizer && !seen.deleting && Holding(s, seen)
    case Created(seen) => seen.finalizer && !seen.deleting && Holding(s, seen)
    case Cleared(seen, reason) =>
      && seen.finalizer && seen.deleting && Holding(s, seen)
      && (match reason
          case Dropped => LastDropped(s.log, seen)
          case Retained => seen.policy != "delete" || r == Schema("public")
          case Abandoned => seen.policy == "abandon")
  }

  predicate LastDropped(log: seq<Entry>, seen: Object) {
    log != [] && log[|log| - 1].Drop? && log[|log| - 1].seen == seen && log[|log| - 1].answer.Applied?
  }

  /** A finalizer once set is there until the operator released it. */
  predicate FinalizerOk(s: State) {
    s.cr.Some? ==>
      && (s.cr.value.finalizer ==> s.finalized)
      && (s.finalized && !s.cr.value.finalizer ==> ReleasedIn(s.log, s.cr.value.uid))
  }

  predicate Inv(r: Resource, s: State) {
    LogOk(r, s.log) && ProgressOk(r, s) && FinalizerOk(s)
  }

  lemma LogGrows(r: Resource, log: seq<Entry>, e: Entry)
    requires LogOk(r, log) && EntryOk(r, log, e)
    ensures LogOk(r, log + [e])
    ensures forall uid :: ReleasedIn(log, uid) ==> ReleasedIn(log + [e], uid)
    ensures e.Removed? ==> ReleasedIn(log + [e], e.seen.uid)
  {
    var longer := log + [e];
    forall i | 0 <= i < |longer| ensures EntryOk(r, longer[..i], longer[i]) {
      assert longer[..i] == if i < |log| then log[..i] else log;
    }
    forall uid | ReleasedIn(log, uid) ensures ReleasedIn(longer, uid) {
      var i :| 0 <= i < |log| && log[i].Removed? && log[i].seen.uid == uid;
      assert longer[i] == log[i];
    }
    assert longer[|log|] == e;
  }

  lemma SettleKeeps(r: Resource, s: State)
    requires Inv(r, s)
    ensures Inv(r, Settle(s))
  {
    if s.cr.Some? {
      if s.cr.value.deleting && !s.cr.value.finalizer && !s.cr.value.others {
        LogGrows(r, s.log, Gone(s.cr.value, s.finalized));
      }
    }
  }

  lemma EnvironmentKeeps(r: Resource, s: State, e: Event)
    requires Inv(r, s) && IsEnvironment(e)
    ensures Inv(r, EnvironmentStep(s, e))
  {
    match e
    case Submit(_) =>
    case Edit(policy, paused, others) =>
      if s.cr.Some? {
        var edited := Bump(s.cr.value.(policy := policy, paused := paused, others := others));
        SettleKeeps(r, s.(cr := Some(edited)));
      }
    case RequestDeletion =>
      if s.cr.Some? { SettleKeeps(r, s.(cr := Some(Bump(s.cr.value.(deleting := true))))); }
    case Crash =>
  }

  lemma FinalizeKeeps(r: Resource, s: State, useOk: bool, drop: Write)
    requires Inv(r, s)
    ensures Inv(r, OperatorStep(r, s, Finalize(useOk, drop)))
  {
    if s.progress.Fetched? {
      var seen := s.progress.seen;
      if seen.deleting && seen.finalizer && seen.policy == "delete" && r != Schema("public") {
        LogGrows(r, s.log, Drop(seen, s.cr, drop));
      }
    }
  }

  lemma RemoveKeeps(r: Resource, s: State, write: Write)
    requires Inv(r, s)
    ensures Inv(r, OperatorStep(r, s, RemoveFinalizer(write)))
  {
    if s.progress.Cleared? && Lands(s, s.progress.seen, write) {
      var seen, e := s.progress.seen, Removed(s.progress.reason, s.progress.seen);
      LogGrows(r, s.log, e);
      SettleKeeps(r, s.(cr := Some(Bump(seen.(finalizer := false))), progress := Idle, log := s.log + [e]));
    }
  }

  lemma OperatorKeeps(r: Resource, s: State, e: Event)
    requires Inv(r, s) && !IsEnvironment(e)
    ensures Inv(r, OperatorStep(r, s, e))
  {
    match e
    case Finalize(useOk, drop) => FinalizeKeeps(r, s, useOk, drop);
    case RemoveFinalizer(write) => RemoveKeeps(r, s, write);
    case EnsureExists(_, _, _, _) =>
      if s.progress.Ready? { LogGrows(r, s.log, Create(s.progress.seen, s.cr)); }
    case EnsureOwner(_, _) =>
      if s.progress.Created? { LogGrows(r, s.log, Alter(s.progress.seen, s.cr)); }
    case _ =>
  }

  /**
   Over every run: CREATE and ALTER only with the finalizer persisted and no deletion seen; DROP
   only with finalizer, deletion and policy `delete`, never for the schema `public`; the finalizer
   comes off only right after a successful DROP or by a retain rule; and an object that had it
   disappears only after that.
   */
  lemma {:induction false} LifecycleSafe(r: Resource, events: seq<Event>)
    ensures Inv(r, Run(r, START, events))
  {
    if events != [] {
      var front, e := events[..|events| - 1], events[|events| - 1];
      LifecycleSafe(r, front);
      if IsEnvironment(e) {
        EnvironmentKeeps(r, Run(r, START, front), e);
      } else {
        OperatorKeeps(r, Run(r, START, front), e);
      }
    }
  }

  /** Read off the log: an object that had the finalizer is gone only after a DROP that succeeded or a retain rule. */
  lemma GoneOnlyAfterDropOrRetain(r: Resource, events: seq<Event>, i: nat) returns (j: nat)
    requires var log := Run(r, START, events).log; i < |log| && log[i].Gone? && log[i].finalized
    ensures var log := Run(r, START, events).log;
      && j < i && log[j].Removed? && log[j].seen.uid == log[i].last.uid && log[j].seen.deleting
      && (log[j].reason.Dropped? ==>
        j > 0 && log[j - 1].Drop? && log[j - 1].answer.Applied? && log[j - 1].seen == log[j].seen)
      && (log[j].reason.Retained? ==> log[j].seen.policy != "delete" || r == Schema("public"))
      && (log[j].reason.Abandoned? ==> log[j].seen.policy == "abandon")
  {
    LifecycleSafe(r, events);
    var log := Run(r, START, events).log;
    assert EntryOk(r, log[..i], log[i]);
    j :| 0 <= j < |log[..i]| && log[..i][j].Removed? && log[..i][j].seen.uid == log[i].last.uid;
    assert EntryOk(r, log[..j], log[j]);
  }

  /** The operator never overwrites an edit: an object it changes is still the copy it fetched. */
  lemma EditsAreNotOverwritten(r: Resource, s: State, e: Event)
    requires !IsEnvironment(e) && OperatorStep(r, s, e).cr != s.cr
    ensures s.cr.Some? && (s.progress.Fetched? || s.progress.Cleared?) && s.cr.value == s.progress.seen
  {
  }

  // ---------- the reconcilers ----------

  /** Outcomes of one reconciliation. */
  datatype Outcomes = Outcomes(
    add: Write, useOk: bool, drop: Write, remove: Write, checkOk: bool, exists_: bool, create: Write,
    ownerDiffers: bool, alter: Write)

  function EventsOf(o: Outcomes): seq<Event> {
    [Fetch, AddFinalizer(o.add), Finalize(o.useOk, o.drop), RemoveFinalizer(o.remove),
     EnsureExists(o.useOk, o.checkOk, o.exists_, o.create), EnsureOwner(o.ownerDiffers, o.alter)]
  }

  lemma RunStep(r: Resource, s: State, events: seq<Event>, n: nat)
    requires n < |events|
    ensures Run(r, s, events[..n + 1]) == Step(r, Run(r, s, events[..n]), events[n])
  {
    assert events[..n + 1][..n] == events[..n];
  }

  lemma Unrolled(r: Resource, s: State, o: Outcomes)
    ensures var e := EventsOf(o);
      Run(r, s, e) == Step(r, Step(r, Step(r, Step(r, Step(r, Step(r, s, e[0]), e[1]), e[2]), e[3]), e[4]), e[5])
  {
    var e := EventsOf(o);
    forall n | 0 <= n < 6 { RunStep(r, s, e, n); }
    assert e[..6] == e && e[..0] == [];
  }

  /** A deleted object that has the finalizer, before a reconciliation. */
  predicate Releasable(s: State) {
    s.progress.Idle? && s.cr.Some? && !s.cr.value.paused && s.cr.value.finalizer && s.cr.value.deleting
  }

  /** Without its finalizer the object is gone, unless something else holds it. */
  function Released(s: State, reason: Reason): State
    requires s.cr.Some?
  {
    var seen := s.cr.value;
    var off := seen.(finalizer := false, version := seen.version + 1);
    var log := s.log + [Removed(reason, seen)];
    if seen.others then State(Some(off), s.finalized, s.uids, Idle, log)
    else State(None, false, s.uids, Idle, log + [Gone(off, s.finalized)])
  }

  /** Where the first three steps lead for a deleted object that is to be released. */
  lemma ClearingSteps(r: Resource, s: State, o: Outcomes)
    requires Releasable(s)
    ensures Step(r, Step(r, Step(r, s, Fetch), AddFinalizer(o.add)), Finalize(o.useOk, o.drop))
      == if s.cr.value.policy == "abandon" then s.(progress := Cleared(s.cr.value, Abandoned))
         else if s.cr.value.policy != "delete" || r == Schema("public")
           then s.(progress := Cleared(s.cr.value, Retained))
         else if r.Schema? && !o.useOk then s
         else s.(log := s.log + [Drop(s.cr.value, s.cr, o.drop)],
                 progress := if o.drop.Applied? then Cleared(s.cr.value, Dropped) else Idle)
  {
  }

  /** And the last three: the finalizer comes off, if the update lands. */
  lemma ReleasingSteps(r: Resource, s: State, o: Outcomes)
    requires s.progress.Cleared? && s.cr == Some(s.progress.seen) && s.cr.value.deleting
    ensures Step(r, Step(r, Step(r, s, Event.RemoveFinalizer(o.remove)),
          EnsureExists(o.useOk, o.checkOk, o.exists_, o.create)), EnsureOwner(o.ownerDiffers, o.alter))
      == if o.remove.Rejected? then s.(progress := Idle) else Released(s, s.progress.reason)
  {
  }

  /** Deletion completes: one undisturbed reconciliation drops and releases. */
  lemma DeletionCompletes(r: Resource, s: State, o: Outcomes)
    requires Releasable(s) && s.cr.value.policy == "delete" && r != Schema("public")
    requires (r.Schema? ==> o.useOk) && o.drop.Applied? && Takes(o.remove)
    ensures Run(r, s, EventsOf(o)) == Released(s.(log := s.log + [Drop(s.cr.value, s.cr, Applied)]), Dropped)
  {
    Unrolled(r, s, o);
    ClearingSteps(r, s, o);
    ReleasingSteps(r, s.(log := s.log + [Drop(s.cr.value, s.cr, o.drop)], progress := Cleared(s.cr.value, Dropped)), o);
  }

  /** So does retention, without a DROP: for any policy but `delete` and `abandon`, and for the schema `public`. */
  lemma RetentionCompletes(r: Resource, s: State, o: Outcomes)
    requires Releasable(s) && s.cr.value.policy != "abandon" && Takes(o.remove)
    requires s.cr.value.policy != "delete" || r == Schema("public")
    ensures Run(r, s, EventsOf(o)) == Released(s, Retained)
  {
    Unrolled(r, s, o);
    ClearingSteps(r, s, o);
    ReleasingSteps(r, s.(progress := Cleared(s.cr.value, Retained)), o);
  }

  /** And abandoning. */
  lemma AbandonmentCompletes(r: Resource, s: State, o: Outcomes)
    requires Releasable(s) && s.cr.value.policy == "abandon" && Takes(o.remove)
    ensures Run(r, s, EventsOf(o)) == Released(s, Abandoned)
  {
    Unrolled(r, s, o);
    ClearingSteps(r, s, o);
    ReleasingSteps(r, s.(progress := Cleared(s.cr.value, Abandoned)), o);
  }

  /** The policy asks for a DROP. */
  predicate Drops(r: Resource, seen: Object) {
    seen.policy == "delete" && r != Schema("public")
  }

  /** A USE or DROP that failed leaves the object for another try. */
  lemma FailedDropKeeps(r: Resource, s: State, o: Outcomes)
    requires Releasable(s) && Drops(r, s.cr.value) && ((r.Schema? && !o.useOk) || !o.drop.Applied?)
    ensures Run(r, s, EventsOf(o))
      == if r.Schema? && !o.useOk then s else s.(log := s.log + [Drop(s.cr.value, s.cr, o.drop)])
  {
    Unrolled(r, s, o);
  }

  /** So does a refused update. */
  lemma RefusedReleaseKeeps(r: Resource, s: State, o: Outcomes)
    requires Releasable(s) && o.remove.Rejected?
    requires Drops(r, s.cr.value) ==> (r.Schema? ==> o.useOk) && o.drop.Applied?
    ensures Run(r, s, EventsOf(o))
      == if Drops(r, s.cr.value) then s.(log := s.log + [Drop(s.cr.value, s.cr, Applied)]) else s
  {
    Unrolled(r, s, o);
  }

  /**
   When a deleted object keeps its finalizer: if and only if a DROP was asked for and it or the USE before it failed,
   or the update that takes the finalizer off was refused.
   */
  lemma KeptExactly(r: Resource, s: State, o: Outcomes)
    requires Releasable(s)
    ensures var after := Run(r, s, EventsOf(o));
      after.cr.Some? && after.cr.value.finalizer <==>
        (Drops(r, s.cr.value) && ((r.Schema? && !o.useOk) || !o.drop.Applied?)) || o.remove.Rejected?
  {
    if Drops(r, s.cr.value) && ((r.Schema? && !o.useOk) || !o.drop.Applied?) {
      FailedDropKeeps(r, s, o);
    } else if o.remove.Rejected? {
      RefusedReleaseKeeps(r, s, o);
    } else if Drops(r, s.cr.value) {
      DeletionCompletes(r, s, o);
    } else if s.cr.value.policy == "abandon" {
      AbandonmentCompletes(r, s, o);
    } else {
      RetentionCompletes(r, s, o);
    }
  }

  /** Nothing happens to an absent or paused object, nor to a deleted one without the finalizer. */
  lemma NothingToDo(r: Resource, s: State, o: Outcomes)
    requires s.progress.Idle?
    requires s.cr.None? || s.cr.value.paused || (s.cr.value.deleting && !s.cr.value.finalizer)
    ensures Run(r, s, EventsOf(o)) == s
  {
    Unrolled(r, s, o);
  }

  /** What is sent for an object that is ready: CREATE if it is missing, then ALTER if its owner differs. */
  function SentForReady(r: Resource, kept: Object, now: Option<Object>, o: Outcomes): seq<Entry> {
    if (r.Schema? && !o.useOk) || !o.checkOk then []
    else
      (if o.exists_ then [] else [Create(kept, now)])
      + if (o.exists_ || o.create.Applied?) && o.ownerDiffers then [Alter(kept, now)] else []
  }

  /** The last two steps. */
  lemma ReadySteps(r: Resource, s: State, o: Outcomes)
    requires s.progress.Ready?
    ensures Step(r, Step(r, s, EnsureExists(o.useOk, o.checkOk, o.exists_, o.create)),
      EnsureOwner(o.ownerDiffers, o.alter))
      == s.(log := s.log + SentForReady(r, s.progress.seen, s.cr, o), progress := Idle)
  {
    assert s.log + [] == s.log;
  }

  /** Where the first four steps lead for an object that is not being deleted. */
  function Persisted(s: State, o: Outcomes): State
    requires s.cr.Some?
  {
    var seen := s.cr.value;
    var kept := seen.(finalizer := true);
    if seen.finalizer then s.(progress := Ready(kept))
    else if o.add.Rejected? then s.(progress := Idle)
    else s.(cr := Some(kept.(version := seen.version + 1)), finalized := true,
            progress := if o.add.Applied? then Ready(kept) else Idle)
  }

  lemma PersistingSteps(r: Resource, s: State, o: Outcomes)
    requires s.progress.Idle? && s.cr.Some? && !s.cr.value.paused && !s.cr.value.deleting
    ensures Step(r, Step(r, Step(r, Step(r, s, Fetch), AddFinalizer(o.add)), Finalize(o.useOk, o.drop)),
        Event.RemoveFinalizer(o.remove))
      == Persisted(s, o)
  {
  }

  /**
   One reconciliation of an object that is not being deleted, with any outcomes: the finalizer is persisted first,
   and only a copy that has it is created or altered.
   */
  lemma CreationExactly(r: Resource, s: State, o: Outcomes)
    requires s.progress.Idle? && s.cr.Some? && !s.cr.value.paused && !s.cr.value.deleting
    ensures var seen := s.cr.value; var kept := seen.(finalizer := true);
      var persisted := Some(kept.(version := seen.version + 1));
      Run(r, s, EventsOf(o)) ==
        if seen.finalizer then s.(log := s.log + SentForReady(r, kept, s.cr, o))
        else if o.add.Rejected? then s
        else s.(cr := persisted, finalized := true,
                log := s.log + if o.add.Applied? then SentForReady(r, kept, persisted, o) else [])
  {
    Unrolled(r, s, o);
    PersistingSteps(r, s, o);
    if Persisted(s, o).progress.Ready? {
      ReadySteps(r, Persisted(s, o), o);
    } else {
      assert s.log + [] == s.log;
    }
  }

  /** Creation completes: one undisturbed reconciliation of a new object sets the finalizer, then creates. */
  lemma CreationCompletes(r: Resource, s: State, o: Outcomes)
    requires s.progress.Idle? && s.cr.Some? && !s.cr.value.paused && !s.cr.value.finalizer && !s.cr.value.deleting
    requires o.add.Applied? && o.useOk && o.checkOk && !o.exists_ && o.create.Applied? && !o.ownerDiffers
    ensures var kept := s.cr.value.(finalizer := true);
      Run(r, s, EventsOf(o)) == State(Some(Bump(kept)), true, s.uids, Idle, s.log + [Create(kept, Some(Bump(kept)))])
  {
    CreationExactly(r, s, o);
  }

  /** The API server's object and the record of what was sent, as the reconcilers change them. */
  class Controller {
    const resource: Resource
    var cr: Option<Object>
    var finalized: bool
    var uids: nat
    var log: seq<Entry>

    constructor (resource: Resource)
      ensures this.resource == resource && Between() == START
    {
      this.resource := resource;
      cr, finalized, uids, log := None, false, 0, [];
    }

    /** The state between two reconciliations. */
    function Between(): State
      reads this
    {
      State(cr, finalized, uids, Idle, log)
    }

    /** client.Update of a changed copy: refused when the object has moved on. */
    method Update(seen: Object, changed: Object, write: Write) returns (landed: bool)
      modifies this
      ensures landed == (Takes(write) && old(cr) == Some(seen))
      ensures cr == if landed then Some(Bump(changed)) else old(cr)
      ensures finalized == old(finalized) && uids == old(uids) && log == old(log)
    {
      landed := Takes(write) && cr == Some(seen);
      if landed { cr := Some(Bump(changed)); }
    }

    /** Drops the object when nothing holds it any more. */
    method Collect()
      modifies this
      ensures Between() == Settle(old(Between()))
    {
      if cr.Some? && cr.value.deleting && !cr.value.finalizer && !cr.value.others {
        log := log + [Gone(cr.value, finalized)];
        cr, finalized := None, false;
      }
    }

    method RemoveFinalizer(seen: Object, reason: Reason, write: Write)
      modifies this
      ensures Between()
        == OperatorStep(resource, old(Between()).(progress := Cleared(seen, reason)), Event.RemoveFinalizer(write))
    {
      var landed := Update(seen, seen.(finalizer := false), write);
      if landed {
        log := log + [Removed(reason, seen)];
        Collect();
      }
    }

    /** finalizeRisingWaveDatabase and finalizeRisingWaveSchema */
    method RunFinalization(seen: Object, useOk: bool, drop: Write) returns (done: Option<Reason>)
      modifies this
      ensures FinalizeStep(resource, old(Between()), seen, useOk, drop)
        == Between().(progress := if done.Some? then Cleared(seen, done.value) else Idle)
    {
      if seen.policy != "delete" { return Some(Retained); }
      if resource.Schema? {
        if resource.name == "public" { return Some(Retained); }
        if !useOk { return None; }
      }
      log := log + [Drop(seen, cr, drop)];
      done := if drop.Applied? then Some(Dropped) else None;
    }

    /** HandleFinalizer; `ready` is the copy to go on with, if reconciliation should go on. */
    method HandleFinalizer(seen: Object, o: Outcomes) returns (ready: Option<Object>)
      modifies this
      ensures var s := old(Between()).(progress := Fetched(seen));
        OperatorStep(resource,
          OperatorStep(resource, OperatorStep(resource, s, AddFinalizer(o.add)), Finalize(o.useOk, o.drop)),
                     Event.RemoveFinalizer(o.remove))
        == Between().(progress := if ready.Some? then Ready(ready.value) else Idle)
    {
      if !seen.deleting {
        if !seen.finalizer {
          var landed := Update(seen, seen.(finalizer := true), o.add);
          if landed { finalized := true; }
          if !landed || !o.add.Applied? { return None; }
        }
        return Some(seen.(finalizer := true));
      }
      if !seen.finalizer { return None; }
      if seen.policy == "abandon" {
        RemoveFinalizer(seen, Abandoned, o.remove);
        return None;
      }
      var done := RunFinalization(seen, o.useOk, o.drop);
      if done.Some? {
        RemoveFinalizer(seen, done.value, o.remove);
      }
      return None;
    }

    /** Reconcile, for both kinds of resource; a reconciliation is its events in order. */
    method Reconcile(o: Outcomes)
      modifies this
      ensures Between() == Run(resource, old(Between()), EventsOf(o))
    {
      Unrolled(resource, Between(), o);
      if cr.None? || cr.value.paused { return; }
      var ready := HandleFinalizer(cr.value, o);
      if ready.None? { return; }
      if resource.Schema? && !o.useOk { return; }
      if !o.checkOk { return; }
      if !o.exists_ {
        log := log + [Create(ready.value, cr)];
        if !o.create.Applied? { return; }
      }
      if o.ownerDiffers {
        log := log + [Alter(ready.value, cr)];
      }
    }
  }
}
