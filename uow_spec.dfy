/**
 * The unit-of-work coordinator of pkg/uow/uow.go as values: its state, the
 * errors it returns, the replies of the database driver it talks to, and one
 * pure transition function per operation. The class in uow.dfy is proved
 * against these functions; the lemmas in session.dfy are about them.
 */
module UowSpec {

  datatype Option<+T> = None | Some(value: T)

  /** Identity of a `*sql.Tx` handle; nothing else about a handle matters here. */
  type TxId = nat

  /** Opaque stand-in for a RepositoryFactory closure; the coordinator only stores it. */
  datatype Factory = Factory(tag: nat)

  /** Every error the coordinator can return. */
  datatype Error =
    | AlreadyStarted                              // "transaction already started"
    | NoTransaction                               // "no transaction started"
    | Driver(cause: string)                       // an error of database/sql, passed on verbatim
    | App(message: string)                        // an error made by the caller's unit-of-work function
    | Combined(rollback: Error, original: Error)  // "rollback error: ..., original error: ..."

  /** What `Tx.Commit` or `Tx.Rollback` answers. */
  datatype Reply = Done | Failed(cause: string)

  /** What `DB.BeginTx` answers. */
  datatype BeginReply = Began(tx: TxId) | BeginFailed(cause: string)

  /** One call the coordinator makes to a collaborator, with the answer it got. */
  datatype Event =
    | BeginCall(begin: BeginReply)           // DB.BeginTx
    | FnCall(result: Option<Error>)          // the unit-of-work function fn
    | CommitCall(tx: TxId, reply: Reply)     // Tx.Commit on handle tx
    | RollbackCall(tx: TxId, reply: Reply)   // Tx.Rollback on handle tx

  datatype Kind = BeginKind | FnKind | CommitKind | RollbackKind

  function KindOf(e: Event): Kind
  {
    match e
    case BeginCall(_) => BeginKind
    case FnCall(_) => FnKind
    case CommitCall(_, _) => CommitKind
    case RollbackCall(_, _) => RollbackKind
  }

  /** How many calls of kind k a sequence of events holds. */
  function Attempts(events: seq<Event>, k: Kind): nat
  {
    if events == [] then 0
    else (if KindOf(events[0]) == k then 1 else 0) + Attempts(events[1..], k)
  }

  /** Counting a sequence that starts with e. */
  lemma AttemptsCons(e: Event, tail: seq<Event>, k: Kind)
    ensures Attempts([e] + tail, k) == (if KindOf(e) == k then 1 else 0) + Attempts(tail, k)
  {
  }

  /** The fields of `Uow` that its methods read and write (`DB` is the driver, see Reply). */
  datatype State = State(tx: Option<TxId>, repositories: map<string, Factory>)

  /** What one call of a lifecycle operation produces. */
  datatype Step = Step(state: State, err: Option<Error>, events: seq<Event>)

  predicate Idle(s: State)
  {
    s.tx.None?
  }

  /** The factory registered under name, if any. */
  function Lookup(s: State, name: string): Option<Factory>
  {
    if name in s.repositories then Some(s.repositories[name]) else None
  }

  /** `Register`: last write wins; no other name and not the transaction is touched. */
  function Register(s: State, name: string, f: Factory): (r: State)
    ensures Lookup(r, name) == Some(f)
    ensures forall n :: n != name ==> Lookup(r, n) == Lookup(s, n)
    ensures r.tx == s.tx
  {
    s.(repositories := s.repositories[name := f])
  }

  /** `UnRegister`: removes name, a no-op when it is absent; nothing else is touched. */
  function UnRegister(s: State, name: string): (r: State)
    ensures Lookup(r, name) == None
    ensures forall n :: n != name ==> Lookup(r, n) == Lookup(s, n)
    ensures r.tx == s.tx
    ensures name !in s.repositories ==> r == s
  {
    s.(repositories := s.repositories - {name})
  }

  /** `Rollback`: the handle is cleared exactly when the driver's rollback succeeds. */
  function Rollback(s: State, reply: Reply): (r: Step)
    ensures r.state.repositories == s.repositories
    ensures Idle(s) ==> r == Step(s, Some(NoTransaction), [])
    ensures !Idle(s) ==> r.events == [RollbackCall(s.tx.value, reply)]
    ensures forall k :: Attempts(r.events, k) == if k == RollbackKind && !Idle(s) then 1 else 0
    ensures r.err == None <==> !Idle(s) && reply.Done?
    ensures !Idle(s) && reply.Failed? ==> r.err == Some(Driver(reply.cause))
    ensures r.state.tx == if r.err == None then None else s.tx
  {
    match s.tx
    case None => Step(s, Some(NoTransaction), [])
    case Some(t) =>
      var events := [RollbackCall(t, reply)];
      assert events[1..] == [];
      match reply
      case Failed(cause) => Step(s, Some(Driver(cause)), events)
      case Done => Step(s.(tx := None), None, events)
  }

  /**
   * `CommitOrRollback`: commit first; only a failed commit is followed by a
   * rollback, and only a failed rollback leaves the handle set. The source
   * dereferences the handle unchecked, hence the precondition.
   */
  function CommitOrRollback(s: State, commit: Reply, rollback: Reply): (r: Step)
    requires !Idle(s)
    ensures r.state.repositories == s.repositories
    // one commit, first; a rollback after it exactly when the commit failed
    ensures r.events != [] && r.events[0] == CommitCall(s.tx.value, commit)
    ensures forall k :: Attempts(r.events, k) ==
              if k == CommitKind || (k == RollbackKind && commit.Failed?) then 1 else 0
    ensures commit.Failed? ==> r.events[1..] == [RollbackCall(s.tx.value, rollback)]
    ensures r.err == None <==> commit.Done?
    ensures commit.Failed? && rollback.Done? ==> r.err == Some(Driver(commit.cause))
    ensures commit.Failed? && rollback.Failed? ==>
              r.err == Some(Combined(Driver(rollback.cause), Driver(commit.cause)))
    ensures r.state.tx == if commit.Failed? && rollback.Failed? then s.tx else None
  {
    var t := s.tx.value;
    var tail := if commit.Done? then [] else Rollback(s, rollback).events;
    forall k ensures Attempts([CommitCall(t, commit)] + tail, k) ==
                     (if k == CommitKind then 1 else 0) + Attempts(tail, k) {
      AttemptsCons(CommitCall(t, commit), tail, k);
    }
    match commit
    case Done => Step(s.(tx := None), None, [CommitCall(t, commit)] + tail)
    case Failed(cause) =>
      var rb := Rollback(s, rollback);
      var err := match rb.err
                 case Some(errRb) => Combined(errRb, Driver(cause))
                 case None => Driver(cause);
      Step(rb.state, Some(err), [CommitCall(t, commit)] + tail)
  }

  /** The handle `Do` leaves behind when it starts from an Idle state. */
  function DoTx(begin: BeginReply, work: Option<Error>, commit: Reply, rollback: Reply): Option<TxId>
  {
    if begin.BeginFailed? then None
    else if (work.Some? || commit.Failed?) && rollback.Failed? then Some(begin.tx)
    else None
  }

  /**
   * `Do`, with the answers of the driver and the result `work` of the
   * unit-of-work function as parameters. The function is assumed to leave
   * the coordinator's handle alone.
   */
  function Do(s: State, begin: BeginReply, work: Option<Error>, commit: Reply, rollback: Reply): (r: Step)
    // the registry is never touched
    ensures r.state.repositories == s.repositories
    // already Active: refused before anything is called, the handle kept
    ensures !Idle(s) ==> r == Step(s, Some(AlreadyStarted), [])
    // BeginTx fails: its error verbatim, still Idle, fn not invoked
    ensures Idle(s) && begin.BeginFailed? ==>
              r == Step(s, Some(Driver(begin.cause)), [BeginCall(begin)])
    // in order: begin, then fn, then the calls of Rollback (fn failed) or of CommitOrRollback (fn succeeded)
    ensures Idle(s) && begin.Began? ==>
              |r.events| >= 2 && r.events[0] == BeginCall(begin) && r.events[1] == FnCall(work) &&
              r.events[2..] == if work.Some? then Rollback(s.(tx := Some(begin.tx)), rollback).events
                               else CommitOrRollback(s.(tx := Some(begin.tx)), commit, rollback).events
    // fn runs exactly when a transaction was begun
    ensures Attempts(r.events, FnKind) == (if Idle(s) && begin.Began? then 1 else 0)
    // at most one call of each kind
    ensures forall k :: Attempts(r.events, k) <= 1
    // commit only on the success path of fn
    ensures Attempts(r.events, CommitKind) == 1 <==> Idle(s) && begin.Began? && work.None?
    // a rollback exactly when fn or the commit failed
    ensures Attempts(r.events, RollbackKind) == 1 <==>
              Idle(s) && begin.Began? && (work.Some? || commit.Failed?)
    // fn fails: no commit; its error survives the rollback, alone or combined
    ensures Idle(s) && begin.Began? && work.Some? ==>
              r.err == (if rollback.Done? then work
                        else Some(Combined(Driver(rollback.cause), work.value)))
    // fn succeeds: exactly what CommitOrRollback gives on the new handle
    ensures Idle(s) && begin.Began? && work.None? ==>
              r.state == CommitOrRollback(s.(tx := Some(begin.tx)), commit, rollback).state &&
              r.err == CommitOrRollback(s.(tx := Some(begin.tx)), commit, rollback).err
    // success exactly when every step succeeded, and then Idle
    ensures r.err == None <==> Idle(s) && begin.Began? && work.None? && commit.Done?
    ensures r.err == None ==> Idle(r.state)
    // the handle is left set only by a failed rollback
    ensures r.state.tx == if !Idle(s) then s.tx else DoTx(begin, work, commit, rollback)
  {
    if !Idle(s) then Step(s, Some(AlreadyStarted), [])
    else
      match begin
      case BeginFailed(cause) => Step(s, Some(Driver(cause)), [BeginCall(begin)])
      case Began(t) =>
        var active := s.(tx := Some(t));
        var tail := if work.Some? then Rollback(active, rollback).events
                    else CommitOrRollback(active, commit, rollback).events;
        var events := [BeginCall(begin)] + ([FnCall(work)] + tail);
        forall k ensures Attempts(events, k) ==
                         (if k == BeginKind then 1 else 0) + (if k == FnKind then 1 else 0) + Attempts(tail, k) {
          AttemptsCons(BeginCall(begin), [FnCall(work)] + tail, k);
          AttemptsCons(FnCall(work), tail, k);
        }
        match work
        case Some(e) =>
          var rb := Rollback(active, rollback);
          var err := match rb.err
                     case Some(errRb) => Combined(errRb, e)
                     case None => e;
          Step(rb.state, Some(err), events)
        case None =>
          var cr := CommitOrRollback(active, commit, rollback);
          Step(cr.state, cr.err, events)
  }
}
