/**
 * Any sequence of calls on one coordinator. Two facts hold of every such
 * run: the handle the coordinator holds always agrees with what it has told
 * the driver (it never begins a second transaction while it holds one, it
 * commits and rolls back only the handle it holds, and it holds a handle
 * exactly when the last transaction it began has not been committed or
 * rolled back successfully); and the registry answers with the most recent
 * Register or UnRegister of each name, whatever lifecycle calls came between.
 */
module Session {
  import opened UowSpec

  /** One call on the coordinator, with the answers of its collaborators. */
  datatype Op =
    | RegisterOp(name: string, f: Factory)
    | UnRegisterOp(name: string)
    | DoOp(begin: BeginReply, work: Option<Error>, commit: Reply, rollback: Reply)
    | RollbackOp(reply: Reply)
    | CommitOrRollbackOp(commit: Reply, rollback: Reply)

  /** `CommitOrRollback` on an Idle coordinator dereferences a nil handle: the program panics. */
  predicate Panics(s: State, op: Op)
  {
    op.CommitOrRollbackOp? && Idle(s)
  }

  function Apply(s: State, op: Op): Step
    requires !Panics(s, op)
  {
    match op
    case RegisterOp(name, f) => Step(Register(s, name, f), None, [])
    case UnRegisterOp(name) => Step(UnRegister(s, name), None, [])
    case DoOp(begin, work, commit, rollback) => Do(s, begin, work, commit, rollback)
    case RollbackOp(reply) => Rollback(s, reply)
    case CommitOrRollbackOp(commit, rollback) => CommitOrRollback(s, commit, rollback)
  }

  /** Where a run ends: the state, every collaborator call, and how many operations ran. */
  datatype Run = Run(state: State, events: seq<Event>, executed: nat)

  /** Runs ops in order; a panic stops the run before the operation that causes it. */
  function Exec(s: State, ops: seq<Op>): (r: Run)
    ensures r.executed <= |ops|
    ensures r.executed < |ops| ==> Panics(r.state, ops[r.executed])
    decreases |ops|
  {
    if ops == [] || Panics(s, ops[0]) then Run(s, [], 0)
    else
      var st := Apply(s, ops[0]);
      var rest := Exec(st.state, ops[1..]);
      Run(rest.state, st.events + rest.events, rest.executed + 1)
  }

  // ---------------------------------------------------------------------
  // The driver's view of the transaction, replayed from the calls made
  // ---------------------------------------------------------------------

  /** Whether a call is one the coordinator may make while holding open. */
  predicate Allowed(open: Option<TxId>, e: Event)
  {
    match e
    case BeginCall(_) => open.None?
    case FnCall(_) => open.Some?
    case CommitCall(t, _) => open == Some(t)
    case RollbackCall(t, _) => open == Some(t)
  }

  /** The transaction left open after a call: begun, and not yet successfully finished. */
  function Next(open: Option<TxId>, e: Event): Option<TxId>
  {
    match e
    case BeginCall(Began(t)) => Some(t)
    case CommitCall(_, Done) => None
    case RollbackCall(_, Done) => None
    case _ => open
  }

  function Replay(open: Option<TxId>, events: seq<Event>): Option<TxId>
    decreases |events|
  {
    if events == [] then open else Replay(Next(open, events[0]), events[1..])
  }

  predicate Coherent(open: Option<TxId>, events: seq<Event>)
    decreases |events|
  {
    events == [] || (Allowed(open, events[0]) && Coherent(Next(open, events[0]), events[1..]))
  }

  lemma {:induction false} ReplayAppend(open: Option<TxId>, a: seq<Event>, b: seq<Event>)
    ensures Coherent(open, a + b) <==> Coherent(open, a) && Coherent(Replay(open, a), b)
    ensures Replay(open, a + b) == Replay(Replay(open, a), b)
    decreases |a|
  {
    if a == [] {
      assert a + b == b;
    } else {
      assert (a + b)[0] == a[0] && (a + b)[1..] == a[1..] + b;
      ReplayAppend(Next(open, a[0]), a[1..], b);
    }
  }

  /** Replaying a call followed by others. */
  lemma ReplayCons(open: Option<TxId>, e: Event, tail: seq<Event>)
    ensures Coherent(open, [e] + tail) <==> Allowed(open, e) && Coherent(Next(open, e), tail)
    ensures Replay(open, [e] + tail) == Replay(Next(open, e), tail)
  {
  }

  /** The calls of `Rollback` fit the handle it holds, and leave it as the driver sees it. */
  lemma RollbackCoherent(s: State, reply: Reply)
    ensures Coherent(s.tx, Rollback(s, reply).events)
    ensures Replay(s.tx, Rollback(s, reply).events) == Rollback(s, reply).state.tx
  {
  }

  lemma CommitOrRollbackCoherent(s: State, commit: Reply, rollback: Reply)
    requires !Idle(s)
    ensures Coherent(s.tx, CommitOrRollback(s, commit, rollback).events)
    ensures Replay(s.tx, CommitOrRollback(s, commit, rollback).events) ==
            CommitOrRollback(s, commit, rollback).state.tx
  {
    var r := CommitOrRollback(s, commit, rollback);
    var c := CommitCall(s.tx.value, commit);
    assert r.events == [c] + r.events[1..];
    ReplayCons(s.tx, c, r.events[1..]);
    if commit.Failed? {
      RollbackCoherent(s, rollback);
    }
  }

  lemma DoCoherent(s: State, begin: BeginReply, work: Option<Error>, commit: Reply, rollback: Reply)
    ensures Coherent(s.tx, Do(s, begin, work, commit, rollback).events)
    ensures Replay(s.tx, Do(s, begin, work, commit, rollback).events) ==
            Do(s, begin, work, commit, rollback).state.tx
  {
    var r := Do(s, begin, work, commit, rollback);
    if Idle(s) {
      ReplayCons(s.tx, BeginCall(begin), []);
      assert [BeginCall(begin)] + [] == [BeginCall(begin)];
      if begin.Began? {
        var active := s.(tx := Some(begin.tx));
        var tail := if work.Some? then Rollback(active, rollback).events
                    else CommitOrRollback(active, commit, rollback).events;
        assert r.events == [BeginCall(begin)] + ([FnCall(work)] + tail);
        ReplayCons(s.tx, BeginCall(begin), [FnCall(work)] + tail);
        ReplayCons(active.tx, FnCall(work), tail);
        if work.Some? {
          RollbackCoherent(active, rollback);
        } else {
          CommitOrRollbackCoherent(active, commit, rollback);
        }
      }
    }
  }

  lemma StepCoherent(s: State, op: Op)
    requires !Panics(s, op)
    ensures Coherent(s.tx, Apply(s, op).events)
    ensures Replay(s.tx, Apply(s, op).events) == Apply(s, op).state.tx
  {
    match op
    case RegisterOp(_, _) =>
    case UnRegisterOp(_) =>
    case DoOp(begin, work, commit, rollback) => DoCoherent(s, begin, work, commit, rollback);
    case RollbackOp(reply) => RollbackCoherent(s, reply);
    case CommitOrRollbackOp(commit, rollback) => CommitOrRollbackCoherent(s, commit, rollback);
  }

  /**
   * Over any run, the coordinator's calls fit the handle it holds at each
   * point, and the handle it ends with is the transaction it began and has
   * not yet committed or rolled back successfully. From `NewUow` (Idle) this
   * means no nested transaction is ever begun.
   */
  lemma {:induction false} SessionCoherent(s: State, ops: seq<Op>)
    ensures Coherent(s.tx, Exec(s, ops).events)
    ensures Replay(s.tx, Exec(s, ops).events) == Exec(s, ops).state.tx
    decreases |ops|
  {
    if ops != [] && !Panics(s, ops[0]) {
      var st := Apply(s, ops[0]);
      StepCoherent(s, ops[0]);
      SessionCoherent(st.state, ops[1..]);
      ReplayAppend(s.tx, st.events, Exec(st.state, ops[1..]).events);
    }
  }

  /**
   * A rollback that fails inside `Do` leaves the handle set, so the
   * coordinator stays Active: every later `Do` is refused until a `Rollback`
   * or a `CommitOrRollback` clears the handle. A `Rollback` does so exactly
   * when it succeeds; a `CommitOrRollback` unless both its commit and its
   * rollback fail. With database/sql a rollback after a failed commit
   * usually fails (the transaction is already done), so a failed commit
   * usually ends here too.
   */
  lemma FailedRollbackWedges(s: State, t: TxId, work: Option<Error>, commit: Reply, rollback: Reply)
    requires Idle(s) && (work.Some? || commit.Failed?) && rollback.Failed?
    ensures var w := Do(s, Began(t), work, commit, rollback).state;
            && w.tx == Some(t)
            && (forall begin, work', commit', rollback' ::
                  Do(w, begin, work', commit', rollback') == Step(w, Some(AlreadyStarted), []))
            && (forall reply :: Idle(Rollback(w, reply).state) <==> reply.Done?)
            && (forall c, rb :: Idle(CommitOrRollback(w, c, rb).state) <==> !(c.Failed? && rb.Failed?))
  {
  }

  // ---------------------------------------------------------------------
  // The registry: the most recent write of a name decides
  // ---------------------------------------------------------------------

  /** The factory under name after ops, given the one before: the last Register or UnRegister of name wins. */
  function LastWrite(initial: Option<Factory>, ops: seq<Op>, name: string): Option<Factory>
    decreases |ops|
  {
    if ops == [] then initial
    else
      var earlier := ops[..|ops| - 1];
      match ops[|ops| - 1]
      case RegisterOp(n, f) => if n == name then Some(f) else LastWrite(initial, earlier, name)
      case UnRegisterOp(n) => if n == name then None else LastWrite(initial, earlier, name)
      case _ => LastWrite(initial, earlier, name)
  }

  lemma {:induction false} LastWriteCons(initial: Option<Factory>, op: Op, ops: seq<Op>, name: string)
    ensures LastWrite(initial, [op] + ops, name) == LastWrite(LastWrite(initial, [op], name), ops, name)
    decreases |ops|
  {
    if ops == [] {
      assert [op] + ops == [op];
    } else {
      var whole := [op] + ops;
      assert whole[|whole| - 1] == ops[|ops| - 1];
      assert whole[..|whole| - 1] == [op] + ops[..|ops| - 1];
      LastWriteCons(initial, op, ops[..|ops| - 1], name);
    }
  }

  /** One operation moves the registry entry of name as LastWrite says. */
  lemma StepRegistry(s: State, op: Op, name: string)
    requires !Panics(s, op)
    ensures Lookup(Apply(s, op).state, name) == LastWrite(Lookup(s, name), [op], name)
  {
  }

  /**
   * After any run, the factory under name is the one its most recent
   * executed Register put there, absent if an UnRegister came later, and as
   * before the run if neither was called on it.
   */
  lemma {:induction false} RegistryLastWriteWins(s: State, ops: seq<Op>, name: string)
    ensures Lookup(Exec(s, ops).state, name) ==
            LastWrite(Lookup(s, name), ops[..Exec(s, ops).executed], name)
    decreases |ops|
  {
    if ops == [] || Panics(s, ops[0]) {
      assert ops[..0] == [];
    } else {
      var st := Apply(s, ops[0]);
      var rest := Exec(st.state, ops[1..]);
      RegistryLastWriteWins(st.state, ops[1..], name);
      assert ops[..rest.executed + 1] == [ops[0]] + ops[1..][..rest.executed];
      LastWriteCons(Lookup(s, name), ops[0], ops[1..][..rest.executed], name);
      StepRegistry(s, ops[0], name);
    }
  }
}
