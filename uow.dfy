/**
 * The `Uow` struct of pkg/uow/uow.go as a class whose methods update its two
 * fields in place, as the Go methods do through their pointer receiver.
 * Each answer of the database driver, and the result of the caller's
 * unit-of-work function, is a parameter; each lifecycle method also returns
 * the calls it made to those collaborators, in order.
 */
module UnitOfWork {
  import opened UowSpec

  class Uow {
    var tx: Option<TxId>
    var repositories: map<string, Factory>

    /** The fields as a value, so that UowSpec can speak about them. */
    function Snapshot(): State
      reads this
    {
      State(tx, repositories)
    }

    /** `NewUow`: Idle, with an empty registry. */
    constructor ()
      ensures Idle(Snapshot()) && repositories == map[]
    {
      tx := None;
      repositories := map[];
    }

    method Register(name: string, f: Factory)
      modifies this
      ensures Snapshot() == UowSpec.Register(old(Snapshot()), name, f)
    {
      repositories := repositories[name := f];
    }

    method UnRegister(name: string)
      modifies this
      ensures Snapshot() == UowSpec.UnRegister(old(Snapshot()), name)
    {
      repositories := repositories - {name};
    }

    method Rollback(reply: Reply) returns (err: Option<Error>, events: seq<Event>)
      modifies this
      ensures Step(Snapshot(), err, events) == UowSpec.Rollback(old(Snapshot()), reply)
    {
      if tx.None? {
        return Some(NoTransaction), [];
      }
      events := [RollbackCall(tx.value, reply)];
      if reply.Failed? {
        return Some(Driver(reply.cause)), events;
      }
      tx := None;
      err := None;
    }

    method CommitOrRollback(commit: Reply, rollback: Reply) returns (err: Option<Error>, events: seq<Event>)
      requires !Idle(Snapshot())
      modifies this
      ensures Step(Snapshot(), err, events) == UowSpec.CommitOrRollback(old(Snapshot()), commit, rollback)
    {
      events := [CommitCall(tx.value, commit)];
      if commit.Failed? {
        var errRb, rbEvents := Rollback(rollback);
        events := events + rbEvents;
        if errRb.Some? {
          return Some(Combined(errRb.value, Driver(commit.cause))), events;
        }
        return Some(Driver(commit.cause)), events;
      }
      tx := None;
      err := None;
    }

    method Do(begin: BeginReply, work: Option<Error>, commit: Reply, rollback: Reply)
      returns (err: Option<Error>, events: seq<Event>)
      modifies this
      ensures Step(Snapshot(), err, events) == UowSpec.Do(old(Snapshot()), begin, work, commit, rollback)
    {
      if tx.Some? {
        return Some(AlreadyStarted), [];
      }
      events := [BeginCall(begin)];
      if begin.BeginFailed? {
        return Some(Driver(begin.cause)), events;
      }
      tx := Some(begin.tx);
      // fn(u) runs here; its result is `work`
      events := events + [FnCall(work)];
      if work.Some? {
        var errRb, rbEvents := Rollback(rollback);
        events := events + rbEvents;
        if errRb.Some? {
          return Some(Combined(errRb.value, work.value)), events;
        }
        return work, events;
      }
      var cEvents;
      err, cEvents := CommitOrRollback(commit, rollback);
      events := events + cEvents;
    }
  }

  /**
   * Two sample units of work against a registered "users" repository: one
   * that succeeds, and one that fails after its write.
   */
  method ScenarioUsers(makeUserRepo: Factory, appError: string)
  {
    var u := new Uow();
    u.Register("users", makeUserRepo);
    var err, events := u.Do(Began(1), None, Done, Done);
    assert err == None && Idle(u.Snapshot());
    assert events == [BeginCall(Began(1)), FnCall(None), CommitCall(1, Done)];
    assert Lookup(u.Snapshot(), "users") == Some(makeUserRepo);

    err, events := u.Do(Began(2), Some(App(appError)), Done, Done);
    assert err == Some(App(appError)) && Idle(u.Snapshot());
    assert Attempts(events, CommitKind) == 0 && Attempts(events, RollbackKind) == 1;
  }
}
