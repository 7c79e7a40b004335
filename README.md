# go-uow: a verified model of the Unit-of-Work coordinator

This project models `Uow` in `pkg/uow/uow.go`, the Go unit-of-work coordinator. `Uow` wraps one
`database/sql` transaction and keeps a registry from repository names to factory functions. It is a
two-state machine:

- **Idle** means `Tx == nil`.
- **Active** means `Tx != nil`.

`Do` begins a transaction and runs the caller's function `fn`. If `fn` succeeds, `Do` commits.
If `fn` fails, or the commit fails, `Do` rolls back.

The model has three modules:

- `UowSpec` (`uow_spec.dfy`) holds the values: the state (`tx`, `repositories`), the errors, and
  the answers of the driver. It has one pure transition function per operation, and each contract
  states what the source promises on every path.
- `UnitOfWork` (`uow.dfy`) holds the class `Uow`. Its fields `tx` and `repositories` are updated in
  place, as the Go methods do through their pointer receiver. Each method is proved equal to its
  `UowSpec` function.
- `Session` (`session.dfy`) runs any sequence of operations. It proves two facts by induction.
  First, the handle the coordinator holds always agrees with the driver calls it has made. Second,
  the registry answers with the last write of each name.

How the collaborators are represented:

- The answers of `DB.BeginTx`, `Tx.Commit` and `Tx.Rollback` are parameters (`BeginReply`, `Reply`).
  A driver error is an opaque `Driver(cause)`.
- The result of `fn` is a parameter `work: Option<Error>`. `fn` is never run.
- Each lifecycle method also returns the calls it made, in order (`seq<Event>`). This makes
  "fn not invoked", "commit only on success" and "at most one rollback" statable.
- The combined error of lines 58 and 85 is the value `Combined(rollback, original)`, rollback first.

Two points about the code that the model keeps:

- A failed rollback returns at line 73, before line 76 clears `Tx`. So after `fn` fails and the
  rollback fails, `Do` ends Active and keeps the handle. `UowSpec.Do` and `UowSpec.DoTx` state this.
- `Uow` has no `GetRepository` and no separate `Begin`. A transaction begins only inside `Do`.

## Model

| member | source | states |
|---|---|---|
| UowSpec.Register | pkg/uow/uow.go:34-36 | `name` now maps to `f`, whatever it mapped to before; every other name's entry and the handle are unchanged |
| UowSpec.UnRegister | pkg/uow/uow.go:38-40 | `name` is absent afterwards; every other entry and the handle are unchanged; when `name` was absent, the state is unchanged |
| UowSpec.Rollback | pkg/uow/uow.go:66-78 | Idle: returns NoTransaction, changes nothing and calls nothing. Active: exactly one driver rollback on the held handle. The error is None exactly when that rollback succeeded, and the handle is then cleared. A failed rollback returns the driver error verbatim and keeps the handle. The registry is untouched |
| UowSpec.CommitOrRollback | pkg/uow/uow.go:80-91 | Needs an Active state, since line 81 dereferences the handle unchecked. The commit comes first and happens once. A rollback follows exactly when the commit failed. A successful commit returns None. Commit error C with a successful rollback returns exactly C. A failed rollback R returns Combined(R, C). Only the last case keeps the handle |
| UowSpec.Do | pkg/uow/uow.go:42-64 | Active: AlreadyStarted, with no call made and the state kept. BeginTx error: returned verbatim, still Idle, `fn` not run. Once begun, the calls come in order: the begin, then `fn`, then the calls of `Rollback` if `fn` failed or of `CommitOrRollback` if it succeeded. `fn` runs exactly when a transaction began. At most one call of each kind is made. A commit happens exactly when `fn` succeeded. A rollback happens exactly when `fn` or the commit failed. `fn`'s error E is returned alone or as Combined(R, E). On `fn` success, the state and error equal CommitOrRollback's on the new handle. None exactly when every step succeeded, and the coordinator is then Idle. A failed rollback leaves the handle set. The registry is untouched |
| UnitOfWork.Uow.constructor | pkg/uow/uow.go:27-32 | `NewUow`: Idle, with an empty registry |
| UnitOfWork.Uow.Register | pkg/uow/uow.go:34-36 | updates the fields in place as `UowSpec.Register` says |
| UnitOfWork.Uow.UnRegister | pkg/uow/uow.go:38-40 | updates the fields in place as `UowSpec.UnRegister` says |
| UnitOfWork.Uow.Rollback | pkg/uow/uow.go:66-78 | new fields, error and calls are those of `UowSpec.Rollback` on the old fields |
| UnitOfWork.Uow.CommitOrRollback | pkg/uow/uow.go:80-91 | new fields, error and calls are those of `UowSpec.CommitOrRollback`; needs an Active state |
| UnitOfWork.Uow.Do | pkg/uow/uow.go:42-64 | new fields, error and calls are those of `UowSpec.Do`. Its body calls the class's own `Rollback` and `CommitOrRollback`, as the Go code does |
| Session.FailedRollbackWedges | pkg/uow/uow.go:72-74 | after a `Do` whose rollback failed, because `fn` or the commit failed, the coordinator is Active on the begun handle. Every later `Do` then returns AlreadyStarted, makes no call and changes nothing, until a `Rollback` or a `CommitOrRollback` clears the handle. A `Rollback` makes it Idle exactly when it succeeds. A `CommitOrRollback` does so unless both its commit and its rollback fail |
| Session.Exec | pkg/uow/uow.go:80-81 | a run of operations stops only at a `CommitOrRollback` on an Idle coordinator, where the Go code dereferences a nil handle |
| Session.RollbackCoherent | pkg/uow/uow.go:66-78 | `Rollback` calls the driver only on the handle it holds. Afterwards it holds a handle exactly when that transaction was not successfully rolled back |
| Session.CommitOrRollbackCoherent | pkg/uow/uow.go:80-91 | likewise for `CommitOrRollback`: commit and rollback target the held handle, and the handle stays only while the transaction is unfinished |
| Session.DoCoherent | pkg/uow/uow.go:42-64 | `Do` begins only while Idle, so there is no nested transaction. `fn` runs inside the begun transaction. The final handle is the begun one exactly when it was not committed or rolled back successfully |
| Session.SessionCoherent | pkg/uow/uow.go:42-91 | over any sequence of operations from any state, every driver call fits the handle held at that point, and the final handle is the transaction still unfinished |
| Session.RegistryLastWriteWins | pkg/uow/uow.go:34-40 | over any sequence of operations, a name's factory is the one from its most recent executed Register. It is absent when an UnRegister came later, and unchanged when neither touched it. Lifecycle calls never affect the registry |

## Left out

- GetRepository is declared in `UowInterface` (pkg/uow/uow.go:14), but `Uow` does not implement it. So it is not modelled.
- The database driver (`DB.BeginTx`, `Tx.Commit`, `Tx.Rollback`) is foreign I/O. Only its success or failure is modelled, with an opaque cause. `database/sql` behaviour, such as a rollback after a failed commit reporting `ErrTxDone`, depends on the driver's answers, which are free parameters here.
- `NewUow` ignores its `ctx`. `Do` only passes its `ctx` to `DB.BeginTx` (line 46). Neither `ctx` is modelled, and neither is the `DB` field.
- `NewUow(ctx, nil)` is legal Go, and `Do` would then panic at line 46 when it calls `BeginTx` on a nil `*sql.DB`. The model always has a driver, so that panic is not modelled.
- Repository factories are opaque tokens (`Factory`). The coordinator only stores them and never calls them.
- The unit-of-work function `fn` is modelled by its result only. The model assumes it does not touch the coordinator, for instance by calling `Rollback` or `Do` itself. A panicking `fn` is not modelled either. `Do` has no `defer` or `recover`, so the panic would propagate with `Tx` still set from line 51. Its error may still be any `Error`.
- Combined: the model is deliberately stronger than the Go value here. Lines 58 and 85 build the combined error with `errors.New(fmt.Sprintf(...))`, a flat string that wraps neither cause, so `errors.Is`, `errors.As` and `errors.Unwrap` cannot recover the rollback error or the original error from it. The model's `Combined(rollback, original)` keeps both causes as values, rollback error first, and does not model the text.
- The mismatch between `Do`'s parameter type and the interface (lines 15 and 42) is a Go typing detail and is not modelled.
- Concurrent use of one `Uow` is not modelled. It has no locking, and such use is a caller error.
- NewUow is the model's only constructor. The fields of `Uow` are exported (pkg/uow/uow.go:21-25), so Go code can build a `Uow` with a nil `Repositories` map, and `Register` then panics at line 35. The model's registry is never nil, so that panic is not modelled.
