# goph/shutdown in Dafny

A model of the Go package `shutdown`, a small registry of cleanup handlers
that an application runs when it terminates. A `Manager` keeps an ordered
list of handlers (`func() error`). `Register` appends to the list and
`RegisterAsFirst` prepends to it. `Shutdown` first normalises and reports
any panic that is unwinding through its own call. It then calls every
handler in order and hands each non-nil error to the manager's error sink
(`ErrorHandler`), carrying on after failures. `Func` turns a plain `func()`
into a handler that recovers its own panics through the normaliser `r`.

Modules:

- `Decimal` (decimal.dfy) renders integers in decimal, the way `%v`
  prints an `int`. `ParseInt` is its inverse and is used only to state
  that the rendering loses nothing.
- `Errors` (errors.dfy) covers error.go:
  - `Error` values. An `Existing(id, text)` error is one the program
    already holds. Its `id` stands for Go's pointer identity.
  - panic payloads;
  - the normaliser `r`, written `Recover`;
  - the sink `ErrorSink`. A non-recording sink is `noopErrorHandler`. A
    recording sink is the test double from error_test.go.
- `Shutdown` (shutdown.dfy) covers shutdown.go:
  - handlers and `Func`;
  - the specification functions `FirstPanic`, `Failures`, `Invoked`,
    `Escaped` and `Reported`, with lemmas about them;
  - the class `Manager`, whose methods are proved against those
    functions;
  - scenario methods that restate the package's tests.

Panics are explicit values. A handler is modelled by its tag and by what
one call of it does: return an error, return nil, or panic with a payload.
The tag stands for the handler's side effect. `Shutdown` returns the
handlers it called, in order, and the panic that escaped it, if any.

`Shutdown` recovers only a panic that is already unwinding when it is
called. It does not recover a panic raised by a handler during its loop
(shutdown.go:64-69). Its doc comment calls it "the panic recovery and
shutdown handler" (shutdown.go:52), which might suggest that every unwind
inside `Shutdown` is caught. The code catches only those
raised inside handlers built with `Func` (shutdown.go:24-27). The model
follows the code. If an unwrapped handler panics, the loop ends there,
the later handlers are not called, and the panic leaves `Shutdown` as
`escaped`. `Func` handlers never panic, so with them every handler runs
(`WrappedHandlersAllRun`).

## Model

| member | source | states |
|---|---|---|
| `Decimal.NatToDecimal` | error.go:27 | the decimal text of a natural number is non-empty and made of digits. It starts with `0` only for zero, and zero is exactly `0` (no leading zeros). |
| `Decimal.IntToDecimal` | error.go:27 | `%v` text of an `int`: starts with `-` exactly for negative values, followed by at least one digit. No leading zero, and zero is exactly `0`. |
| `Decimal.ParseIntOfDecimal` | error.go:27 | parsing the rendered text gives the integer back, so the rendering is faithful |
| `Decimal.DecimalInjective` | error.go:27 | two integers with the same rendering are equal |
| `Errors.Recover` | error.go:19-32 | no payload gives no error, and every other payload gives an error. An error payload comes back as the same value. A string gives a new error with exactly that message. Any other value gives a new error reading `Unknown panic, received: ` followed by the value. |
| `Errors.RecoveredIntNamesPayload` | error.go:26-27 | the message made for an integer payload is the prefix followed by text that parses back to that integer |
| `Errors.RecoverIntInjective` | error.go:26-27 | distinct integer payloads give distinct errors |
| `Errors.RecoverKeepsIdentity` | error.go:22-27 | the only way to get back an error the program already held is to panic with that error; strings and other values always give new errors |
| `Errors.RecoverOneTwoThree` | error_test.go:59-65 | panicking with `123` gives the message `Unknown panic, received: 123` |
| `Errors.ErrorSink.Noop` | error.go:13-16 | the default sink records nothing and starts empty |
| `Errors.ErrorSink.Recorder` | error_test.go:9-12 | the recording test sink starts with an empty log |
| `Errors.ErrorSink.Handle` | error.go:9-16 | the no-op sink's `Handle` (error.go:16) changes nothing. The recording test sink (error_test.go:15-17) appends the error to its log and keeps everything before it. |
| `Errors.ErrorSink.Last` | error_test.go:19-29 | gives nil exactly when no error was handled, otherwise the most recently handled one |
| `Shutdown.Func` | shutdown.go:20-33 | the wrapped handler carries the action's side effect and never panics. It returns nil when the action completes, and the normalised payload when the action panics. |
| `Shutdown.FuncReturnsPanickedError` | shutdown_test.go:48-58 | a wrapped action that panics with an error makes the handler return that very error |
| `Shutdown.FirstPanic` | shutdown.go:64-69 | gives the first position whose handler panics, or the length when none does. Every handler before it returns normally. |
| `Shutdown.FailuresAppend` | shutdown.go:64-69 | the errors returned by handlers `a ++ b` are those of `a` followed by those of `b`, so the order of errors follows the order of handlers |
| `Shutdown.FailuresContain` | shutdown.go:64-69 | an error is among those returned exactly when some handler returns it (both directions) |
| `Shutdown.FailuresOfQuietHandlers` | shutdown.go:65-68 | nil results are never reported: handlers that all return nil yield no errors |
| `Shutdown.FailuresStep` | shutdown.go:64-69 | calling one more handler extends the errors so far by that handler's error, if any |
| `Shutdown.ShutdownStops` | shutdown.go:64-69 | the loop stops only at the first panicking handler or after the last one. Which handlers ran and which panic escaped follow from that. |
| `Shutdown.ErrorsDoNotStopShutdown` | shutdown.go:64-69 | isolate and continue: when no handler panics, every handler is called, no panic escapes, and every error any handler returns is reported |
| `Shutdown.ReportedContain` | shutdown.go:55-69 | an error is reported exactly when the calling context's panic normalises to it, or a handler before the first panic returns it (both directions) |
| `Shutdown.WrappedHandlersAllRun` | shutdown.go:23-33 | handlers built with `Func` never panic, so every one of them is called and no panic escapes |
| `Shutdown.Manager.constructor` | shutdown.go:35-40 | a new manager has no handlers and a fresh no-op sink |
| `Shutdown.Manager.Register` | shutdown.go:42-45 | the handler list becomes the old list followed by the arguments, in order; the sink is kept |
| `Shutdown.Manager.RegisterAsFirst` | shutdown.go:47-50 | the handler list becomes the arguments, in order, followed by the whole old list; the sink is kept |
| `Shutdown.Manager.Shutdown` | shutdown.go:52-70 | the list and the sink are kept. The handlers called are exactly `Invoked`, in order, and the escaping panic is `Escaped`. A recording sink's log is extended by exactly `Reported`: the context error, then the handlers' errors in order. A no-op sink stays unchanged. |
| `Shutdown.NewManagerReportsNowhere` | shutdown_test.go:80-89 | an unconfigured manager whose handler fails records nothing anywhere |
| `Shutdown.RegisteredRunInOrder` | shutdown_test.go:104-119 | two handlers registered together run in the order given |
| `Shutdown.RegisteredAsFirstRunsFirst` | shutdown_test.go:121-137 | registering the second handler, then the first with `RegisterAsFirst`, runs the first, then the second |
| `Shutdown.EmptyShutdownReportsNothing` | shutdown_test.go:139-149 | an empty manager with no panic in flight reports nothing |
| `Shutdown.HandlerErrorReported` | shutdown_test.go:151-167 | the error a handler returns is the sink's last recorded error, whatever the context normaliser does |
| `Shutdown.ContextPanicReported` | shutdown_test.go:169-187 | called while an error is unwinding, `Shutdown` reports that error as the sink's last one. The context panic is not re-raised because `inFlight` models `recover()` consuming it. `escaped == None` only says that no handler panicked. |
| `Shutdown.FailureThenFlag` | shutdown.go:64-69 | a failing handler is followed by the next handler's run, and its error is the only one recorded |
| `Shutdown.ShutdownTwice` | shutdown.go:55-70 | the list is not cleared: a second shutdown calls the same handlers again and reports their errors again |

## Left out

- `errors.Recover` from `github.com/goph/stdlib/errors` (shutdown.go:57) is not part of this model. `Shutdown` takes it as a parameter `normalise`. Its known behaviour is the predicate `StdlibRecoverLike`, which the tests rely on: nil gives no error and an error payload comes back unchanged. Only the scenario methods assume it.
- Go's `panic`, `recover` and `defer` are left out. A panic is a `Payload` value. `Shutdown`'s own `recover()` is its `inFlight` argument. Go's `recover()` sees the unwinding panic only when `Shutdown` is itself the deferred call (`defer m.Shutdown()`, shutdown_test.go:177). So `inFlight` is `Nil` when nothing is unwinding. It is also `Nil` when `Shutdown` is called from inside a deferred closure (`defer func() { m.Shutdown() }()`). In that case the panic is neither reported nor stopped: it keeps unwinding after `Shutdown` returns. `escaped` covers only panics raised by handlers.
- `%v` rendering of arbitrary values is limited. Integers are rendered in decimal, with no 64-bit bound. Every other value arrives already rendered as `Other(rendered)`.
- Errors created by the normaliser are compared by message. Two errors made from the same text are equal here, whereas in Go two calls to `errors.New` give distinct pointers.
- Handlers are fixed outcomes. A closure whose side effects change the manager while it runs is not modelled: it could register handlers or replace the sink mid-shutdown. Neither is the case where successive calls of the same closure behave differently.
- A user sink with arbitrary side effects is left out, and so is a nil `ErrorHandler`, on which Go would panic. The sink is either the no-op sink or a recording one.
- The aliasing and capacity effects of Go's `append` on the handler slice are not modelled. The list is a value sequence.
- `panic(nil)` behaves as Go did before 1.21: the payload is nil, so `Func` returns nil.
- Concurrency is left out: the package has none and provides no locking.
