# finally — a Dafny model of the handler registry

This project models the Go package `finally`, all of it in `finally.go`. The package lets a program register cleanup handlers. `Wrap` and `WrapSig` put a handler into a process-wide registry under a fresh id and return a trigger, meant for `defer`. A handler runs at most once:

- when the program calls its trigger; or
- when a shutdown signal arrives. The signal listener executes every registered handler and then exits the process with status 1.

A panic inside a handler is caught and printed. The stack trace captured when the handler was wrapped is printed after it, if one was recorded.

The model is sequential and imperative, like the source:

- `Finally.HandlerContext` is a class for a `handlerContext`. Only its guard counter `isExecuted` changes after creation.
- `Finally.Process` holds the package globals as fields:
  - `lastId` is the global `seq` (`seq` is a reserved word in Dafny);
  - the `handlers` registry;
  - `recordStackTrace`;
  - one `Subscription` per `RegisterShutdownHook` call;
  - the observable output, as a log of `Event`s;
  - the exit status.
  - A ghost map `contexts` holds every context ever created.
- `Process.Valid` is the invariant every operation keeps:
  - ids are 1, 2, … in creation order;
  - the registry maps each id to its own context;
  - a context nobody has claimed is still registered;
  - no handler has been called twice;
  - no handler whose context is still registered has been called at all.
- `execute` is split into `Claim`, the atomic bump and guard at finally.go:101-104, and `Finish`, the dispatch and deferred clean-up. This makes the window between finally.go:101 and finally.go:107 explicit.
- A signal arriving is the method `Deliver`. Its `handlers.Range` loop is `ExecuteAll`, which visits the registry keys in an order the verifier does not get to choose. The fan-out is specified by the function `FanOut` over that visiting order.

Handlers are abstracted to how they end: `Returned`, or `Panicked(value)`. A nil Go func is `None`. Calling it panics with the runtime's nil-dereference message. The same message is used for dereferencing the nil `*os.Signal` that a manual trigger passes.

The `Scenarios` module replays the repository's test programs as the process-level tests drive them:

- `tests/simple.go`, `tests/panic.go`, `tests/order.go` and `tests/cleanup.go`;
- a few further call sequences.

Each scenario proves what the output shows: its exact contents where the source fixes them.

**Documentation and code disagree on WrapSig.** The comment at finally.go:31-34 says a manually triggered `WrapSig` handler receives a nil signal. The code passes a nil `*os.Signal` (finally.go:125) and dereferences it at finally.go:118, which panics before the handler is called. The model follows the code: the signal handler is never called on that path, and the panic is reported instead (`Finally.Effects`, `Scenarios.ManualTriggerOfWrapSig`).

## Model

| member | source | states |
|---|---|---|
| Finally.Subscribed | finally.go:45-52 | SIGKILL and SIGSTOP are never relayed, since no process can catch them. With no arguments (a nil slice), exactly Interrupt and SIGTERM are relayed. A non-nil empty list relays every catchable signal, as `signal.Notify` with no signals does. Otherwise exactly the listed catchable signals are relayed. |
| Finally.PanicReport | finally.go:109-114 | Nothing is printed when the handler returned. After a panic, the "Panic caught" line with the panic value comes first, and the stack-trace line follows it exactly when a trace was recorded. |
| Finally.Effects | finally.go:106-121 | One execution calls the context's own handler exactly once if the dispatch can reach it, else not at all. Every event belongs to that context. The signal handler is called only when `acceptArgument` is set, and with the signal passed in. The plain handler is called only otherwise. A "Panic caught" line with value `v` is shown exactly when the dispatch panicked with `v`, and the trace line exactly when it panicked and a trace was recorded (finally.go:109-114). A manual trigger of a signal handler prints only the nil-dereference panic report. |
| Finally.HandlerContext.constructor | finally.go:78-85 | A new context carries the given id, handlers, flag and trace bit, with the guard counter at 0. |
| Finally.Process.constructor | finally.go:74-76 | At start-up the id counter is 0, the registry is empty, stack traces are recorded, and nothing is subscribed or printed. |
| Finally.Process.SetRecordStackTrace | finally.go:70-72 | Sets the flag to the given value and keeps the invariant. |
| Finally.Process.NewHandlerContext | finally.go:87-98 | The new context gets the previous counter plus one, larger than every earlier id. It is stored under that id and every other registry entry is unchanged. It carries a trace exactly when the flag is set, and its guard counter is 0. Nothing printed or subscribed changes. |
| Finally.Process.Wrap | finally.go:25-29 | A fresh plain-handler context is registered under the next id. Nothing else in the registry changes. The trace bit follows the flag. |
| Finally.Process.WrapSig | finally.go:35-40 | A fresh signal-handler context, with `acceptArgument` set, is registered under the next id. Nothing else in the registry changes. The trace bit follows the flag. |
| Finally.Process.Claim | finally.go:101-104 | The guard counter goes up by one on every call. The call wins exactly when the counter was 0 before, and a winner's context is still registered. |
| Finally.Process.Finish | finally.go:106-121 | Whatever the handler's outcome, the id leaves the registry and no other key is touched. The output grows by exactly the execution's effects: the call, then the panic report if any. |
| Finally.Process.Execute | finally.go:100-122 | The first execution removes the id and shows its effects. Every later one only bumps the counter: registry and output unchanged. The invariant, including "no handler called twice", is kept. |
| Finally.Process.ExecuteNoSig | finally.go:124-126 | The trigger is `Execute` with a nil signal, with the same first-call and later-call behaviour. |
| Finally.Process.RegisterShutdownHook | finally.go:45-53 | Adds one listener subscribed to `Subscribed(signals)`. |
| Finally.Process.Visit | finally.go:57-60 | One `Range` step executes the context under the visited key with the signal. It extends the fan-out over the keys visited so far. |
| Finally.Process.ExecuteAll | finally.go:57-61 | Visits every key registered at the start exactly once, in some order, and bumps each such counter by one. It removes exactly the unclaimed ids from the registry. The output grows by `FanOut` over that order. |
| Finally.Process.Exit | finally.go:63 | The process ends with the given status, shown as the last event. |
| Finally.Process.Deliver | finally.go:54-64 | A signal no listener subscribed to changes nothing. A relayed signal executes every context registered at that moment with that signal, each once. It removes exactly the unclaimed ids, and each unclaimed handler that it can invoke runs exactly once. It ends with `Exited(1)` and exit status 1. |
| Finally.FanOutRuns | finally.go:57-61 | In a fan-out, the handler of a context id is called exactly once if the id was visited, unclaimed, registered and invokable, and otherwise never. |
| Finally.FanOutIncludes | finally.go:57-61 | A fan-out shows every event of the execution of each unclaimed context it visits. A panicking sibling therefore does not hide the others. |
| Finally.FanOutExactlyOnce | finally.go:54-63 | After the fan-out and the exit, each handler that was unclaimed and invokable has run exactly once, and any other unclaimed one never. |
| Finally.InvokedAtMostOnce | finally.go:20-24 | In every reachable state no handler has been called more than once ("invoked only once"). |
| Int32Guard.AddInt32 | finally.go:101 | `atomic.AddInt32` gives an int32 congruent to the sum modulo 2^32, and equal to the sum when that fits. |
| Int32Guard.CounterCountsCalls | finally.go:80 | Up to the largest int32, the int32 counter holds exactly the number of calls so far. |
| Int32Guard.OnlyFirstPassesBeforeWrap | finally.go:101-104 | Among the first 2^31 - 1 calls, a call passes the guard exactly when it is the first. |
| Int32Guard.WrappedGuardPassesAgain | finally.go:101-104 | Call number 2^31 wraps the counter to the smallest int32 and passes the guard again (see Findings). |
| Scenarios.DefaultHookListens | finally.go:48-52 | After `RegisterShutdownHook()`, Interrupt and SIGTERM are relayed. |
| Scenarios.RanInFanOut | finally.go:57-61 | A fan-out that visits an unclaimed plain handler shows that handler's call. |
| Scenarios.PanicInFanOut | finally.go:109-114 | A fan-out that visits an unclaimed handler that panics shows the caught panic with its value, and the trace when one was recorded. |
| Scenarios.PanicFanOutShows | tests/panic.go:10-26 | For the three handlers of the panic program, in any visiting order, each is called once. The middle one's call shows, and both panics are reported with their traces. |
| Scenarios.Simple | tests/simple.go:10-20 | The handler runs exactly once in all three cases: on normal exit (the deferred trigger), and on Interrupt or SIGTERM during the sleep, which is followed by exit 1 (finally_test.go:59-110). |
| Scenarios.PanickingSiblings | tests/panic.go:10-26 | Under an interrupt, every handler is called once, including the one printing "Triggered" (finally_test.go:112-130). Both panics are reported with their stack traces. The process exits with 1. |
| Scenarios.KilledUncatchably | finally.go:52-63 | SIGKILL sent to tests/simple.go reaches no listener: nothing is relayed, no handler runs and nothing is printed. |
| Scenarios.OrderOnExit | tests/order.go:12-26 | On normal exit the deferred triggers run the handlers in reverse order: 3, 2, 1. |
| Scenarios.OrderOnSignal | tests/order.go:10-30 | Under an interrupt each of the three handlers runs exactly once, then the process exits with 1. |
| Scenarios.ManualTriggerThenSignal | tests/cleanup.go:10-27 | A handler already triggered when `sub` returned is not run again by a later signal's fan-out. The output is the single call, then the exit. |
| Scenarios.SignalWhileTriggerRuns | finally.go:101-107 | A signal arriving after a manual trigger has claimed a context but before it finished does not run that handler. The fan-out skips it and the exit cuts the trigger short. |
| Scenarios.WrapTwice | finally.go:20-29 | Wrapping the same function twice gives two independent contexts, 1 and 2. Triggering the first again has no effect. |
| Scenarios.ManualTriggerOfWrapSig | finally.go:117-118 | The manual trigger of a `WrapSig` handler never calls it. It prints the nil-dereference panic and the trace. |
| Scenarios.SignalHandlerReceivesSignal | finally.go:35-39 | For any catchable signal, a `WrapSig` handler executed by that subscribed signal is called with it. With stack traces off, nothing else is printed before the exit. |

## Left out

- Signal plumbing: the channel, `signal.Notify` and the listener goroutine (finally.go:46, 52-56) are replaced by the call `Deliver(sig)`. The model does not capture a signal that would be dropped because the unbuffered channel has no receiver ready.
- Concurrency: the model is sequential. Racing triggers and fan-outs are left out. So are several listeners fanning out at once after one signal; the model lets the first listener that is subscribed do the fan-out. Also left out is the window in `Wrap` between `handlers.Store` (finally.go:96) and setting `c.handler` (finally.go:27), in which a fan-out would call a nil handler. The atomics are plain increments. The fan-out's claimed-but-unfinished window is still explicit through `Claim`/`Finish`.
- `Finally.Process.Deliver`: for a signal no listener receives, including SIGKILL and SIGSTOP, the model leaves the state unchanged: no handler runs and nothing is printed. The Go runtime then applies the signal's default action, often ending the process; that ending is outside the package and is not recorded.
- Signal numbers follow Linux (SIGKILL 9, SIGSTOP 19); other platforms number SIGSTOP differently.
- `os.Exit`: modelled as the `Exited(status)` event and a terminal state. Every method of `Process`, `SetRecordStackTrace` and `RegisterShutdownHook` included, requires the process to be alive.
- `sync.Map`'s `Range` order is unspecified. `ExecuteAll` returns the order it chose as a ghost sequence, and all properties hold for every order.
- `Scenarios.OrderOnSignal`: does not state the output "Triggered3, Triggered2, Triggered1" that finally_test.go:182 expects after an interrupt. That order depends on `sync.Map` traversal, which the code does not promise.
- The 64-bit wrap-around of the global `seq` (finally.go:74, 89) after 2^63 contexts: `lastId` is unbounded.
- `debug.Stack()` and `fmt.Println` (finally.go:93, 110-112) are opaque. A trace is one bit (`hasStackTrace`), and the printed lines are `PanicCaught` and `StackTracePrinted` events. A handler's own printing stands behind its `HandlerRan` or `SigHandlerRan` event.
- `panic(nil)`: the model has no nil panic value. In older Go releases, `recover()` returns nil for it and no report is printed.
- What a handler does besides returning or panicking is abstracted to its `Outcome`. A handler that never returns, or one that calls back into the package, is left out.
- The test harness in finally_test.go (`go build`, `exec`, sleeps, output matching) only guides the scenarios. tests/multiple.go is not part of this model.

## Findings

| source | as written | input that shows it | evidently intended | confidence | as-written member | corrected member |
|---|---|---|---|---|---|---|
| finally.go:101-102 | `isExecuted` is an int32 that every call bumps with `atomic.AddInt32`, which wraps around; the guard rejects only values above 1. | Calling one context's trigger 2^31 times: the last call wraps the counter to -2^31 and runs the handler a second time. | Only the first call ever runs the handler ("invoked only once", finally.go:23-24). | low (needs 2^31 calls); not executed | Int32Guard.WrappedGuardPassesAgain | Finally.Process.Claim |
