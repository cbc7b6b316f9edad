/**
 * The handler registry and the at-most-once execution guard of the
 * `finally` package: cleanup handlers are wrapped into contexts kept in a
 * process-wide registry, each context runs its handler at most once
 * (whether triggered by hand or by a shutdown signal), a panicking handler
 * is contained and reported, and a relayed signal fans out to every
 * registered context before the process exits with status 1.
 *
 * The model is sequential: the atomic increments become plain increments,
 * and the window between claiming a context and finishing it is made
 * explicit by the two steps Claim and Finish.
 */
module Finally {

  datatype Option<+T> = None | Some(value: T)

  /** An operating-system signal, identified by its number. */
  datatype Signal = Signal(number: int)

  /** `os.Interrupt`, which is SIGINT. */
  const Interrupt := Signal(2)
  /** `syscall.SIGTERM`. */
  const SigTerm := Signal(15)
  /** SIGKILL and SIGSTOP (Linux numbering): no process can catch them, so `signal.Notify` never relays them. */
  const SigKill := Signal(9)
  const SigStop := Signal(19)

  predicate Catchable(sig: Signal) {
    sig != SigKill && sig != SigStop
  }

  /** How a handler's call ends: it returns, or it panics with a value. */
  datatype Outcome = Returned | Panicked(value: string)

  /** The value the Go runtime panics with when a nil func is called or a nil pointer dereferenced. */
  const NilDereference := "runtime error: invalid memory address or nil pointer dereference"

  /** `FinallyHandler` and `FinallyHandlerSig`: what a call does is abstracted to how it ends. */
  type FinallyHandler = () -> Outcome
  type FinallyHandlerSig = Signal -> Outcome

  /**
   * What the process makes observable: a handler being called (its own side
   * effects, such as printing "Triggered", stand behind this event), the two
   * lines printed for a caught panic, and the process exit.
   */
  datatype Event =
    | HandlerRan(id: int)
    | SigHandlerRan(id: int, sig: Signal)
    | PanicCaught(id: int, value: string)
    | StackTracePrinted(id: int)
    | Exited(status: int)
  {
    /** This event is a call of the handler of context `id`. */
    predicate IsRunOf(id': int) {
      (HandlerRan? || SigHandlerRan?) && id == id'
    }

    /** This event belongs to the execution of context `id`. */
    predicate IsAbout(id': int) {
      !Exited? && id == id'
    }
  }

  /** Number of calls of the handler of context `id` recorded in `out`. */
  function Runs(out: seq<Event>, id: int): nat {
    if out == [] then 0 else (if out[0].IsRunOf(id) then 1 else 0) + Runs(out[1..], id)
  }

  lemma {:induction false} RunsAppend(a: seq<Event>, b: seq<Event>, id: int)
    ensures Runs(a + b, id) == Runs(a, id) + Runs(b, id)
  {
    if a == [] {
      assert a + b == b;
    } else {
      assert (a + b)[1..] == a[1..] + b;
      RunsAppend(a[1..], b, id);
    }
  }

  lemma RunsAppendAll(a: seq<Event>, b: seq<Event>)
    ensures forall id :: Runs(a + b, id) == Runs(a, id) + Runs(b, id)
  {
    forall id ensures Runs(a + b, id) == Runs(a, id) + Runs(b, id) {
      RunsAppend(a, b, id);
    }
  }

  lemma {:induction false} NoRuns(out: seq<Event>, id: int)
    requires forall i :: 0 <= i < |out| ==> !out[i].IsRunOf(id)
    ensures Runs(out, id) == 0
  {
    if out != [] {
      NoRuns(out[1..], id);
    }
  }

  lemma NonEmpty(s: set<int>)
    ensures s != {} ==> exists k :: k in s
  {
    if !(exists k :: k in s) {
      assert s == {};
    }
  }

  /** The state of the listening task started by one RegisterShutdownHook call. */
  datatype Subscription = AllSignals | Only(signals: set<Signal>)

  /** The listening task receives `sig`: it is subscribed to it and the signal can be caught at all. */
  predicate Relays(s: Subscription, sig: Signal) {
    Catchable(sig) && (s.AllSignals? || sig in s.signals)
  }

  /**
   * The signals one RegisterShutdownHook call subscribes to. `None` is a nil
   * slice (the call with no arguments): Interrupt and SIGTERM. A non-nil empty
   * slice reaches `signal.Notify` with no signals, which relays every signal.
   */
  function Subscribed(signals: Option<seq<Signal>>): (s: Subscription)
    ensures forall sig :: Relays(s, sig) <==>
      Catchable(sig) && if signals.None? then sig == Interrupt || sig == SigTerm
                        else |signals.value| == 0 || sig in signals.value
  {
    match signals
    case None => Only({Interrupt, SigTerm})
    case Some(list) => if |list| == 0 then AllSignals else Only(set x | x in list)
  }

  /** One `handlerContext`. Only its guard counter changes after creation. */
  class HandlerContext {
    const id: int
    var isExecuted: int
    const handler: Option<FinallyHandler>
    const sigHandler: Option<FinallyHandlerSig>
    const acceptArgument: bool
    /** Whether a stack trace was recorded (`stackTrace != nil`). */
    const hasStackTrace: bool

    constructor (id: int, handler: Option<FinallyHandler>, sigHandler: Option<FinallyHandlerSig>,
                 acceptArgument: bool, hasStackTrace: bool)
      ensures this.id == id && isExecuted == 0
      ensures this.handler == handler && this.sigHandler == sigHandler
      ensures this.acceptArgument == acceptArgument && this.hasStackTrace == hasStackTrace
    {
      this.id := id;
      isExecuted := 0;
      this.handler := handler;
      this.sigHandler := sigHandler;
      this.acceptArgument := acceptArgument;
      this.hasStackTrace := hasStackTrace;
    }
  }

  /**
   * Whether running context `c` with argument `sig` (None is the nil
   * `*os.Signal` of a manual trigger) reaches a handler call: a signal handler
   * needs both the signal pointer and the func to be non-nil, a plain handler
   * the func.
   */
  predicate Invokes(c: HandlerContext, sig: Option<Signal>) {
    if c.acceptArgument then sig.Some? && c.sigHandler.Some? else c.handler.Some?
  }

  /** How the dispatch of `c` with argument `sig` ends. */
  function ActionOutcome(c: HandlerContext, sig: Option<Signal>): Outcome {
    if !Invokes(c, sig) then Panicked(NilDereference)
    else if c.acceptArgument then c.sigHandler.value(sig.value)
    else c.handler.value()
  }

  /** The lines the deferred recovery prints for context `id`. */
  function PanicReport(id: int, outcome: Outcome, hasStackTrace: bool): (r: seq<Event>)
    ensures outcome.Returned? <==> r == []
    ensures outcome.Panicked? ==> r[0] == PanicCaught(id, outcome.value)
    ensures outcome.Panicked? ==> |r| == (if hasStackTrace then 2 else 1)
    ensures |r| == 2 ==> r[1] == StackTracePrinted(id)
  {
    match outcome
    case Returned => []
    case Panicked(v) => [PanicCaught(id, v)] + (if hasStackTrace then [StackTracePrinted(id)] else [])
  }

  /** What the first execution of `c` with argument `sig` makes observable. */
  function Effects(c: HandlerContext, sig: Option<Signal>): (e: seq<Event>)
    ensures forall id :: Runs(e, id) == (if id == c.id && Invokes(c, sig) then 1 else 0)
    ensures forall i :: 0 <= i < |e| ==> e[i].IsAbout(c.id)
    ensures forall i :: 0 <= i < |e| && e[i].SigHandlerRan? ==> c.acceptArgument && sig == Some(e[i].sig)
    ensures forall i :: 0 <= i < |e| && e[i].HandlerRan? ==> !c.acceptArgument
    ensures forall v :: PanicCaught(c.id, v) in e <==> ActionOutcome(c, sig) == Panicked(v)
    ensures StackTracePrinted(c.id) in e <==> ActionOutcome(c, sig).Panicked? && c.hasStackTrace
    ensures c.acceptArgument && sig.None? ==>
      e == [PanicCaught(c.id, NilDereference)] + (if c.hasStackTrace then [StackTracePrinted(c.id)] else [])
  {
    var call := if !Invokes(c, sig) then []
                else if c.acceptArgument then [SigHandlerRan(c.id, sig.value)]
                else [HandlerRan(c.id)];
    var report := PanicReport(c.id, ActionOutcome(c, sig), c.hasStackTrace);
    forall id ensures Runs(report, id) == 0 {
      NoRuns(report, id);
    }
    RunsAppendAll(call, report);
    call + report
  }

  /** The events a signal fan-out makes while visiting the registry keys in `order`. */
  function FanOut(order: seq<int>, registry: map<int, HandlerContext>, pending: set<int>, sig: Signal): seq<Event>
  {
    if order == [] then []
    else
      var k := order[|order| - 1];
      FanOut(order[..|order| - 1], registry, pending, sig)
        + (if k in pending && k in registry then Effects(registry[k], Some(sig)) else [])
  }

  /** `FanOut` continuing the log `out`. */
  function FanOutAfter(out: seq<Event>, order: seq<int>, registry: map<int, HandlerContext>, pending: set<int>, sig: Signal): seq<Event>
  {
    if order == [] then out
    else
      var k := order[|order| - 1];
      FanOutAfter(out, order[..|order| - 1], registry, pending, sig)
        + (if k in pending && k in registry then Effects(registry[k], Some(sig)) else [])
  }

  lemma {:induction false} FanOutAfterAppends(out: seq<Event>, order: seq<int>, registry: map<int, HandlerContext>, pending: set<int>, sig: Signal)
    ensures FanOutAfter(out, order, registry, pending, sig) == out + FanOut(order, registry, pending, sig)
  {
    if order != [] {
      FanOutAfterAppends(out, order[..|order| - 1], registry, pending, sig);
    }
  }

  predicate NoDuplicates(s: seq<int>) {
    forall i, j :: 0 <= i < j < |s| ==> s[i] != s[j]
  }

  /** A fan-out calls, exactly once, the handler of every pending context it visits that it can invoke. */
  lemma {:induction false} FanOutRuns(order: seq<int>, registry: map<int, HandlerContext>, pending: set<int>, sig: Signal)
    requires NoDuplicates(order)
    requires forall k :: k in registry ==> registry[k].id == k
    ensures forall id :: (Runs(FanOut(order, registry, pending, sig), id) ==
      if id in order && id in pending && id in registry && Invokes(registry[id], Some(sig)) then 1 else 0)
  {
    if order != [] {
      var n := |order| - 1;
      var k := order[n];
      var prefix := order[..n];
      assert NoDuplicates(prefix);
      FanOutRuns(prefix, registry, pending, sig);
      var step := if k in pending && k in registry then Effects(registry[k], Some(sig)) else [];
      RunsAppendAll(FanOut(prefix, registry, pending, sig), step);
      forall id ensures (id in order) == (id in prefix || id == k) {
        assert order == prefix + [k];
      }
      assert k !in prefix;
    }
  }

  /** A fan-out shows everything the execution of each pending context it visits shows. */
  lemma {:induction false} FanOutIncludes(order: seq<int>, registry: map<int, HandlerContext>, pending: set<int>,
                                          sig: Signal, k: int)
    requires k in order && k in pending && k in registry
    ensures forall e :: e in Effects(registry[k], Some(sig)) ==> e in FanOut(order, registry, pending, sig)
  {
    var n := |order| - 1;
    var prefix := order[..n];
    if order[n] != k {
      assert order == prefix + [order[n]];
      FanOutIncludes(prefix, registry, pending, sig, k);
    }
  }

  /** The process running the package: its globals, what it prints, and how it ended. */
  class Process {
    /** The global `seq`: the last id handed out. */
    var lastId: int
    var handlers: map<int, HandlerContext>
    var recordStackTrace: bool
    /** One entry per RegisterShutdownHook call. */
    var listeners: seq<Subscription>
    var output: seq<Event>
    var exitStatus: Option<int>
    /** Every context ever created, by id. */
    ghost var contexts: map<int, HandlerContext>

    /**
     * Ids are 1, 2, ... in creation order; the registry maps an id to its
     * own context; a context nobody has claimed is still registered; no
     * handler has been called twice, and none whose context is still
     * registered has been called at all.
     */
    ghost predicate Valid()
      reads this, contexts.Values
    {
      && lastId >= 0
      && (forall id :: id in contexts <==> 1 <= id <= lastId)
      && (forall id :: id in contexts ==> contexts[id].id == id && contexts[id].isExecuted >= 0)
      && (forall id :: id in handlers ==> id in contexts && handlers[id] == contexts[id])
      && (forall id :: id in contexts && contexts[id].isExecuted == 0 ==> id in handlers)
      && (forall id :: Runs(output, id) <= 1)
      && (forall id :: id in handlers ==> Runs(output, id) == 0)
      && (forall id :: id > lastId ==> Runs(output, id) == 0)
    }

    /** Some listening task is subscribed to `sig`. */
    predicate Listening(sig: Signal)
      reads this
    {
      exists i | 0 <= i < |listeners| :: Relays(listeners[i], sig)
    }

    predicate Alive()
      reads this
    {
      exitStatus.None?
    }

    /** Ids of the registered contexts that nobody has claimed yet. */
    ghost function Pending(): set<int>
      reads this, handlers.Values
    {
      set k | k in handlers && handlers[k].isExecuted == 0
    }

    /** `c` has been claimed and its execution has not finished. */
    predicate InFlight(c: HandlerContext)
      reads this, c
    {
      c.id in handlers && handlers[c.id] == c && c.isExecuted >= 1
    }

    /** The package state at start-up. */
    constructor ()
      ensures Valid() && Alive()
      ensures lastId == 0 && handlers == map[] && recordStackTrace
      ensures listeners == [] && output == [] && contexts == map[]
    {
      lastId := 0;
      handlers := map[];
      recordStackTrace := true;
      listeners := [];
      output := [];
      exitStatus := None;
      contexts := map[];
    }

    /** `c` is one of the contexts this process created. */
    ghost predicate Created(c: HandlerContext)
      reads this
    {
      c.id in contexts && contexts[c.id] == c
    }

    method SetRecordStackTrace(v: bool)
      requires Valid() && Alive()
      modifies this`recordStackTrace
      ensures Valid() && recordStackTrace == v
    {
      recordStackTrace := v;
    }

    /**
     * Allocates the next id, records a stack trace when the flag is set, and
     * stores the new context in the registry.
     */
    method NewHandlerContext(handler: Option<FinallyHandler>, sigHandler: Option<FinallyHandlerSig>,
                             acceptArgument: bool)
        returns (c: HandlerContext)
      requires Valid() && Alive()
      modifies this
      ensures Valid() && Alive() && fresh(c)
      ensures c.id == old(lastId) + 1 && lastId == c.id
      ensures forall id :: id in old(contexts) ==> id < c.id
      ensures c.id !in old(handlers) && handlers == old(handlers)[c.id := c]
      ensures contexts == old(contexts)[c.id := c] && Pending() == old(Pending()) + {c.id}
      ensures c.isExecuted == 0 && c.hasStackTrace == recordStackTrace
      ensures c.handler == handler && c.sigHandler == sigHandler && c.acceptArgument == acceptArgument
      ensures recordStackTrace == old(recordStackTrace) && listeners == old(listeners) && output == old(output)
    {
      var newId := lastId + 1;
      c := new HandlerContext(newId, handler, sigHandler, acceptArgument, recordStackTrace);
      assert c.id !in handlers;
      handlers := handlers[newId := c];
      lastId := newId;
      contexts := contexts[newId := c];
    }

    /** Wraps a plain handler; the returned context stands for the trigger `c.executeNoSig`. */
    method Wrap(handler: Option<FinallyHandler>) returns (c: HandlerContext)
      requires Valid() && Alive()
      modifies this
      ensures Valid() && Alive() && fresh(c)
      ensures c.id == old(lastId) + 1 && lastId == c.id
      ensures c.id !in old(handlers) && handlers == old(handlers)[c.id := c]
      ensures contexts == old(contexts)[c.id := c] && Pending() == old(Pending()) + {c.id}
      ensures c.isExecuted == 0 && c.hasStackTrace == recordStackTrace
      ensures c.handler == handler && c.sigHandler.None? && !c.acceptArgument
      ensures recordStackTrace == old(recordStackTrace) && listeners == old(listeners) && output == old(output)
    {
      c := NewHandlerContext(handler, None, false);
    }

    /** Wraps a signal-accepting handler. */
    method WrapSig(handler: Option<FinallyHandlerSig>) returns (c: HandlerContext)
      requires Valid() && Alive()
      modifies this
      ensures Valid() && Alive() && fresh(c)
      ensures c.id == old(lastId) + 1 && lastId == c.id
      ensures c.id !in old(handlers) && handlers == old(handlers)[c.id := c]
      ensures contexts == old(contexts)[c.id := c] && Pending() == old(Pending()) + {c.id}
      ensures c.isExecuted == 0 && c.hasStackTrace == recordStackTrace
      ensures c.handler.None? && c.sigHandler == handler && c.acceptArgument
      ensures recordStackTrace == old(recordStackTrace) && listeners == old(listeners) && output == old(output)
    {
      c := NewHandlerContext(None, handler, true);
    }

    /** The guard: bumps the counter, and only the call that made it 1 goes on. */
    method Claim(c: HandlerContext) returns (won: bool)
      requires Valid() && Alive() && Created(c)
      modifies c`isExecuted
      ensures Valid()
      ensures c.isExecuted == old(c.isExecuted) + 1
      ensures won <==> old(c.isExecuted) == 0
      ensures won ==> InFlight(c)
    {
      c.isExecuted := c.isExecuted + 1;
      won := !(c.isExecuted > 1);
    }

    /**
     * The rest of a winning execution: dispatch to `sigHandler` or `handler`,
     * then, whatever the outcome, delete the id and report a caught panic.
     */
    method Finish(c: HandlerContext, sig: Option<Signal>)
      requires Valid() && Alive() && Created(c) && InFlight(c)
      modifies this
      ensures Valid() && Alive()
      ensures handlers == old(handlers) - {c.id}
      ensures output == old(output) + Effects(c, sig)
      ensures lastId == old(lastId) && contexts == old(contexts)
      ensures recordStackTrace == old(recordStackTrace) && listeners == old(listeners)
    {
      var effects := Effects(c, sig);
      RunsAppendAll(output, effects);
      handlers := handlers - {c.id};
      output := output + effects;
    }

    /** `execute`: a no-op apart from the counter unless this call claims `c`. */
    method Execute(c: HandlerContext, sig: Option<Signal>)
      requires Valid() && Alive() && Created(c)
      modifies this, c`isExecuted
      ensures Valid() && Alive()
      ensures c.isExecuted == old(c.isExecuted) + 1
      ensures old(c.isExecuted) == 0 ==> handlers == old(handlers) - {c.id} && output == old(output) + Effects(c, sig)
      ensures old(c.isExecuted) != 0 ==> handlers == old(handlers) && output == old(output)
      ensures lastId == old(lastId) && contexts == old(contexts)
      ensures recordStackTrace == old(recordStackTrace) && listeners == old(listeners)
    {
      var won := Claim(c);
      if won {
        Finish(c, sig);
      }
    }

    /** The trigger returned by Wrap and WrapSig: executes with a nil signal. */
    method ExecuteNoSig(c: HandlerContext)
      requires Valid() && Alive() && Created(c)
      modifies this, c`isExecuted
      ensures Valid() && Alive()
      ensures c.isExecuted == old(c.isExecuted) + 1
      ensures old(c.isExecuted) == 0 ==> handlers == old(handlers) - {c.id} && output == old(output) + Effects(c, None)
      ensures old(c.isExecuted) != 0 ==> handlers == old(handlers) && output == old(output)
      ensures lastId == old(lastId) && contexts == old(contexts)
      ensures recordStackTrace == old(recordStackTrace) && listeners == old(listeners)
    {
      Execute(c, None);
    }

    /** Subscribes a new listening task to `signals` (None: the call with no arguments). */
    method RegisterShutdownHook(signals: Option<seq<Signal>>)
      requires Valid() && Alive()
      modifies this`listeners
      ensures Valid()
      ensures listeners == old(listeners) + [Subscribed(signals)]
    {
      listeners := listeners + [Subscribed(signals)];
    }

    /**
     * How far a fan-out over `registry` has come: the keys in `order` have
     * been executed, those in `todo` not yet; `pending`, `counters` and
     * `before` are the unclaimed ids, the guard counters and the log when
     * the fan-out started.
     */
    ghost predicate FanOutProgress(registry: map<int, HandlerContext>, pending: set<int>, counters: map<int, int>,
                                   before: seq<Event>, sig: Signal, todo: set<int>, order: seq<int>)
      reads this, contexts.Values
    {
      && todo <= handlers.Keys && todo <= registry.Keys
      && NoDuplicates(order)
      && (forall k :: k in order <==> k in registry && k !in todo)
      && handlers.Keys == registry.Keys - (pending - todo)
      && (forall k :: k in handlers ==> handlers[k] == registry[k])
      && (forall id :: id in contexts ==>
            id in counters && contexts[id].isExecuted == counters[id] + (if id in registry && id !in todo then 1 else 0))
      && output == FanOutAfter(before, order, registry, pending, sig)
    }

    /** One step of the `handlers.Range` loop: execute the context under key `k` with `sig`. */
    method Visit(k: int, sig: Signal, ghost registry: map<int, HandlerContext>, ghost pending: set<int>,
                 ghost counters: map<int, int>, ghost before: seq<Event>, ghost todo: set<int>, ghost order: seq<int>)
      requires Valid() && Alive() && k in todo
      requires forall j :: j in registry ==> j in counters
      requires forall j :: j in pending <==> j in registry && counters[j] == 0
      requires FanOutProgress(registry, pending, counters, before, sig, todo, order)
      modifies this, contexts.Values
      ensures Valid() && Alive()
      ensures contexts == old(contexts) && lastId == old(lastId) && listeners == old(listeners)
      ensures recordStackTrace == old(recordStackTrace)
      ensures FanOutProgress(registry, pending, counters, before, sig, todo - {k}, order + [k])
    {
      var c := handlers[k];
      assert c == registry[k] && Created(c);
      ghost var wasPending := c.isExecuted == 0;
      assert wasPending == (k in pending);
      ghost var step := if k in pending && k in registry then Effects(registry[k], Some(sig)) else [];
      ghost var fanOut := FanOutAfter(before, order, registry, pending, sig);
      Execute(c, Some(sig));
      assert output == fanOut + step;
      assert pending - (todo - {k}) == (pending - todo) + (if wasPending then {k} else {});
      assert (order + [k])[..|order|] == order;
      assert FanOutAfter(before, order + [k], registry, pending, sig) == fanOut + step;
    }

    /**
     * The `handlers.Range` loop of a listener: executes every registered
     * context with `sig`, visiting the keys in an unspecified order.
     */
    method ExecuteAll(sig: Signal) returns (ghost order: seq<int>)
      requires Valid() && Alive()
      modifies this, contexts.Values
      ensures Valid() && Alive()
      ensures contexts == old(contexts) && lastId == old(lastId) && listeners == old(listeners)
      ensures recordStackTrace == old(recordStackTrace)
      ensures NoDuplicates(order) && (forall k :: k in order <==> k in old(handlers))
      ensures forall id :: id in contexts ==>
        contexts[id].isExecuted == old(contexts[id].isExecuted) + (if id in old(handlers) then 1 else 0)
      ensures handlers == old(handlers) - old(Pending())
      ensures output == old(output) + FanOut(order, old(handlers), old(Pending()), sig)
    {
      order := [];
      ghost var registry := handlers;
      ghost var pending := Pending();
      ghost var counters := map id | id in contexts :: contexts[id].isExecuted;
      ghost var before := output;
      var todo := handlers.Keys;
      assert forall j :: j in registry ==> j in counters && counters[j] == registry[j].isExecuted;
      assert forall j :: j in pending <==> j in registry && counters[j] == 0;
      while todo != {}
        invariant Valid() && Alive()
        invariant contexts == old(contexts) && lastId == old(lastId) && listeners == old(listeners)
        invariant recordStackTrace == old(recordStackTrace)
        invariant FanOutProgress(registry, pending, counters, before, sig, todo, order)
        decreases todo
      {
        NonEmpty(todo);
        var k :| k in todo;
        Visit(k, sig, registry, pending, counters, before, todo, order);
        order := order + [k];
        todo := todo - {k};
      }
      FanOutDone(registry, pending, counters, before, sig, order);
    }

    /** What a finished fan-out has done, in terms of the state it started from. */
    lemma FanOutDone(registry: map<int, HandlerContext>, pending: set<int>, counters: map<int, int>,
                     before: seq<Event>, sig: Signal, order: seq<int>)
      requires FanOutProgress(registry, pending, counters, before, sig, {}, order)
      ensures NoDuplicates(order) && (forall k :: k in order <==> k in registry)
      ensures forall id :: id in contexts ==>
        contexts[id].isExecuted == counters[id] + (if id in registry then 1 else 0)
      ensures handlers == registry - pending
      ensures output == before + FanOut(order, registry, pending, sig)
    {
      FanOutAfterAppends(before, order, registry, pending, sig);
      RemovedKeys(handlers, registry, pending);
    }

    /** `os.Exit`: the process ends with `status`. */
    method Exit(status: int)
      requires Valid() && Alive()
      modifies this`output, this`exitStatus
      ensures Valid() && exitStatus == Some(status)
      ensures output == old(output) + [Exited(status)]
    {
      RunsAppendAll(output, [Exited(status)]);
      assert forall id :: Runs([Exited(status)], id) == 0;
      output := output + [Exited(status)];
      exitStatus := Some(status);
    }

    /**
     * The operating system delivers `sig`. When some listener subscribed to
     * it, that listener executes every registered context with the signal
     * and then exits with status 1.
     */
    method Deliver(sig: Signal) returns (relayed: bool, ghost order: seq<int>)
      requires Valid() && Alive()
      modifies this, contexts.Values
      ensures Valid()
      ensures relayed == old(Listening(sig))
      ensures contexts == old(contexts) && lastId == old(lastId) && listeners == old(listeners)
      ensures recordStackTrace == old(recordStackTrace)
      ensures !relayed ==> Alive() && handlers == old(handlers) && output == old(output) && order == []
      ensures !relayed ==> forall id :: id in contexts ==> contexts[id].isExecuted == old(contexts[id].isExecuted)
      ensures relayed ==> NoDuplicates(order) && (forall k :: k in order <==> k in old(handlers))
      ensures relayed ==> forall id :: id in contexts ==>
        contexts[id].isExecuted == old(contexts[id].isExecuted) + (if id in old(handlers) then 1 else 0)
      ensures relayed ==> handlers == old(handlers) - old(Pending())
      ensures relayed ==> output == old(output) + FanOut(order, old(handlers), old(Pending()), sig) + [Exited(1)]
      ensures relayed ==> forall k :: k in old(Pending()) ==>
        Runs(output, k) == if Invokes(old(handlers)[k], Some(sig)) then 1 else 0
      ensures relayed ==> exitStatus == Some(1)
    {
      order := [];
      relayed := Listening(sig);
      if !relayed {
        return;
      }
      ghost var registry := handlers;
      ghost var pending := Pending();
      ghost var before := output;
      assert forall k :: k in registry ==> registry[k].id == k;
      assert forall k :: k in pending ==> Runs(before, k) == 0;
      order := ExecuteAll(sig);
      Exit(1);
      FanOutExactlyOnce(before, order, registry, pending, sig);
    }
  }

  lemma RemovedKeys(h: map<int, HandlerContext>, r: map<int, HandlerContext>, p: set<int>)
    requires h.Keys == r.Keys - p
    requires forall k :: k in h ==> h[k] == r[k]
    ensures h == r - p
  {
    assert h.Keys == (r - p).Keys;
    assert forall k :: k in h ==> h[k] == (r - p)[k];
  }

  /**
   * A fan-out that starts from a log in which no pending handler has run
   * leaves each pending handler it can invoke run exactly once.
   */
  lemma FanOutExactlyOnce(before: seq<Event>, order: seq<int>, registry: map<int, HandlerContext>,
                          pending: set<int>, sig: Signal)
    requires NoDuplicates(order) && (forall k :: k in order <==> k in registry)
    requires forall k :: k in registry ==> registry[k].id == k
    requires forall k :: k in pending ==> Runs(before, k) == 0
    ensures forall k :: k in pending ==>
      Runs(before + FanOut(order, registry, pending, sig) + [Exited(1)], k) ==
        if k in registry && Invokes(registry[k], Some(sig)) then 1 else 0
  {
    var fanOut := FanOut(order, registry, pending, sig);
    FanOutRuns(order, registry, pending, sig);
    RunsAppendAll(before, fanOut);
    RunsAppendAll(before + fanOut, [Exited(1)]);
    assert forall id :: Runs([Exited(1)], id) == 0;
  }

  /** No handler is ever called twice: the promise "invoked only once". */
  lemma InvokedAtMostOnce(p: Process, id: int)
    requires p.Valid()
    ensures Runs(p.output, id) <= 1
  {
  }
}
