/**
 * The test programs of the repository, driven the way the process-level
 * tests drive them: each method builds a fresh process, replays the
 * program's calls (a deferred trigger becomes a call at the point the
 * function returns, a signal sent during a sleep becomes Deliver), and
 * returns what the process made observable.
 */
module Scenarios {
  import opened Finally

  /** A sequence without duplicates has as many elements as it has distinct values. */
  lemma {:induction false} DistinctCount(s: seq<int>)
    requires NoDuplicates(s)
    ensures |set x | x in s| == |s|
  {
    if s != [] {
      var n := |s| - 1;
      var prefix := s[..n];
      assert NoDuplicates(prefix);
      DistinctCount(prefix);
      assert s == prefix + [s[n]];
      assert (set x | x in s) == (set x | x in prefix) + {s[n]};
      assert s[n] !in prefix;
    }
  }

  /** A fan-out that visits exactly one key visits it once. */
  lemma OrderOfOne(order: seq<int>, k: int)
    requires NoDuplicates(order)
    requires forall j :: j in order <==> j == k
    ensures order == [k]
  {
    DistinctCount(order);
    assert (set x | x in order) == {k};
    assert order[0] in order;
  }

  /** The default hook relays Interrupt and SIGTERM. */
  lemma DefaultHookListens(p: Process, sig: Signal)
    requires p.listeners == [Subscribed(None)]
    requires sig == Interrupt || sig == SigTerm
    ensures p.Listening(sig)
  {
    assert Relays(p.listeners[0], sig);
  }

  /** A fresh process with the default hook and one handler wrapped. */
  method OneHandler(h: FinallyHandler) returns (p: Process, f: HandlerContext)
    ensures fresh(p) && fresh(f)
    ensures p.Valid() && p.Alive() && p.listeners == [Subscribed(None)] && p.output == []
    ensures p.contexts == map[1 := f] && p.handlers == p.contexts && p.Pending() == {1} && f.id == 1
    ensures f.handler == Some(h) && !f.acceptArgument && f.hasStackTrace
  {
    p := new Process();
    p.RegisterShutdownHook(None);
    f := p.Wrap(Some(h));
  }

  /**
   * tests/simple.go: one wrapped handler, triggered by its deferred call
   * on normal exit, or by a signal that arrives while the program sleeps.
   * Either way "Triggered" is printed once.
   */
  method Simple(sig: Option<Signal>) returns (out: seq<Event>)
    requires sig.None? || sig == Some(Interrupt) || sig == Some(SigTerm)
    ensures Runs(out, 1) == 1
    ensures out == if sig.None? then [HandlerRan(1)] else [HandlerRan(1), Exited(1)]
  {
    var p, f := OneHandler(() => Returned);
    if sig.Some? {
      DefaultHookListens(p, sig.value);
      var relayed;
      ghost var order;
      relayed, order := p.Deliver(sig.value);
      OrderOfOne(order, 1);
    } else {
      p.ExecuteNoSig(f);
    }
    out := p.output;
  }

  /** A fresh process with the default hook and three handlers wrapped one after another. */
  method ThreeHandlers(h1: FinallyHandler, h2: FinallyHandler, h3: FinallyHandler)
    returns (p: Process, f1: HandlerContext, f2: HandlerContext, f3: HandlerContext)
    ensures fresh(p) && fresh(f1) && fresh(f2) && fresh(f3)
    ensures p.Valid() && p.Alive() && p.listeners == [Subscribed(None)] && p.output == []
    ensures p.contexts == map[1 := f1, 2 := f2, 3 := f3] && p.handlers == p.contexts
    ensures p.Pending() == {1, 2, 3} && f1.id == 1 && f2.id == 2 && f3.id == 3
    ensures f1.handler == Some(h1) && f2.handler == Some(h2) && f3.handler == Some(h3)
    ensures !f1.acceptArgument && !f2.acceptArgument && !f3.acceptArgument
    ensures f1.hasStackTrace && f2.hasStackTrace && f3.hasStackTrace
  {
    p := new Process();
    p.RegisterShutdownHook(None);
    f1 := p.Wrap(Some(h1));
    assert p.Pending() == {1} && p.handlers == map[1 := f1];
    f2 := p.Wrap(Some(h2));
    assert p.Pending() == {1, 2} && p.handlers == map[1 := f1, 2 := f2];
    f3 := p.Wrap(Some(h3));
  }

  /** A fan-out that visits a pending plain handler shows its call. */
  lemma RanInFanOut(order: seq<int>, registry: map<int, HandlerContext>, pending: set<int>, sig: Signal, k: int)
    requires k in order && k in pending && k in registry
    requires registry[k].id == k && !registry[k].acceptArgument && registry[k].handler.Some?
    ensures HandlerRan(k) in FanOut(order, registry, pending, sig)
  {
    FanOutIncludes(order, registry, pending, sig, k);
    assert Effects(registry[k], Some(sig))[0] == HandlerRan(k);
  }

  /** A fan-out that visits a pending plain handler which panics shows the report with its trace. */
  lemma PanicInFanOut(order: seq<int>, registry: map<int, HandlerContext>, pending: set<int>, sig: Signal,
                      k: int, v: string)
    requires k in order && k in pending && k in registry
    requires registry[k].id == k && !registry[k].acceptArgument && registry[k].handler.Some?
    requires registry[k].handler.value() == Panicked(v) && registry[k].hasStackTrace
    ensures PanicCaught(k, v) in FanOut(order, registry, pending, sig)
    ensures StackTracePrinted(k) in FanOut(order, registry, pending, sig)
  {
    FanOutIncludes(order, registry, pending, sig, k);
    var e := Effects(registry[k], Some(sig));
    assert e[1] == PanicCaught(k, v) && e[2] == StackTracePrinted(k);
  }

  /** What the interrupt fan-out over the three handlers of tests/panic.go shows, whatever its order. */
  lemma PanicFanOutShows(out: seq<Event>, order: seq<int>, registry: map<int, HandlerContext>, pending: set<int>,
                         f1: HandlerContext, f2: HandlerContext, f3: HandlerContext)
    requires NoDuplicates(order) && forall k :: k in order <==> k in registry
    requires registry == map[1 := f1, 2 := f2, 3 := f3] && pending == {1, 2, 3}
    requires f1.id == 1 && f2.id == 2 && f3.id == 3
    requires !f1.acceptArgument && !f2.acceptArgument && !f3.acceptArgument
    requires f1.hasStackTrace && f3.hasStackTrace
    requires f1.handler.Some? && f1.handler.value() == Panicked("Test Panic")
    requires f2.handler.Some?
    requires f3.handler.Some? && f3.handler.value() == Panicked("Test Panic")
    requires out == FanOut(order, registry, pending, Interrupt) + [Exited(1)]
    ensures Runs(out, 1) == 1 && Runs(out, 2) == 1 && Runs(out, 3) == 1
    ensures HandlerRan(2) in out
    ensures PanicCaught(1, "Test Panic") in out && StackTracePrinted(1) in out
    ensures PanicCaught(3, "Test Panic") in out && StackTracePrinted(3) in out
  {
    var fanOut := FanOut(order, registry, pending, Interrupt);
    FanOutRuns(order, registry, pending, Interrupt);
    RunsAppendAll(fanOut, [Exited(1)]);
    PanicInFanOut(order, registry, pending, Interrupt, 1, "Test Panic");
    RanInFanOut(order, registry, pending, Interrupt, 2);
    PanicInFanOut(order, registry, pending, Interrupt, 3, "Test Panic");
  }

  /**
   * tests/panic.go under an interrupt: two handlers panic and one prints
   * "Triggered". Every handler is called once, "Triggered" included, each
   * panic is reported with its stack trace, and the process exits with 1.
   */
  method PanickingSiblings() returns (out: seq<Event>)
    ensures Runs(out, 1) == 1 && Runs(out, 2) == 1 && Runs(out, 3) == 1
    ensures HandlerRan(2) in out
    ensures PanicCaught(1, "Test Panic") in out && StackTracePrinted(1) in out
    ensures PanicCaught(3, "Test Panic") in out && StackTracePrinted(3) in out
    ensures |out| > 0 && out[|out| - 1] == Exited(1)
  {
    var p, f1, f2, f3 := ThreeHandlers(() => Panicked("Test Panic"), () => Returned, () => Panicked("Test Panic"));
    DefaultHookListens(p, Interrupt);
    var relayed;
    ghost var order;
    ghost var registry, pending := p.handlers, p.Pending();
    relayed, order := p.Deliver(Interrupt);
    out := p.output;
    assert out == FanOut(order, registry, pending, Interrupt) + [Exited(1)];
    PanicFanOutShows(out, order, registry, pending, f1, f2, f3);
  }

  /** tests/order.go on normal exit: the deferred triggers run the handlers in reverse order. */
  method OrderOnExit() returns (out: seq<Event>)
    ensures out == [HandlerRan(3), HandlerRan(2), HandlerRan(1)]
  {
    var p, f1, f2, f3 := ThreeHandlers(() => Returned, () => Returned, () => Returned);
    p.ExecuteNoSig(f3);
    assert p.output == [HandlerRan(3)];
    p.ExecuteNoSig(f2);
    assert p.output == [HandlerRan(3), HandlerRan(2)];
    p.ExecuteNoSig(f1);
    out := p.output;
  }

  /**
   * tests/simple.go killed by SIGKILL: no listener can receive the signal,
   * so no handler runs, nothing is printed and the registry is untouched.
   */
  method KilledUncatchably() returns (relayed: bool, out: seq<Event>)
    ensures !relayed && out == []
  {
    var p, f := OneHandler(() => Returned);
    ghost var order;
    relayed, order := p.Deliver(SigKill);
    out := p.output;
  }

  /**
   * tests/order.go under an interrupt: each handler runs once, in the
   * registry's unspecified order, before the exit.
   */
  method OrderOnSignal() returns (out: seq<Event>)
    ensures Runs(out, 1) == 1 && Runs(out, 2) == 1 && Runs(out, 3) == 1
    ensures |out| > 0 && out[|out| - 1] == Exited(1)
  {
    var p, f1, f2, f3 := ThreeHandlers(() => Returned, () => Returned, () => Returned);
    DefaultHookListens(p, Interrupt);
    var relayed;
    ghost var order;
    relayed, order := p.Deliver(Interrupt);
    out := p.output;
  }

  /**
   * tests/cleanup.go with the signal arriving after `sub` has returned: the
   * handler triggered by the deferred call is not run again by the fan-out.
   */
  method ManualTriggerThenSignal() returns (out: seq<Event>)
    ensures out == [HandlerRan(1), Exited(1)]
  {
    var p, f := OneHandler(() => Returned);
    p.ExecuteNoSig(f);
    assert p.output == [HandlerRan(1)] && p.Pending() == {};
    DefaultHookListens(p, Interrupt);
    var relayed;
    ghost var order;
    relayed, order := p.Deliver(Interrupt);
    assert order == [];
    out := p.output;
  }

  /**
   * A signal arriving while a manual trigger is still running the handler:
   * the fan-out does not wait for it nor run it again, and the exit cuts it
   * short.
   */
  method SignalWhileTriggerRuns() returns (out: seq<Event>)
    ensures out == [Exited(1)]
  {
    var p, f := OneHandler(() => Returned);
    var won := p.Claim(f);
    DefaultHookListens(p, Interrupt);
    assert p.Pending() == {};
    var relayed;
    ghost var order;
    relayed, order := p.Deliver(Interrupt);
    OrderOfOne(order, 1);
    out := p.output;
  }

  /** A fresh process, without a hook, that wraps `h` twice. */
  method TwoWrapsOf(h: FinallyHandler) returns (p: Process, f1: HandlerContext, f2: HandlerContext)
    ensures fresh(p) && fresh(f1) && fresh(f2)
    ensures p.Valid() && p.Alive() && p.output == []
    ensures p.contexts == map[1 := f1, 2 := f2] && p.handlers == p.contexts
    ensures f1.id == 1 && f2.id == 2 && f1.isExecuted == 0 && f2.isExecuted == 0
    ensures f1.handler == Some(h) && f2.handler == Some(h) && !f1.acceptArgument && !f2.acceptArgument
  {
    p := new Process();
    f1 := p.Wrap(Some(h));
    f2 := p.Wrap(Some(h));
  }

  /** Wrapping the same function twice gives two contexts, each run once however often it is triggered. */
  method WrapTwice() returns (out: seq<Event>)
    ensures out == [HandlerRan(1), HandlerRan(2)]
  {
    var p, f1, f2 := TwoWrapsOf(() => Returned);
    p.ExecuteNoSig(f1);
    assert p.output == [HandlerRan(1)];
    p.ExecuteNoSig(f2);
    assert p.output == [HandlerRan(1), HandlerRan(2)];
    p.ExecuteNoSig(f1);
    out := p.output;
  }

  /**
   * The trigger of a WrapSig context passes a nil signal pointer, whose
   * dereference panics: the signal handler is never called and the panic
   * is reported instead.
   */
  method ManualTriggerOfWrapSig() returns (out: seq<Event>)
    ensures out == [PanicCaught(1, NilDereference), StackTracePrinted(1)]
    ensures Runs(out, 1) == 0
  {
    var p := new Process();
    var f := p.WrapSig(Some((s: Signal) => Returned));
    assert f.id == 1 && f.hasStackTrace && p.output == [];
    p.ExecuteNoSig(f);
    out := p.output;
    assert out == Effects(f, None);
  }

  /** A fresh process without stack traces, listening for `sig` only, with one signal handler wrapped. */
  method OneSigHandler(sig: Signal, h: FinallyHandlerSig) returns (p: Process, f: HandlerContext)
    requires Catchable(sig)
    ensures fresh(p) && fresh(f)
    ensures p.Valid() && p.Alive() && p.Listening(sig) && p.output == []
    ensures p.contexts == map[1 := f] && p.handlers == p.contexts && p.Pending() == {1} && f.id == 1
    ensures f.sigHandler == Some(h) && f.acceptArgument && !f.hasStackTrace
  {
    p := new Process();
    p.SetRecordStackTrace(false);
    p.RegisterShutdownHook(Some([sig]));
    assert Relays(p.listeners[0], sig);
    f := p.WrapSig(Some(h));
  }

  /** A WrapSig handler triggered by a subscribed signal receives that signal. */
  method SignalHandlerReceivesSignal(sig: Signal) returns (out: seq<Event>)
    requires Catchable(sig)
    ensures out == [SigHandlerRan(1, sig), Exited(1)]
  {
    var p, f := OneSigHandler(sig, (s: Signal) => Returned);
    var relayed;
    ghost var order;
    relayed, order := p.Deliver(sig);
    OrderOfOne(order, 1);
    out := p.output;
  }
}
