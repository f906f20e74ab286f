/** The shutdown manager (shutdown.go): an ordered list of handlers, the
    `Func` wrapper, and `Shutdown`, which reports every failure to the
    manager's error sink and carries on. */
module Shutdown {
  import opened Errors

  /** What one call of a `Handler` (a `func() error`) does: return an error
      or nil, or panic with a payload. */
  datatype Outcome = Done(err: Option<Error>) | Panic(payload: Payload)

  /** A handler, known by a tag that stands for its side effect (the
      tests' "called" flags and logs) and by what calling it does. */
  datatype Handler = Handler(tag: nat, outcome: Outcome)

  /** What one call of a plain `func()` does. */
  datatype Effect = Completes | Panics(payload: Payload)

  datatype Action = Action(tag: nat, effect: Effect)

  /** `Func`: the handler runs the action once and recovers any panic it
      raises through the normaliser, so it never panics itself. */
  function Func(fn: Action): (h: Handler)
    ensures h.tag == fn.tag
    ensures h.outcome.Done?
    ensures fn.effect.Completes? ==> h.outcome.err.None?
    ensures fn.effect.Panics? ==> h.outcome.err == Recover(fn.effect.payload)
  {
    match fn.effect
    case Completes => Handler(fn.tag, Done(None))
    case Panics(p) => Handler(fn.tag, Done(Recover(p)))
  }

  /** A wrapped action that panics with an error hands back that very error. */
  lemma FuncReturnsPanickedError(tag: nat, e: Error)
    ensures Func(Action(tag, Panics(ErrorValue(e)))) == Handler(tag, Done(Some(e)))
  {
  }

  /** The index of the first handler whose call panics, or `|hs|` if none does. */
  function FirstPanic(hs: seq<Handler>): (k: nat)
    ensures k <= |hs|
    ensures forall j :: 0 <= j < k ==> hs[j].outcome.Done?
    ensures k < |hs| ==> hs[k].outcome.Panic?
  {
    if hs == [] then 0
    else if hs[0].outcome.Panic? then 0
    else 1 + FirstPanic(hs[1..])
  }

  /** The errors the handlers return, in handler order. */
  function Failures(hs: seq<Handler>): seq<Error> {
    if hs == [] then []
    else
      (match hs[0].outcome
       case Done(Some(e)) => [e]
       case _ => []) + Failures(hs[1..])
  }

  /** The handlers a shutdown calls: all of them up to and including the
      first one that panics. */
  function Invoked(hs: seq<Handler>): seq<Handler> {
    if FirstPanic(hs) < |hs| then hs[..FirstPanic(hs) + 1] else hs
  }

  /** The panic that leaves a shutdown, if a handler raised one. */
  function Escaped(hs: seq<Handler>): Option<Payload> {
    if FirstPanic(hs) < |hs| then Some(hs[FirstPanic(hs)].outcome.payload) else None
  }

  /** What a shutdown hands to the sink: the normalised panic of its calling
      context, if any, then the errors of the handlers that ran. */
  function Reported(normalise: Payload -> Option<Error>, inFlight: Payload,
                    hs: seq<Handler>): seq<Error>
  {
    (match normalise(inFlight) case Some(e) => [e] case None => [])
    + Failures(hs[..FirstPanic(hs)])
  }

  /** Errors of earlier handlers are reported before those of later ones. */
  lemma {:induction false} FailuresAppend(a: seq<Handler>, b: seq<Handler>)
    ensures Failures(a + b) == Failures(a) + Failures(b)
    decreases |a|
  {
    if a == [] {
      assert a + b == b;
    } else {
      assert (a + b)[0] == a[0];
      assert (a + b)[1..] == a[1..] + b;
      FailuresAppend(a[1..], b);
    }
  }

  /** One more handler called: its error, if it returns one, follows the
      errors of those before it. */
  lemma FailuresStep(hs: seq<Handler>, i: nat)
    requires i < |hs|
    ensures Failures(hs[..i + 1]) ==
              Failures(hs[..i]) + (match hs[i].outcome case Done(Some(e)) => [e] case _ => [])
  {
    assert hs[..i + 1] == hs[..i] + [hs[i]];
    FailuresAppend(hs[..i], [hs[i]]);
  }

  /** Where the loop of a shutdown stops: at the first handler that panics,
      or after the last handler. */
  lemma ShutdownStops(hs: seq<Handler>, i: nat)
    requires i <= FirstPanic(hs)
    requires i < |hs| ==> hs[i].outcome.Panic?
    ensures i == FirstPanic(hs)
    ensures i < |hs| ==> Invoked(hs) == hs[..i + 1] && Escaped(hs) == Some(hs[i].outcome.payload)
    ensures i == |hs| ==> Invoked(hs) == hs[..i] && Escaped(hs) == None
  {
  }

  /** An error is among the failures exactly when some handler returns it. */
  lemma {:induction false} FailuresContain(hs: seq<Handler>, e: Error)
    ensures e in Failures(hs) <==> exists k :: 0 <= k < |hs| && hs[k].outcome == Done(Some(e))
    decreases |hs|
  {
    if hs != [] {
      FailuresContain(hs[1..], e);
      if e in Failures(hs[1..]) {
        var k :| 0 <= k < |hs[1..]| && hs[1..][k].outcome == Done(Some(e));
        assert hs[k + 1].outcome == Done(Some(e));
      }
      if exists k :: 0 <= k < |hs| && hs[k].outcome == Done(Some(e)) {
        var k :| 0 <= k < |hs| && hs[k].outcome == Done(Some(e));
        if k > 0 {
          assert hs[1..][k - 1].outcome == Done(Some(e));
        }
      }
    }
  }

  /** Handlers that only return nil report nothing. */
  lemma {:induction false} FailuresOfQuietHandlers(hs: seq<Handler>)
    requires forall k :: 0 <= k < |hs| ==> hs[k].outcome == Done(None)
    ensures Failures(hs) == []
    decreases |hs|
  {
    if hs != [] {
      FailuresOfQuietHandlers(hs[1..]);
    }
  }

  /** Isolate and continue: a handler returning an error never stops the
      shutdown, so when no handler panics every handler is called and every
      error any of them returns is reported. */
  lemma ErrorsDoNotStopShutdown(normalise: Payload -> Option<Error>, inFlight: Payload,
                                hs: seq<Handler>, e: Error)
    requires forall k :: 0 <= k < |hs| ==> hs[k].outcome.Done?
    ensures Invoked(hs) == hs && Escaped(hs) == None
    ensures (exists k :: 0 <= k < |hs| && hs[k].outcome == Done(Some(e))) ==>
              e in Reported(normalise, inFlight, hs)
  {
    assert hs[..FirstPanic(hs)] == hs;
    FailuresContain(hs, e);
  }

  /** Exactly the errors of the context panic and of the handlers before the
      first raw panic are reported. */
  lemma ReportedContain(normalise: Payload -> Option<Error>, inFlight: Payload,
                        hs: seq<Handler>, e: Error)
    ensures e in Reported(normalise, inFlight, hs) <==>
              normalise(inFlight) == Some(e) ||
              exists k :: 0 <= k < FirstPanic(hs) && hs[k].outcome == Done(Some(e))
  {
    var ran := hs[..FirstPanic(hs)];
    FailuresContain(ran, e);
    if exists k :: 0 <= k < FirstPanic(hs) && hs[k].outcome == Done(Some(e)) {
      var k :| 0 <= k < FirstPanic(hs) && hs[k].outcome == Done(Some(e));
      assert ran[k] == hs[k];
    }
  }

  /** Handlers made with `Func` never panic, so all of them run. */
  lemma WrappedHandlersAllRun(actions: seq<Action>, hs: seq<Handler>)
    requires |hs| == |actions|
    requires forall k :: 0 <= k < |hs| ==> hs[k] == Func(actions[k])
    ensures Invoked(hs) == hs && Escaped(hs) == None
  {
  }

  /** The facts the tests establish about the library normaliser used for the
      calling context: nothing in flight gives no error, and an error payload
      comes back unchanged. */
  ghost predicate StdlibRecoverLike(normalise: Payload -> Option<Error>) {
    normalise(Nil) == None &&
    forall e :: normalise(ErrorValue(e)) == Some(e)
  }

  /** The manager. `errorHandler` is public and may be replaced at any time. */
  class Manager {
    var handlers: seq<Handler>
    var errorHandler: ErrorSink

    /** `NewManager`: no handlers, the no-op sink. */
    constructor ()
      ensures handlers == []
      ensures fresh(errorHandler) && errorHandler.Valid()
      ensures !errorHandler.recording && errorHandler.errors == []
    {
      handlers := [];
      errorHandler := new ErrorSink.Noop();
    }

    /** `Register`: the new handlers go after the existing ones, in the order given. */
    method Register(hs: seq<Handler>)
      modifies this
      ensures handlers == old(handlers) + hs
      ensures errorHandler == old(errorHandler)
    {
      handlers := handlers + hs;
    }

    /** `RegisterAsFirst`: the new handlers, in the order given, go before all
        existing ones. */
    method RegisterAsFirst(hs: seq<Handler>)
      modifies this
      ensures handlers == hs + old(handlers)
      ensures errorHandler == old(errorHandler)
    {
      handlers := hs + handlers;
    }

    /** `Shutdown`. `normalise` is the library normaliser and `inFlight` what
        `recover()` yields in the calling context. Reports that error, if any,
        then calls the handlers in order, reporting each error returned. A
        handler that panics is not recovered: the loop ends and the panic is
        returned as `escaped`. `ran` lists the handlers called, in order. */
    method Shutdown(normalise: Payload -> Option<Error>, inFlight: Payload)
      returns (ran: seq<Handler>, escaped: Option<Payload>)
      requires errorHandler.Valid()
      modifies errorHandler
      ensures errorHandler.Valid()
      ensures handlers == old(handlers) && errorHandler == old(errorHandler)
      ensures ran == Invoked(handlers)
      ensures escaped == Escaped(handlers)
      ensures !errorHandler.recording ==> errorHandler.errors == old(errorHandler.errors)
      ensures errorHandler.recording ==>
                errorHandler.errors == old(errorHandler.errors) + Reported(normalise, inFlight, handlers)
    {
      var sink := errorHandler;
      var err := normalise(inFlight);
      if err.Some? {
        sink.Handle(err.value);
      }
      ghost var before := sink.errors;
      var hs := handlers;
      ran, escaped := [], None;
      var i := 0;
      while i < |hs|
        invariant i <= FirstPanic(hs)
        invariant ran == hs[..i]
        invariant sink.Valid()
        invariant !sink.recording ==> sink.errors == before
        invariant sink.recording ==> sink.errors == before + Failures(hs[..i])
      {
        var h := hs[i];
        ran := ran + [h];
        assert ran == hs[..i + 1];
        if h.outcome.Panic? {
          escaped := Some(h.outcome.payload);
          ShutdownStops(hs, i);
          return;
        }
        if h.outcome.err.Some? {
          sink.Handle(h.outcome.err.value);
        }
        FailuresStep(hs, i);
        i := i + 1;
      }
      ShutdownStops(hs, i);
    }
  }

  /** TestNewManager: an unconfigured manager reports nowhere, even when a
      handler fails. */
  method NewManagerReportsNowhere(normalise: Payload -> Option<Error>, e: Error)
    returns (recorded: seq<Error>)
    ensures recorded == []
  {
    var m := new Manager();
    m.Register([Handler(0, Done(Some(e)))]);
    var _, _ := m.Shutdown(normalise, Nil);
    recorded := m.errorHandler.errors;
  }

  /** TestManager_Register_ExecutedInOrder: handlers registered together run
      in the order given. */
  method RegisteredRunInOrder(normalise: Payload -> Option<Error>, a1: Action, a2: Action)
    returns (ran: seq<Handler>)
    ensures ran == [Func(a1), Func(a2)]
  {
    var m := new Manager();
    m.Register([Func(a1), Func(a2)]);
    var escaped;
    ran, escaped := m.Shutdown(normalise, Nil);
  }

  /** TestManager_RegisterAsFirst: a handler registered first runs first,
      whatever order the calls came in. */
  method RegisteredAsFirstRunsFirst(normalise: Payload -> Option<Error>, a1: Action, a2: Action)
    returns (ran: seq<Handler>)
    ensures ran == [Func(a1), Func(a2)]
  {
    var m := new Manager();
    m.Register([Func(a2)]);
    m.RegisterAsFirst([Func(a1)]);
    var escaped;
    ran, escaped := m.Shutdown(normalise, Nil);
  }

  /** TestManager_Shutdown: an empty manager with nothing in flight reports nothing. */
  method EmptyShutdownReportsNothing(normalise: Payload -> Option<Error>)
    returns (last: Option<Error>)
    requires StdlibRecoverLike(normalise)
    ensures last == None
  {
    var m := new Manager();
    var sink := new ErrorSink.Recorder();
    m.errorHandler := sink;
    var _, _ := m.Shutdown(normalise, Nil);
    last := sink.Last();
  }

  /** TestManager_Shutdown_HandleErrors: the error a handler returns is the
      one the sink last records. */
  method HandlerErrorReported(normalise: Payload -> Option<Error>, e: Error)
    returns (last: Option<Error>)
    ensures last == Some(e)
  {
    var m := new Manager();
    var sink := new ErrorSink.Recorder();
    m.errorHandler := sink;
    var hs := [Handler(0, Done(Some(e)))];
    m.Register(hs);
    assert m.handlers == hs;
    var _, _ := m.Shutdown(normalise, Nil);
    assert hs[..FirstPanic(hs)] == hs;
    assert Failures(hs) == [e];
    last := sink.Last();
  }

  /** TestManager_Shutdown_RecoverFromPanic: deferred during a panic with an
      error, the shutdown reports that error and the panic goes no further. */
  method ContextPanicReported(normalise: Payload -> Option<Error>, e: Error)
    returns (last: Option<Error>, escaped: Option<Payload>)
    requires StdlibRecoverLike(normalise)
    ensures last == Some(e)
    ensures escaped == None
  {
    var m := new Manager();
    var sink := new ErrorSink.Recorder();
    m.errorHandler := sink;
    var ran;
    ran, escaped := m.Shutdown(normalise, ErrorValue(e));
    last := sink.Last();
  }

  /** One failing handler does not keep a later one from running, and its
      error is reported. */
  method FailureThenFlag(normalise: Payload -> Option<Error>, e: Error, a: Action)
    returns (ran: seq<Handler>, recorded: seq<Error>)
    requires StdlibRecoverLike(normalise)
    requires a.effect.Completes?
    ensures ran == [Handler(0, Done(Some(e))), Func(a)]
    ensures recorded == [e]
  {
    var m := new Manager();
    var sink := new ErrorSink.Recorder();
    m.errorHandler := sink;
    var hs := [Handler(0, Done(Some(e))), Func(a)];
    m.Register(hs);
    assert m.handlers == hs;
    var escaped;
    ran, escaped := m.Shutdown(normalise, Nil);
    assert hs[..FirstPanic(hs)] == hs;
    assert Failures(hs[1..]) == [];
    recorded := sink.errors;
  }

  /** Shutdown keeps the handler list, so a second call runs every handler
      again and reports their errors again. */
  method ShutdownTwice(normalise: Payload -> Option<Error>, hs: seq<Handler>)
    returns (first: seq<Handler>, second: seq<Handler>, recorded: seq<Error>)
    ensures first == second == Invoked(hs)
    ensures recorded == Reported(normalise, Nil, hs) + Reported(normalise, Nil, hs)
  {
    var m := new Manager();
    var sink := new ErrorSink.Recorder();
    m.errorHandler := sink;
    m.Register(hs);
    assert m.handlers == hs;
    var escaped;
    first, escaped := m.Shutdown(normalise, Nil);
    second, escaped := m.Shutdown(normalise, Nil);
    recorded := sink.errors;
  }
}
