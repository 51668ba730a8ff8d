/** The state machine of one agent (AbstractAgent), as functions on its state.
    Each function is one public operation of the agent; the Agent class in
    module Runtime performs the same operation on its fields and is proved
    against the function here. Calls the agent makes into code this model
    does not contain (application handlers, the strategy hooks onStart and
    onStop) are returned as a list of Calls; the router notification that a
    fault triggers is returned as `fault`. */
module AgentLogic {
  import opened Types

  /** An entry of the handler table: one of the three built-ins that setup()
      installs, or an application handler identified by `id`. */
  datatype Handler = InitBuiltin | StopBuiltin | RethrowBuiltin | AppHandler(id: nat)

  /** A call from the agent into code outside the model. */
  datatype Call = Handle(handler: nat, message: Message) | OnStart | OnStop

  /** What the application code run by one consume cycle does. */
  datatype HandlerOutcome = Returns | Throws(error: Error)

  /** The fields of an AbstractAgent that its own operations change. */
  datatype AgentState = AgentState(
    mailbox: seq<Message>,
    handlers: map<MessageType, Handler>,
    initHandler: Option<nat>,
    exitHandler: Option<nat>,
    status: Status,
    safeStatus: Option<Status>,   // None until the Init or Stop built-in sets it
    started: bool,
    stopped: bool,
    isSetup: bool,
    error: Option<Error>)

  /** A newly constructed agent: empty mailbox and handler table, status INIT,
      no error, safeStatus still null. */
  const NewAgent: AgentState :=
    AgentState([], map[], None, None, Init, None, false, false, false, None)

  /** Each built-in handler sits under the one message type it serves. */
  predicate BuiltinsInPlace(h: map<MessageType, Handler>) {
    forall t :: t in h ==>
      && (h[t] == InitBuiltin ==> t == InitType)
      && (h[t] == StopBuiltin ==> t == StopType)
      && (h[t] == RethrowBuiltin ==> t == ExceptionType)
  }

  /** STOPPED is only ever reached together with what keeps it: a recorded
      error, or a safeStatus of STOPPED. */
  predicate StatusKept(status: Status, safeStatus: Option<Status>, error: Option<Error>) {
    && (status == Stopped ==> error.Some? || safeStatus == Some(Stopped))
    && (safeStatus == Some(Stopped) ==> status == Stopped)
  }

  /** The agent invariant. */
  predicate Consistent(s: AgentState) {
    BuiltinsInPlace(s.handlers) && StatusKept(s.status, s.safeStatus, s.error)
  }

  // ---------------------------------------------------------------------------
  // Handler registration and setup
  // ---------------------------------------------------------------------------

  /** The state an operation leaves and whether it threw. */
  datatype Change = Change(state: AgentState, result: Outcome)

  /** registerHandler for any handler: the internal step of registerHandler
      (application handlers) and registerPrivateHandlers (the built-ins). */
  function Install(s: AgentState, t: MessageType, h: Handler): (r: Change)
    ensures r.result.Fail? <==> t in s.handlers
    ensures r.result.Fail? ==> r.state == s && r.result.error == AgentException(HandlerTaken(t))
    ensures r.result.Pass? ==> r.state == s.(handlers := s.handlers[t := h])
  {
    if t in s.handlers then Change(s, Fail(AgentException(HandlerTaken(t))))
    else Change(s.(handlers := s.handlers[t := h]), Pass)
  }

  /** registerHandler(messageType, handler): refused when that exact type
      already has a handler; otherwise adds exactly that one entry. */
  function RegisterHandler(s: AgentState, t: MessageType, id: nat): (r: Change)
    ensures r.result.Fail? <==> t in s.handlers
    ensures r.result.Pass? ==> r.state.handlers.Keys == s.handlers.Keys + {t}
    ensures r.result.Pass? ==> r.state.handlers[t] == AppHandler(id)
    ensures forall u :: u in s.handlers ==> u in r.state.handlers && r.state.handlers[u] == s.handlers[u]
    ensures r.state.(handlers := s.handlers) == s
    ensures BuiltinsInPlace(s.handlers) ==> BuiltinsInPlace(r.state.handlers)
  {
    Install(s, t, AppHandler(id))
  }

  /** registerInitHandler: refused when an init handler is already set. */
  function RegisterInitHandler(s: AgentState, id: nat): (r: Change)
    ensures r.result.Fail? <==> s.initHandler.Some?
    ensures r.result.Fail? ==> r.state == s && r.result.error == AgentException(InitHandlerTaken)
    ensures r.result.Pass? ==> r.state.initHandler == Some(id) && r.state.(initHandler := None) == s
  {
    if s.initHandler.Some? then Change(s, Fail(AgentException(InitHandlerTaken)))
    else Change(s.(initHandler := Some(id)), Pass)
  }

  /** registerExitHandler: refused when an exit handler is already set. */
  function RegisterExitHandler(s: AgentState, id: nat): (r: Change)
    ensures r.result.Fail? <==> s.exitHandler.Some?
    ensures r.result.Fail? ==> r.state == s && r.result.error == AgentException(ExitHandlerTaken)
    ensures r.result.Pass? ==> r.state.exitHandler == Some(id) && r.state.(exitHandler := None) == s
  {
    if s.exitHandler.Some? then Change(s, Fail(AgentException(ExitHandlerTaken)))
    else Change(s.(exitHandler := Some(id)), Pass)
  }

  /** setup(): registerPrivateHandlers installs the Init, Stop and Exception
      built-ins in that order, stopping at the first type already taken (the
      built-ins installed before it stay), and only then marks the agent set up.
      Whatever happens, an Init handler is present afterwards, so a second
      setup() always fails. */
  function Setup(s: AgentState): (r: Change)
    ensures r.result.Pass? <==>
      InitType !in s.handlers && StopType !in s.handlers && ExceptionType !in s.handlers
    ensures r.result.Pass? ==> r.state == s.(
      handlers := s.handlers[InitType := InitBuiltin][StopType := StopBuiltin][ExceptionType := RethrowBuiltin],
      isSetup := true)
    ensures r.result.Fail? ==> r.state.isSetup == s.isSetup
    // the first built-in type already taken is the one refused
    ensures r.result.Fail? ==> r.result.error == AgentException(HandlerTaken(
      if InitType in s.handlers then InitType else if StopType in s.handlers then StopType else ExceptionType))
    // the built-ins before it stay installed, and nothing else is added
    ensures r.result.Fail? ==>
      r.state.handlers == (if InitType in s.handlers then s.handlers
                           else if StopType in s.handlers then s.handlers[InitType := InitBuiltin]
                           else s.handlers[InitType := InitBuiltin][StopType := StopBuiltin])
    ensures InitType in r.state.handlers
    ensures r.state.(handlers := s.handlers, isSetup := s.isSetup) == s
    ensures Consistent(s) ==> Consistent(r.state)
  {
    var i := Install(s, InitType, InitBuiltin);
    if i.result.Fail? then i else
    var t := Install(i.state, StopType, StopBuiltin);
    if t.result.Fail? then t else
    var e := Install(t.state, ExceptionType, RethrowBuiltin);
    if e.result.Fail? then e else
    Change(e.state.(isSetup := true), Pass)
  }

  // ---------------------------------------------------------------------------
  // Mailbox and consume cycle
  // ---------------------------------------------------------------------------

  /** submitMessage: the message joins the mailbox at the tail. */
  function Submit(s: AgentState, m: Message): (r: AgentState)
    ensures r.mailbox == s.mailbox + [m] && r.(mailbox := s.mailbox) == s
  {
    s.(mailbox := s.mailbox + [m])
  }

  /** The result of one consume cycle: the new state, the calls made into
      application code and hooks (in order), and the error reported to the
      router through signalError, if the cycle faulted. */
  datatype Cycle = Cycle(state: AgentState, calls: seq<Call>, fault: Option<Error>)

  /** The catch block of consumeMessage: status STOPPED, the error recorded
      (overwriting any earlier one), safeStatus left as it is. */
  function Fault(s: AgentState, calls: seq<Call>, e: Error): Cycle {
    Cycle(s.(status := Stopped, error := Some(e)), calls, Some(e))
  }

  /** Application code that has been called: it returns, or its exception is a fault. */
  function Invoke(s: AgentState, calls: seq<Call>, outcome: HandlerOutcome): Cycle {
    match outcome
    case Returns => Cycle(s, calls, None)
    case Throws(e) => Fault(s, calls, e)
  }

  /** Runs handler h, the table entry for the exact type of message m. */
  function Dispatch(s: AgentState, h: Handler, m: Message, outcome: HandlerOutcome): (c: Cycle)
    requires BuiltinsInPlace(s.handlers) && TypeOf(m) in s.handlers && s.handlers[TypeOf(m)] == h
    requires !m.ErrorMessage?
    ensures c.state.(status := s.status, safeStatus := s.safeStatus, error := s.error) == s
    ensures c.fault.Some? ==> c.state.status == Stopped && c.state.error == c.fault
    ensures c.fault.None? ==> c.state.error == s.error
    ensures StatusKept(s.status, s.safeStatus, s.error) ==>
              StatusKept(c.state.status, c.state.safeStatus, c.state.error)
    ensures |c.calls| <= 2
  {
    match h
    case AppHandler(id) => Invoke(s, [Handle(id, m)], outcome)
    case InitBuiltin =>
      var running := s.(status := Running, safeStatus := Some(Running));
      if s.initHandler.Some? then Invoke(running, [Handle(s.initHandler.value, m)], outcome)
      else Cycle(running, [], None)
    case StopBuiltin =>
      var stopped := s.(status := Stopped, safeStatus := Some(Stopped));
      if s.exitHandler.None? then Cycle(stopped, [OnStop], None)
      else if outcome.Throws? then Fault(stopped, [Handle(s.exitHandler.value, m)], outcome.error)
      else Cycle(stopped, [Handle(s.exitHandler.value, m), OnStop], None)
    case RethrowBuiltin =>
      // Exception messages are intercepted before the lookup.
      assert false; Cycle(s, [], None)
  }

  /** consumeMessage: takes the head of the mailbox and
      - fails with "already failed" if an error is recorded,
      - drops the message if safeStatus is STOPPED,
      - treats an exception message as a fault,
      - runs the handler for the message's exact type, or faults with
        UnknownAgentMessage when there is none.
      A fault sets status to STOPPED, records the error and reports it. */
  function Consume(s: AgentState, outcome: HandlerOutcome): (c: Cycle)
    requires |s.mailbox| > 0 && BuiltinsInPlace(s.handlers)
    // exactly the head leaves the mailbox, whatever branch runs
    ensures c.state.mailbox == s.mailbox[1..]
    // the cycle changes no handler and no lifecycle flag
    ensures c.state.(mailbox := s.mailbox, status := s.status, safeStatus := s.safeStatus,
                     error := s.error) == s
    // a fault stops the agent and records the error that is reported
    ensures c.fault.Some? ==> c.state.status == Stopped && c.state.error == c.fault
    ensures c.fault.None? ==> c.state.error == s.error
    // an error is never cleared; a failed agent runs no code and reports again
    ensures s.error.Some? ==>
      && c.calls == [] && c.fault == Some(AgentException(AlreadyFailed))
      && c.state.status == Stopped && c.state.safeStatus == s.safeStatus
    // a stopped agent drops the message: nothing runs, nothing is reported
    ensures s.error.None? && s.safeStatus == Some(Stopped) ==>
      c.calls == [] && c.fault == None && c.state == s.(mailbox := s.mailbox[1..])
    // an exception message is a fault, with safeStatus untouched
    ensures s.error.None? && s.safeStatus != Some(Stopped) && s.mailbox[0].ErrorMessage? ==>
      && c.calls == [] && c.fault == Some(s.mailbox[0].error)
      && c.state.status == Stopped && c.state.safeStatus == s.safeStatus
    // a message whose exact type has no handler is a fault, with safeStatus untouched
    ensures s.error.None? && s.safeStatus != Some(Stopped) && !s.mailbox[0].ErrorMessage?
            && TypeOf(s.mailbox[0]) !in s.handlers ==>
      && c.calls == [] && c.fault == Some(UnknownAgentMessage(s.mailbox[0]))
      && c.state.status == Stopped && c.state.safeStatus == s.safeStatus
    // at most the handler and the stop hook run
    ensures |c.calls| <= 2
    ensures Consistent(s) ==> Consistent(c.state)
  {
    var m := s.mailbox[0];
    var rest := s.(mailbox := s.mailbox[1..]);
    if rest.error.Some? then Fault(rest, [], AgentException(AlreadyFailed))
    else if rest.safeStatus == Some(Stopped) then Cycle(rest, [], None)
    else if m.ErrorMessage? then Fault(rest, [], m.error)
    else if TypeOf(m) !in rest.handlers then Fault(rest, [], UnknownAgentMessage(m))
    else Dispatch(rest, rest.handlers[TypeOf(m)], m, outcome)
  }

  /** The Init built-in after setup(): both status fields become RUNNING, then
      the init handler, if any, is called once with the message. */
  lemma ConsumeInit(s: AgentState, outcome: HandlerOutcome)
    requires |s.mailbox| > 0 && s.mailbox[0] == InitAgent && Consistent(s)
    requires s.error.None? && s.safeStatus != Some(Stopped)
    requires InitType in s.handlers && s.handlers[InitType] == InitBuiltin
    ensures var c := Consume(s, outcome);
      && c.state.safeStatus == Some(Running)
      && c.calls == (if s.initHandler.Some? then [Handle(s.initHandler.value, InitAgent)] else [])
      && (c.fault.None? <==> s.initHandler.None? || outcome.Returns?)
      && (c.fault.None? ==> c.state.status == Running)
  {
  }

  /** The Stop built-in after setup(): both status fields become STOPPED, then
      the exit handler, if any, is called, then the onStop hook. */
  lemma ConsumeStop(s: AgentState, cause: string, outcome: HandlerOutcome)
    requires |s.mailbox| > 0 && s.mailbox[0] == StopAgent(cause) && Consistent(s)
    requires s.error.None? && s.safeStatus != Some(Stopped)
    requires StopType in s.handlers && s.handlers[StopType] == StopBuiltin
    ensures var c := Consume(s, outcome);
      && c.state.status == Stopped && c.state.safeStatus == Some(Stopped)
      && (s.exitHandler.None? ==> c.calls == [OnStop] && c.fault.None?)
      && (s.exitHandler.Some? && outcome.Returns? ==>
            c.calls == [Handle(s.exitHandler.value, StopAgent(cause)), OnStop] && c.fault.None?)
      && (s.exitHandler.Some? && outcome.Throws? ==>
            c.calls == [Handle(s.exitHandler.value, StopAgent(cause))] && c.fault == Some(outcome.error))
  {
  }

  /** An application message with a handler for its exact type calls that
      handler once with the message and, if it returns, records no error. */
  lemma ConsumeApp(s: AgentState, cls: string, payload: int, outcome: HandlerOutcome)
    requires |s.mailbox| > 0 && s.mailbox[0] == AppMessage(cls, payload) && BuiltinsInPlace(s.handlers)
    requires s.error.None? && s.safeStatus != Some(Stopped)
    requires AppType(cls) in s.handlers && s.handlers[AppType(cls)].AppHandler?
    ensures var c := Consume(s, outcome);
      && c.calls == [Handle(s.handlers[AppType(cls)].id, AppMessage(cls, payload))]
      && c.state.safeStatus == s.safeStatus
      && (outcome.Returns? ==> c.fault.None? && c.state.error.None? && c.state.status == s.status)
      && (outcome.Throws? ==> c.fault == Some(outcome.error) && c.state.status == Stopped)
  {
  }

  /** The result of several consume cycles in a row: the final state, every
      call made, and every error reported to the router, in order. */
  datatype Run = Run(state: AgentState, calls: seq<Call>, faults: seq<Error>)

  /** |outcomes| consume cycles, the i-th running its application code with outcomes[i]. */
  function ConsumeAll(s: AgentState, outcomes: seq<HandlerOutcome>): (r: Run)
    requires |outcomes| <= |s.mailbox| && BuiltinsInPlace(s.handlers)
    ensures r.state.mailbox == s.mailbox[|outcomes|..]
    ensures BuiltinsInPlace(r.state.handlers) && r.state.handlers == s.handlers
    ensures s.error.Some? ==> r.state.error.Some?
    ensures Consistent(s) ==> Consistent(r.state)
    decreases |outcomes|
  {
    if outcomes == [] then Run(s, [], [])
    else
      var c := Consume(s, outcomes[0]);
      var r := ConsumeAll(c.state, outcomes[1..]);
      Run(r.state,
          c.calls + r.calls,
          (if c.fault.Some? then [c.fault.value] else []) + r.faults)
  }

  /** The error of AlreadyFailed, repeated n times. */
  function AlreadyFailedTimes(n: nat): seq<Error> {
    seq(n, _ => AgentException(AlreadyFailed))
  }

  /** Once an error is recorded it stays: every later cycle runs no code,
      leaves status STOPPED and reports "already failed" to the router again. */
  lemma {:induction false} FailedStaysFailed(s: AgentState, outcomes: seq<HandlerOutcome>)
    requires |outcomes| <= |s.mailbox| && BuiltinsInPlace(s.handlers) && s.error.Some?
    requires |outcomes| > 0 || s.status == Stopped
    ensures var r := ConsumeAll(s, outcomes);
      && r.calls == []
      && r.state.status == Stopped && r.state.error.Some?
      && r.state.safeStatus == s.safeStatus
      && r.faults == AlreadyFailedTimes(|outcomes|)
    decreases |outcomes|
  {
    if outcomes != [] {
      var c := Consume(s, outcomes[0]);
      FailedStaysFailed(c.state, outcomes[1..]);
    }
  }

  /** After the Stop built-in has run (safeStatus STOPPED) and with no error,
      every message is dropped: nothing runs, nothing is reported, and the
      state is unchanged but for the mailbox. */
  lemma {:induction false} StoppedDropsAll(s: AgentState, outcomes: seq<HandlerOutcome>)
    requires |outcomes| <= |s.mailbox| && BuiltinsInPlace(s.handlers)
    requires s.error.None? && s.safeStatus == Some(Stopped)
    ensures var r := ConsumeAll(s, outcomes);
      r.calls == [] && r.faults == [] && r.state == s.(mailbox := s.mailbox[|outcomes|..])
    decreases |outcomes|
  {
    if outcomes != [] {
      var c := Consume(s, outcomes[0]);
      StoppedDropsAll(c.state, outcomes[1..]);
    }
  }

  /** STOPPED is terminal: a consistent stopped agent stays stopped through any
      number of cycles. */
  lemma {:induction false} StoppedIsTerminal(s: AgentState, outcomes: seq<HandlerOutcome>)
    requires |outcomes| <= |s.mailbox| && Consistent(s) && s.status == Stopped
    ensures ConsumeAll(s, outcomes).state.status == Stopped
    decreases |outcomes|
  {
    if outcomes != [] {
      var c := Consume(s, outcomes[0]);
      StoppedIsTerminal(c.state, outcomes[1..]);
    }
  }

  /** The mailbox is FIFO: a message submitted behind n others is the head once
      those n have been consumed, whatever they did. */
  lemma SubmittedComesNext(s: AgentState, m: Message, outcomes: seq<HandlerOutcome>)
    requires |outcomes| == |s.mailbox| && BuiltinsInPlace(s.handlers)
    ensures ConsumeAll(Submit(s, m), outcomes).state.mailbox == [m]
  {
    assert Submit(s, m).mailbox[|outcomes|..] == [m];
  }

  // ---------------------------------------------------------------------------
  // Lifecycle: start and stop
  // ---------------------------------------------------------------------------

  /** The result of start() or stopWithError(): the new state, whether the
      router was signalled, the hook calls made, and what the call threw. */
  datatype Lifecycle = Lifecycle(state: AgentState, result: Outcome, signalled: bool, calls: seq<Call>)

  /** start(): refused before setup(); only the first call sets `started`,
      signals the router (whose answer is `signal`), and, if the router accepts,
      enqueues Init and calls onStart. */
  function Start(s: AgentState, signal: Outcome): (r: Lifecycle)
    ensures !s.isSetup ==> r == Lifecycle(s, Fail(AgentException(NotSetUp)), false, [])
    ensures r.signalled <==> s.isSetup && !s.started
    ensures !r.signalled ==> r.state == s && r.calls == []
    ensures r.signalled ==> r.state.started && r.result == signal
    ensures r.signalled && signal.Pass? ==>
      r.state == s.(started := true, mailbox := s.mailbox + [InitAgent]) && r.calls == [OnStart]
    ensures r.signalled && signal.Fail? ==> r.state == s.(started := true) && r.calls == []
    ensures s.isSetup && s.started ==> r.result == Pass
  {
    if !s.isSetup then Lifecycle(s, Fail(AgentException(NotSetUp)), false, [])
    else if s.started then Lifecycle(s, Pass, false, [])
    else if signal.Fail? then Lifecycle(s.(started := true), signal, true, [])
    else Lifecycle(s.(started := true, mailbox := s.mailbox + [InitAgent]), Pass, true, [OnStart])
  }

  /** stopWithError(cause): refused before start(); only the first call sets
      `stopped`, signals the router and, if the router accepts, enqueues a Stop
      message. The message carries "Normal stop call" whatever `cause` is. */
  function StopWithError(s: AgentState, cause: string, signal: Outcome): (r: Lifecycle)
    ensures !s.started ==> r == Lifecycle(s, Fail(AgentException(NotStarted)), false, [])
    ensures r.signalled <==> s.started && !s.stopped
    ensures !r.signalled ==> r.state == s
    ensures r.signalled ==> r.state.stopped && r.result == signal
    ensures r.signalled && signal.Pass? ==>
      r.state == s.(stopped := true, mailbox := s.mailbox + [StopAgent(NormalStopCause)])
    ensures r.signalled && signal.Fail? ==> r.state == s.(stopped := true)
    ensures r.calls == []
    ensures s.started && s.stopped ==> r.result == Pass
  {
    if !s.started then Lifecycle(s, Fail(AgentException(NotStarted)), false, [])
    else if s.stopped then Lifecycle(s, Pass, false, [])
    else if signal.Fail? then Lifecycle(s.(stopped := true), signal, true, [])
    else Lifecycle(s.(stopped := true, mailbox := s.mailbox + [StopAgent(NormalStopCause)]), Pass, true, [])
  }

  /** start() is idempotent once set up: a second call, whatever the router
      would answer, changes nothing and signals nothing. */
  lemma StartIdempotent(s: AgentState, first: Outcome, second: Outcome)
    requires s.isSetup
    ensures var r := Start(Start(s, first).state, second);
      r.state == Start(s, first).state && !r.signalled && r.calls == [] && r.result == Pass
  {
  }

  /** stopWithError is idempotent once started, and its cause never matters. */
  lemma StopIdempotent(s: AgentState, c1: string, c2: string, first: Outcome, second: Outcome)
    requires s.started
    ensures var r := StopWithError(StopWithError(s, c1, first).state, c2, second);
      r.state == StopWithError(s, c1, first).state && !r.signalled && r.result == Pass
    ensures StopWithError(s, c1, first) == StopWithError(s, c2, first)
  {
  }
}
