/** The agent runtime as objects: agents (AbstractAgent), the groups the
    router keeps (AgentGroup) and the router itself (Router). Every method is
    proved against the functions of AgentLogic, Registry and Barrier: the
    state it leaves is the state those functions compute from the state it
    found. Agents, groups and the router call each other, so they share one
    module. */
module Runtime {
  import opened Types
  import opened AgentLogic
  import Registry
  import Barrier

  // ---------------------------------------------------------------------------
  // Views of several agents at once
  // ---------------------------------------------------------------------------

  /** The agents of a list, as a set. */
  ghost function Members(xs: seq<Agent>): set<Agent> {
    set a | a in xs
  }

  /** The members of two lists one after the other are those of either. */
  lemma MembersConcat(xs: seq<Agent>, ys: seq<Agent>)
    ensures Members(xs + ys) == Members(xs) + Members(ys)
  {
    assert forall a :: a in xs + ys <==> a in xs || a in ys;
  }

  /** No agent occurs twice in xs. */
  ghost predicate Distinct(xs: seq<Agent>) {
    forall i, j :: 0 <= i < j < |xs| ==> xs[i] != xs[j]
  }

  /** A list without repetitions has as many members as entries. */
  lemma {:induction false} DistinctMembers(xs: seq<Agent>)
    requires Distinct(xs)
    ensures |Members(xs)| == |xs|
  {
    if xs != [] {
      var last := xs[|xs| - 1];
      var init := xs[..|xs| - 1];
      assert Distinct(init);
      DistinctMembers(init);
      assert Members(xs) == Members(init) + {last};
      assert last !in Members(init);
    }
  }

  /** Two lists without repetitions and without a common agent make one. */
  lemma DistinctConcat(xs: seq<Agent>, ys: seq<Agent>)
    requires Distinct(xs) && Distinct(ys)
    requires forall a :: a in ys ==> a !in xs
    ensures Distinct(xs + ys)
  {
    forall i, j | 0 <= i < j < |xs + ys|
      ensures (xs + ys)[i] != (xs + ys)[j]
    {
      if j >= |xs| && i < |xs| {
        assert ys[j - |xs|] in ys;
      }
    }
  }

  /** The agents of s that have not been started. */
  ghost function Idle(s: set<Agent>): set<Agent>
    reads s`started
  {
    set a | a in s && !a.started
  }

  /** The agents of s that have been started and not yet stopped. */
  ghost function Live(s: set<Agent>): set<Agent>
    reads s`started, s`stopped
  {
    set a | a in s && a.started && !a.stopped
  }

  /** The position of the first agent of xs that has not been set up, or |xs|. */
  ghost function FirstNotSetUp(xs: seq<Agent>): (i: nat)
    reads Members(xs)`isSetup
    ensures i <= |xs|
    ensures forall j :: 0 <= j < i ==> xs[j].isSetup
    ensures i < |xs| ==> !xs[i].isSetup
  {
    if xs == [] then 0
    else if !xs[0].isSetup then 0
    else 1 + FirstNotSetUp(xs[1..])
  }

  /** The first agent not set up is at k when all before k are set up and
      the one at k, if any, is not. */
  lemma FirstNotSetUpAt(xs: seq<Agent>, k: nat)
    requires k <= |xs| && (forall j :: 0 <= j < k ==> xs[j].isSetup)
    requires k < |xs| ==> !xs[k].isSetup
    ensures FirstNotSetUp(xs) == k && xs[..k] == xs[..FirstNotSetUp(xs)]
  {
  }

  /** The part of an agent that start() and stopWithError() change, as a value. */
  datatype Life = Life(started: bool, stopped: bool, mailbox: seq<Message>, calls: seq<Call>)

  ghost function LifeOf(a: Agent): Life
    reads a`started, a`stopped, a`mailbox, a`calls
  {
    Life(a.started, a.stopped, a.mailbox, a.calls)
  }

  /** A successful start(): an agent not yet started becomes started, gets the
      Init message at the tail of its mailbox and has onStart called; a started
      one is left as it is. */
  function StartLife(l: Life): Life {
    if l.started then l
    else l.(started := true, mailbox := l.mailbox + [InitAgent], calls := l.calls + [OnStart])
  }

  /** The part of an agent that stopWithError() changes, as a value. */
  datatype Halt = Halt(stopped: bool, mailbox: seq<Message>)

  ghost function HaltOf(a: Agent): Halt
    reads a`stopped, a`mailbox
  {
    Halt(a.stopped, a.mailbox)
  }

  /** stopWithError() on an agent its router knows: a started agent not yet
      stopped becomes stopped and gets the stop message at the tail of its
      mailbox; any other is left as it is (one never started refuses). */
  function StopHalt(started: bool, h: Halt): Halt {
    if started && !h.stopped then Halt(true, h.mailbox + [StopAgent(NormalStopCause)])
    else h
  }

  /** The agent has gone through a successful start() since the old state. */
  twostate predicate StartApplied(a: Agent)
    reads a`started, a`stopped, a`mailbox, a`calls
  {
    LifeOf(a) == StartLife(old(LifeOf(a)))
  }

  /** The agent has gone through stopWithError() since the old state. */
  twostate predicate StopApplied(a: Agent)
    reads a`started, a`stopped, a`mailbox
  {
    HaltOf(a) == StopHalt(old(a.started), old(HaltOf(a)))
  }

  /** The agent has not been stopped or sent anything. */
  twostate predicate Quiet(a: Agent)
    reads a`stopped, a`mailbox
  {
    HaltOf(a) == old(HaltOf(a))
  }

  /** The agent has not been started, stopped or sent anything. */
  twostate predicate Unmoved(a: Agent)
    reads a`started, a`stopped, a`mailbox, a`calls
  {
    LifeOf(a) == old(LifeOf(a))
  }

  /** Every agent of xs has gone through a successful start(). */
  twostate predicate StartedAll(xs: set<Agent>)
    reads xs`started, xs`stopped, xs`mailbox, xs`calls
  {
    forall a :: a in xs ==> StartApplied(a)
  }

  /** Every agent of xs has gone through stopWithError(). */
  twostate predicate StoppedAll(xs: set<Agent>)
    reads xs`started, xs`stopped, xs`mailbox
  {
    forall a :: a in xs ==> StopApplied(a)
  }

  /** No agent of xs has been stopped or sent anything. */
  twostate predicate AllQuiet(xs: set<Agent>)
    reads xs`stopped, xs`mailbox
  {
    forall a :: a in xs ==> Quiet(a)
  }

  /** No agent of xs has been started, stopped or sent anything. */
  twostate predicate Untouched(xs: set<Agent>)
    reads xs`started, xs`stopped, xs`mailbox, xs`calls
  {
    forall a :: a in xs ==> Unmoved(a)
  }

  // ---------------------------------------------------------------------------
  // AbstractAgent
  // ---------------------------------------------------------------------------

  /** The first agent of xs not set up is the same in both states when no
      agent of all, which holds them, has changed whether it is set up. */
  twostate lemma {:induction false} SetupKept(new xs: seq<Agent>, new all: set<Agent>)
    requires old(allocated(xs)) && old(allocated(all))
    requires forall a :: a in xs ==> a in all
    requires forall a :: a in all ==> a.isSetup == old(a.isSetup)
    ensures FirstNotSetUp(xs) == old(FirstNotSetUp(xs))
    decreases |xs|
  {
    if xs != [] {
      SetupKept(xs[1..], all);
    }
  }

  /** Progress over visited, against a snapshot taken in the old state, is a
      successful start() of every visited agent and no change to the rest. */
  twostate lemma ProgressDone(new all: set<Agent>, new lives: map<Agent, Life>, new visited: set<Agent>)
    requires old(allocated(all)) && old(allocated(visited))
    requires forall a :: a in all ==> a in lives && lives[a] == old(LifeOf(a))
    requires Progress(all, lives, visited) && visited <= all
    ensures StartedAll(visited) && Untouched(all - visited)
  {
  }

  /** What the loop of startAll leaves, against the snapshot lives of the old
      state: the agents up to the first not set up are started, the rest are
      untouched, and one start was signalled per agent that was idle. */
  twostate lemma StartedPrefix(new all: set<Agent>, new lives: map<Agent, Life>, new flat: seq<Agent>, n: nat,
                               new done: seq<Agent>, new signalled: seq<Agent>)
    requires old(allocated(all)) && old(allocated(flat))
    requires forall a :: a in all ==> a in lives && lives[a] == old(LifeOf(a))
    requires forall a :: a in flat ==> a in all
    requires n <= |flat| && done == flat[..n]
    requires Progress(all, lives, Members(done)) && Signals(lives, Members(done), signalled)
    ensures StartedAll(Members(flat[..n])) && Untouched(all - Members(flat[..n]))
    ensures Members(signalled) == old(Idle(Members(flat[..n]))) && Distinct(signalled)
    ensures |old(Idle(Members(flat[..n])))| == |signalled|
  {
    var visited := Members(done);
    assert visited <= all;
    ProgressDone(all, lives, visited);
    assert Members(signalled) == old(Idle(visited));
    DistinctMembers(signalled);
  }

  /** Every agent of a group of v carries the group's name and is one of all. */
  ghost predicate Named(all: set<Agent>, v: map<string, Registry.Group<Agent>>) {
    forall k, a :: k in v && a in v[k].members ==> a in all && a.name == Some(k)
  }

  /** The agents of the groups named in order[..i] are among all and carry one
      of those names. */
  lemma {:induction false} FlattenNamed(all: set<Agent>, v: map<string, Registry.Group<Agent>>,
                                        order: seq<string>, i: nat)
    requires Named(all, v) && i <= |order|
    ensures forall a :: a in Registry.Flatten(v, order[..i]) ==>
      a in all && a.name.Some? && a.name.value in order[..i]
  {
    if i > 0 {
      FlattenNamed(all, v, order, i - 1);
      Registry.FlattenStep(v, order, i - 1);
      assert order[..i] == order[..i - 1] + [order[i - 1]];
    }
  }

  /** Agents done, then a prefix of the next group, within a list that holds
      done and then the whole group: they are a prefix of the list, and all
      set up when both parts are; a proper prefix of the group is followed in
      the list by the group's next agent. */
  lemma ExtendPrefix(done: seq<Agent>, reached: seq<Agent>, group: seq<Agent>, flat: seq<Agent>)
    requires reached <= group && done + group <= flat
    requires forall j :: 0 <= j < |done| ==> done[j].isSetup
    requires forall j :: 0 <= j < |reached| ==> reached[j].isSetup
    ensures done + reached <= flat && flat[..|done + reached|] == done + reached
    ensures forall j :: 0 <= j < |done + reached| ==> (done + reached)[j].isSetup
    ensures |reached| < |group| ==> |done + reached| < |flat| && flat[|done + reached|] == group[|reached|]
  {
    assert (done + group)[..|done + reached|] == done + reached;
  }

  /** The agents of all that start() has reached since the snapshot lives
      have been started by it; the others are as in the snapshot. */
  ghost predicate Progress(all: set<Agent>, lives: map<Agent, Life>, visited: set<Agent>)
    reads all`started, all`stopped, all`mailbox, all`calls
  {
    forall a :: a in all ==> a in lives && LifeOf(a) == if a in visited then StartLife(lives[a]) else lives[a]
  }

  /** signalled lists, once each, the agents of visited that were idle in the snapshot. */
  ghost predicate Signals(lives: map<Agent, Life>, visited: set<Agent>, signalled: seq<Agent>) {
    && Distinct(signalled)
    && (forall a :: a in signalled ==> a in visited)
    && (forall a :: a in visited && a in lives ==> (a in signalled <==> !lives[a].started))
  }

  /** One agent's start(), successful or refused, against a snapshot: a
      successful one adds the agent to those visited, a refused one changes
      nothing. */
  twostate lemma ProgressOne(new all: set<Agent>, new lives: map<Agent, Life>, new visited: set<Agent>,
                             new a: Agent, applied: bool)
    requires old(allocated(all)) && old(allocated(lives)) && old(allocated(visited)) && old(allocated(a))
    requires old(Progress(all, lives, visited)) && a in all
    requires if applied then StartApplied(a) else Unmoved(a)
    requires forall b :: b in all && b != a ==> LifeOf(b) == old(LifeOf(b))
    ensures Progress(all, lives, if applied then visited + {a} else visited)
  {
    forall b | b in all
      ensures b in lives && LifeOf(b) == if b in (if applied then visited + {a} else visited)
                                         then StartLife(lives[b]) else lives[b]
    {
      if b == a && applied {
        assert StartApplied(a);
      } else if b == a {
        assert Unmoved(a);
      }
    }
  }

  /** One more agent started, whose life before the call was was: it has
      signalled exactly when it was idle, which only an agent not yet visited
      can be. */
  lemma SignalsOne(lives: map<Agent, Life>, visited: set<Agent>, signalled: seq<Agent>, a: Agent,
                   was: Life, sg: seq<Agent>)
    requires Signals(lives, visited, signalled) && a in lives
    requires was == if a in visited then StartLife(lives[a]) else lives[a]
    requires sg == if was.started then [] else [a]
    ensures Signals(lives, visited + {a}, signalled + sg)
  {
    DistinctConcat(signalled, sg);
  }

  /** Starting the agents reached, out of a group whose other agents are left
      as they are, carries the progress over to visited + reached. */
  twostate lemma ProgressStep(new all: set<Agent>, new lives: map<Agent, Life>, new visited: set<Agent>,
                              new group: set<Agent>, new reached: set<Agent>)
    requires old(allocated(all)) && old(allocated(lives)) && old(allocated(visited))
    requires old(Progress(all, lives, visited))
    requires reached <= group <= all && group !! visited
    requires StartedAll(reached) && Untouched(group - reached)
    requires forall a :: a in all && a !in group ==> LifeOf(a) == old(LifeOf(a))
    ensures Progress(all, lives, visited + reached)
    ensures forall a :: a in reached ==> (a in old(Idle(reached)) <==> !lives[a].started)
  {
    forall a | a in all
      ensures a in lives && LifeOf(a) == if a in visited + reached then StartLife(lives[a]) else lives[a]
    {
      if a in reached {
        assert StartApplied(a);
      } else if a in group {
        assert Unmoved(a);
      }
    }
  }

  /** The agents of a group that signal a start, appended to those that did
      before, keep the record of who signalled. */
  lemma SignalsStep(lives: map<Agent, Life>, visited: set<Agent>, signalled: seq<Agent>,
                    reached: set<Agent>, sg: seq<Agent>)
    requires Signals(lives, visited, signalled) && reached !! visited
    requires Distinct(sg) && Members(sg) <= reached
    requires forall a :: a in reached && a in lives ==> (a in Members(sg) <==> !lives[a].started)
    ensures Signals(lives, visited + reached, signalled + sg)
  {
    DistinctConcat(signalled, sg);
  }

  /** The stop-related part of a snapshot entry. */
  function HaltIn(l: Life): Halt {
    Halt(l.stopped, l.mailbox)
  }

  /** The agents of all that stopWithError() has reached since the snapshot
      lives have been stopped by it; the others are as in the snapshot. No
      agent has changed whether it is started. */
  ghost predicate Halting(all: set<Agent>, lives: map<Agent, Life>, visited: set<Agent>)
    reads all`started, all`stopped, all`mailbox
  {
    forall a :: a in all ==>
      && a in lives && a.started == lives[a].started
      && HaltOf(a) == if a in visited then StopHalt(lives[a].started, HaltIn(lives[a])) else HaltIn(lives[a])
  }

  /** signalled lists, once each, the agents of visited that were live in the snapshot. */
  ghost predicate StopSignals(lives: map<Agent, Life>, visited: set<Agent>, signalled: seq<Agent>) {
    && Distinct(signalled)
    && (forall a :: a in signalled ==> a in visited)
    && (forall a :: a in visited && a in lives ==> (a in signalled <==> lives[a].started && !lives[a].stopped))
  }

  /** One agent's stopWithError() against a snapshot adds it to those
      visited; a second one on the same agent changes nothing more. */
  twostate lemma HaltOne(new all: set<Agent>, new lives: map<Agent, Life>, new visited: set<Agent>, new a: Agent)
    requires old(allocated(all)) && old(allocated(lives)) && old(allocated(visited)) && old(allocated(a))
    requires old(Halting(all, lives, visited)) && a in all && StopApplied(a)
    requires forall b :: b in all ==> b.started == old(b.started)
    requires forall b :: b in all && b != a ==> HaltOf(b) == old(HaltOf(b))
    ensures Halting(all, lives, visited + {a})
  {
    forall b | b in all
      ensures b in lives && b.started == lives[b].started
      ensures HaltOf(b) == if b in visited + {a} then StopHalt(lives[b].started, HaltIn(lives[b]))
                           else HaltIn(lives[b])
    {
      if b == a {
        assert StopApplied(a);
      }
    }
  }

  /** One more agent stopped, whose state before the call was was: it has
      signalled exactly when it was live then, which only an agent not yet
      visited can be. */
  lemma StopSignalsOne(lives: map<Agent, Life>, visited: set<Agent>, signalled: seq<Agent>, a: Agent,
                       was: Halt, sg: seq<Agent>)
    requires StopSignals(lives, visited, signalled) && a in lives
    requires was == if a in visited then StopHalt(lives[a].started, HaltIn(lives[a])) else HaltIn(lives[a])
    requires sg == if lives[a].started && !was.stopped then [a] else []
    ensures StopSignals(lives, visited + {a}, signalled + sg)
  {
    DistinctConcat(signalled, sg);
  }

  /** What a stop loop leaves, against the snapshot lives of the old state:
      the agents visited have gone through stopWithError(), the rest are
      quiet, and one stop was signalled per agent that was live. */
  twostate lemma HaltDone(new all: set<Agent>, new lives: map<Agent, Life>, new visited: set<Agent>,
                          new signalled: seq<Agent>)
    requires old(allocated(all)) && old(allocated(visited))
    requires forall a :: a in all ==> a in lives && lives[a] == old(LifeOf(a))
    requires Halting(all, lives, visited) && StopSignals(lives, visited, signalled) && visited <= all
    ensures StoppedAll(visited) && AllQuiet(all - visited)
    ensures Members(signalled) == old(Live(visited)) && |old(Live(visited))| == |signalled|
  {
    assert Members(signalled) == old(Live(visited));
    DistinctMembers(signalled);
  }

  /** In a list without repetitions, the entry at i is not among those before
      it, and the first i + 1 entries are the first i and that one. */
  lemma NextName(order: seq<string>, i: nat)
    requires i < |order|
    requires forall j, k :: 0 <= j < k < |order| ==> order[j] != order[k]
    ensures order[i] !in order[..i] && order[..i + 1] == order[..i] + [order[i]]
  {
  }

  class Agent {
    /** The agent's name: the one given at construction, or the class name
        when none was given (None is a class without a canonical name). */
    const name: Option<string>
    /** The agent's index in its group. */
    var number: int
    var mailbox: seq<Message>
    var handlers: map<MessageType, Handler>
    var initHandler: Option<nat>
    var exitHandler: Option<nat>
    var status: Status
    var safeStatus: Option<Status>
    var started: bool
    var stopped: bool
    var isSetup: bool
    var error: Option<Error>
    var router: Router?
    /** Every call the agent has made into application code and its hooks. */
    ghost var calls: seq<Call>

    /** The fields that the agent's own operations change, as a value. */
    function State(): AgentState
      reads this`mailbox, this`handlers, this`initHandler, this`exitHandler, this`status,
            this`safeStatus, this`started, this`stopped, this`isSetup, this`error
    {
      AgentState(mailbox, handlers, initHandler, exitHandler, status, safeStatus,
                 started, stopped, isSetup, error)
    }

    /** The agent invariant, AgentLogic.Consistent, on the fields it reads. */
    ghost predicate Valid()
      reads this`handlers, this`status, this`safeStatus, this`error
    {
      BuiltinsInPlace(handlers) && StatusKept(status, safeStatus, error)
    }

    /** What the router answers when this agent signals a start or a stop:
        a call through a router never set throws NullPointerException, and a
        router that does not know the agent's name throws IllegalArgument. */
    function Answer(): Outcome
      reads this`router, router
    {
      if router == null then Fail(NullPointer)
      else if router.Knows(this) then Pass
      else Fail(IllegalArgument)
    }

    /** The agents registered with this agent's router. */
    ghost function Peers(): set<Agent>
      reads this`router, ({router} - {null})`registered
      reads (if router == null then {} else router.registered.Values)`agents
    {
      if router == null then {} else router.Agents()
    }

    /** AbstractAgent(name, capacity): the name falls back to the class name
        when the given one is null or empty; the agent is new and unregistered. */
    constructor(name: Option<string>, className: Option<string>)
      ensures this.name == (if name.Some? && name.value != "" then name else className)
      ensures State() == NewAgent && router == null && number == 0 && calls == []
      ensures Valid()
    {
      this.name := if name.Some? && name.value != "" then name else className;
      number := 0;
      mailbox := [];
      handlers := map[];
      initHandler := None;
      exitHandler := None;
      status := Init;
      safeStatus := None;
      started := false;
      stopped := false;
      isSetup := false;
      error := None;
      router := null;
      calls := [];
    }

    /** The internal step shared by registerHandler, which installs only
        application handlers, and registerPrivateHandlers, which installs
        each built-in under its own type; it is not an operation of the
        agent's public interface. */
    method Install(t: MessageType, h: Handler) returns (r: Outcome)
      modifies this`handlers
      ensures var c := AgentLogic.Install(old(State()), t, h); State() == c.state && r == c.result
    {
      if t in handlers {
        r := Fail(AgentException(HandlerTaken(t)));
      } else {
        handlers := handlers[t := h];
        r := Pass;
      }
    }

    method RegisterHandler(t: MessageType, id: nat) returns (r: Outcome)
      requires Valid()
      modifies this`handlers
      ensures var c := AgentLogic.RegisterHandler(old(State()), t, id); State() == c.state && r == c.result
      ensures Valid()
    {
      r := Install(t, AppHandler(id));
    }

    method RegisterInitHandler(id: nat) returns (r: Outcome)
      modifies this`initHandler
      ensures var c := AgentLogic.RegisterInitHandler(old(State()), id); State() == c.state && r == c.result
    {
      if initHandler.Some? {
        r := Fail(AgentException(InitHandlerTaken));
      } else {
        initHandler := Some(id);
        r := Pass;
      }
    }

    method RegisterExitHandler(id: nat) returns (r: Outcome)
      modifies this`exitHandler
      ensures var c := AgentLogic.RegisterExitHandler(old(State()), id); State() == c.state && r == c.result
    {
      if exitHandler.Some? {
        r := Fail(AgentException(ExitHandlerTaken));
      } else {
        exitHandler := Some(id);
        r := Pass;
      }
    }

    method Setup() returns (r: Outcome)
      requires Valid()
      modifies this`handlers, this`isSetup
      ensures var c := AgentLogic.Setup(old(State())); State() == c.state && r == c.result
      ensures Valid()
    {
      r := Install(InitType, InitBuiltin);
      if r.Fail? { return; }
      r := Install(StopType, StopBuiltin);
      if r.Fail? { return; }
      r := Install(ExceptionType, RethrowBuiltin);
      if r.Fail? { return; }
      isSetup := true;
    }

    method SubmitMessage(m: Message)
      modifies this`mailbox
      ensures State() == Submit(old(State()), m)
    {
      mailbox := mailbox + [m];
    }

    /** The try block of consumeMessage and the first two statements of its
        catch block: one cycle of AgentLogic.Consume, returning the error to
        report, if any. */
    method Take(outcome: HandlerOutcome) returns (fault: Option<Error>)
      requires |mailbox| > 0 && Valid()
      modifies this`mailbox, this`status, this`safeStatus, this`error, this`calls
      ensures var c := Consume(old(State()), outcome);
        State() == c.state && fault == c.fault && calls == old(calls) + c.calls
      ensures Valid()
    {
      var m := mailbox[0];
      mailbox := mailbox[1..];
      if error.Some? {
        fault := Some(AgentException(AlreadyFailed));
        status := Stopped;
        error := fault;
      } else if safeStatus == Some(Stopped) {
        fault := None;  // the message is dropped
      } else if m.ErrorMessage? {
        fault := Some(m.error);
        status := Stopped;
        error := fault;
      } else if TypeOf(m) !in handlers {
        fault := Some(UnknownAgentMessage(m));
        status := Stopped;
        error := fault;
      } else {
        fault := Run(handlers[TypeOf(m)], m, outcome);
      }
    }

    /** The handler lookup's hit in consumeMessage: runs handler h for
        message m, and on a fault stops the agent and records the error. */
    method Run(h: Handler, m: Message, outcome: HandlerOutcome) returns (fault: Option<Error>)
      requires BuiltinsInPlace(handlers) && TypeOf(m) in handlers && handlers[TypeOf(m)] == h
      requires !m.ErrorMessage?
      modifies this`status, this`safeStatus, this`error, this`calls
      ensures var c := Dispatch(old(State()), h, m, outcome);
        State() == c.state && fault == c.fault && calls == old(calls) + c.calls
    {
      fault := None;
      match h {
      case AppHandler(id) =>
        calls := calls + [Handle(id, m)];
        if outcome.Throws? { fault := Some(outcome.error); }
      case InitBuiltin =>
        status := Running;
        safeStatus := Some(Running);
        if initHandler.Some? {
          calls := calls + [Handle(initHandler.value, m)];
          if outcome.Throws? { fault := Some(outcome.error); }
        }
      case StopBuiltin =>
        status := Stopped;
        safeStatus := Some(Stopped);
        if exitHandler.Some? {
          calls := calls + [Handle(exitHandler.value, m)];
          if outcome.Throws? { fault := Some(outcome.error); }
        }
        if fault.None? {
          calls := calls + [OnStop];
        }
      case RethrowBuiltin =>
        assert false;
      }
      if fault.Some? {
        status := Stopped;
        error := fault;
      }
    }

    /** consumeMessage: one cycle of AgentLogic.Consume. A fault is reported
        to the router, which may stop every registered agent (`peers`), this
        one included; with no router the report fails and is ignored. */
    method ConsumeMessage(outcome: HandlerOutcome, ghost peers: set<Agent>)
      requires |mailbox| > 0 && Valid()
      requires router != null ==> router.Linked() && peers == router.Agents()
      modifies this`mailbox, this`status, this`safeStatus, this`error, this`calls
      modifies ({router} - {null})`running, ({router} - {null})`up, ({router} - {null})`permits
      modifies peers`stopped, peers`mailbox
      ensures Valid() && router == old(router) && (router != null ==> router.Linked() && router.Agents() == peers)
      ensures var c := Consume(old(State()), outcome);
        && status == c.state.status && safeStatus == c.state.safeStatus && error == c.state.error
        && handlers == old(handlers) && started == old(started) && isSetup == old(isSetup)
        && calls == old(calls) + c.calls
        && (var fatal := c.fault.Some? && router != null && router.isFatal(name, c.fault.value);
            var halted := fatal && this in peers && old(started) && !old(stopped);
            && stopped == (old(stopped) || halted)
            && mailbox == c.state.mailbox + (if halted then [StopAgent(NormalStopCause)] else [])
            && (fatal ==> StoppedAll(peers - {this})
                          && router.Count() == Barrier.Stops(old(router.Count()), |old(Live(peers))|))
            && (!fatal ==> AllQuiet(peers - {this})
                           && (router != null ==> router.Count() == old(router.Count()))))
    {
      ghost var c := Consume(State(), outcome);
      ghost var live := Live(peers);
      var fault := Take(outcome);
      assert State() == c.state && fault == c.fault;
      assert Live(peers) == live;
      Report(fault, peers);
    }

    /** The rest of consumeMessage's catch block: signalError on the router,
        when there is a fault and a router to report it to. */
    method Report(fault: Option<Error>, ghost peers: set<Agent>)
      requires router != null ==> router.Linked() && peers == router.Agents()
      modifies ({router} - {null})`running, ({router} - {null})`up, ({router} - {null})`permits
      modifies peers`stopped, peers`mailbox
      ensures router == old(router) && (router != null ==> router.Linked() && router.Agents() == peers)
      ensures var fatal := fault.Some? && router != null && router.isFatal(name, fault.value);
        var halted := fatal && this in peers && old(started) && !old(stopped);
        && stopped == (old(stopped) || halted)
        && mailbox == old(mailbox) + (if halted then [StopAgent(NormalStopCause)] else [])
        && (fatal ==> StoppedAll(peers - {this})
                      && router.Count() == Barrier.Stops(old(router.Count()), |old(Live(peers))|))
        && (!fatal ==> AllQuiet(peers - {this})
                       && (router != null ==> router.Count() == old(router.Count())))
    {
      if fault.Some? && router != null {
        router.SignalError(name, fault.value);
      }
    }

    /** start(): proved against AgentLogic.Start with the router's answer. */
    method Start() returns (r: Outcome)
      modifies this`started, this`mailbox, this`calls, ({router} - {null})`running
      ensures var l := AgentLogic.Start(old(State()), old(Answer()));
        && State() == l.state && r == l.result && calls == old(calls) + l.calls
        && (router != null ==> router.Count() == if l.signalled && r.Pass?
                                                 then Barrier.SignalStart(old(router.Count()))
                                                 else old(router.Count()))
      // the case of an agent its router knows
      ensures old(Answer()) == Pass ==>
        && (old(isSetup) ==> StartApplied(this) && r == Pass)
        && (!old(isSetup) ==> Unmoved(this) && r == Fail(AgentException(NotSetUp)))
        && router.Count() == if old(isSetup) && !old(started)
                             then Barrier.SignalStart(old(router.Count()))
                             else old(router.Count())
    {
      if !isSetup {
        return Fail(AgentException(NotSetUp));
      }
      if !started {
        started := true;
        if router == null {
          return Fail(NullPointer);
        }
        r := router.SignalAgentStart(this);
        if r.Fail? {
          return;
        }
        SubmitMessage(InitAgent);
        calls := calls + [OnStart];
      }
      r := Pass;
    }

    /** stopWithError(cause): proved against AgentLogic.StopWithError with the
        router's answer. */
    method StopWithError(cause: string) returns (r: Outcome)
      modifies this`stopped, this`mailbox
      modifies ({router} - {null})`running, ({router} - {null})`up, ({router} - {null})`permits
      ensures var l := AgentLogic.StopWithError(old(State()), cause, old(Answer()));
        && State() == l.state && r == l.result
        && (router != null ==> router.Count() == if l.signalled && r.Pass?
                                                 then Barrier.SignalStop(old(router.Count()))
                                                 else old(router.Count()))
      // the case of an agent its router knows
      ensures old(Answer()) == Pass ==>
        && StopApplied(this)
        && r == (if old(started) then Pass else Fail(AgentException(NotStarted)))
        && router.Count() == if old(started) && !old(stopped)
                             then Barrier.SignalStop(old(router.Count()))
                             else old(router.Count())
    {
      if !started {
        return Fail(AgentException(NotStarted));
      }
      if !stopped {
        stopped := true;
        if router == null {
          return Fail(NullPointer);
        }
        r := router.SignalAgentStop(this);
        if r.Fail? {
          return;
        }
        SubmitMessage(StopAgent(NormalStopCause));
      }
      r := Pass;
    }

    /** stop() is stopWithError("Normal stop call"). */
    method Stop() returns (r: Outcome)
      modifies this`stopped, this`mailbox
      modifies ({router} - {null})`running, ({router} - {null})`up, ({router} - {null})`permits
      ensures var l := AgentLogic.StopWithError(old(State()), NormalStopCause, old(Answer()));
        && State() == l.state && r == l.result
        && (router != null ==> router.Count() == if l.signalled && r.Pass?
                                                 then Barrier.SignalStop(old(router.Count()))
                                                 else old(router.Count()))
    {
      r := StopWithError(NormalStopCause);
    }

    /** route(dest, number, message): the message goes to the tail of the
        mailbox of the agent the router finds; no agent found is an
        AgentException, and a negative number fails in the lookup itself. */
    method Route(dest: string, num: int, m: Message) returns (r: Outcome)
      modifies Peers()`mailbox
      ensures router == null ==> r == Fail(NullPointer)
      ensures router != null ==>
        match old(router.GetAgent(dest, num))
        case Err(e) => r == Fail(e)
        case Ok(None) => r == Fail(AgentException(NoSuchPeer(dest, num)))
        case Ok(Some(a)) => r == Pass && a.mailbox == old(a.mailbox) + [m]
      ensures forall a :: a in old(Peers()) && (router == null || old(router.GetAgent(dest, num)) != Ok(Some(a)))
                ==> a.mailbox == old(a.mailbox)
    {
      if router == null {
        return Fail(NullPointer);
      }
      var found := router.GetAgent(dest, num);
      match found
      case Err(e) =>
        r := Fail(e);
      case Ok(None) =>
        r := Fail(AgentException(NoSuchPeer(dest, num)));
      case Ok(Some(a)) =>
        router.FoundIsRegistered(dest, num);
        a.SubmitMessage(m);
        r := Pass;
    }

    /** route(dest, message) is route(dest, 0, message). */
    method RouteFirst(dest: string, m: Message) returns (r: Outcome)
      modifies Peers()`mailbox
      ensures router == null ==> r == Fail(NullPointer)
      ensures router != null ==>
        match old(router.GetAgent(dest, 0))
        case Err(e) => r == Fail(e)
        case Ok(None) => r == Fail(AgentException(NoSuchPeer(dest, 0)))
        case Ok(Some(a)) => r == Pass && a.mailbox == old(a.mailbox) + [m]
      ensures forall a :: a in old(Peers()) && (router == null || old(router.GetAgent(dest, 0)) != Ok(Some(a)))
                ==> a.mailbox == old(a.mailbox)
    {
      r := Route(dest, 0, m);
    }
  }

  // ---------------------------------------------------------------------------
  // AgentGroup
  // ---------------------------------------------------------------------------

  class AgentGroup {
    const unique: bool
    var agents: seq<Agent>

    /** The group as a value. */
    function View(): Registry.Group<Agent>
      reads this`agents
    {
      Registry.Group(unique, agents)
    }

    constructor(unique: bool)
      ensures View() == Registry.Group(unique, [])
    {
      this.unique := unique;
      agents := [];
    }

    /** getAgent(num). */
    function GetAgent(num: int): (r: Result<Option<Agent>>)
      reads this`agents
      ensures r == Ok(None) <==> num >= |agents|
      ensures 0 <= num < |agents| ==> r == Ok(Some(agents[num]))
      ensures num < 0 ==> r == Err(IndexOutOfBounds(num))
    {
      Registry.Lookup(View(), num)
    }

    /** addAgent: proved against Registry.Add; the agent's number is the
        group's previous size. */
    method AddAgent(agent: Agent) returns (r: Outcome)
      modifies this`agents, agent`number
      ensures var a := Registry.Add(old(View()), agent);
        && (a.Ok? ==> r == Pass && View() == a.value && agent.number == |old(agents)|)
        && (a.Err? ==> r == Fail(a.error) && agents == old(agents) && agent.number == old(agent.number))
    {
      if unique && |agents| >= 1 {
        return Fail(RouterException(GroupIsUnique));
      }
      agent.number := |agents|;
      agents := agents + [agent];
      r := Pass;
    }

    /** A new group (AgentGroup(unique)) given its first agent with addAgent,
        which cannot refuse since the group is empty. */
    static method Holding(agent: Agent, unique: bool) returns (group: AgentGroup, r: Outcome)
      modifies agent`number
      ensures fresh(group) && group.View() == Registry.Group(unique, [agent])
      ensures agent.number == 0 && r == Pass
    {
      group := new AgentGroup(unique);
      r := group.AddAgent(agent);
    }

    /** startAll: starts the agents in list order; the first agent that has
        not been set up throws, and the agents after it are not started.
        Every agent belongs to router r, which knows it. */
    method StartAll(ghost r: Router) returns (res: Outcome, ghost signalled: seq<Agent>)
      requires forall a :: a in agents ==> a.router == r && r.Knows(a)
      modifies agents`started, agents`mailbox, agents`calls, r`running
      ensures var i := old(FirstNotSetUp(agents));
        && res == (if i < |agents| then Fail(AgentException(NotSetUp)) else Pass)
        && StartedAll(Members(agents[..i]))
        && Untouched(Members(agents) - Members(agents[..i]))
        // the agents that signalled a start, in order, one start signal each
        && Distinct(signalled) && Members(signalled) == old(Idle(Members(agents[..i])))
        && r.running == old(r.running) + |signalled|
    {
      ghost var all := Members(agents);
      ghost var lives := map a | a in all :: LifeOf(a);
      ghost var n := FirstNotSetUp(agents);
      var i;
      res, i, signalled := StartEach(r, lives, n);
      StartedPrefix(all, lives, agents, n, agents[..i], signalled);
    }

    /** The loop of startAll: it stops at the first agent that throws, at n,
        and returns how far it got and, in order, the agents that signalled a
        start, against the snapshot lives of the agents taken on entry. */
    method StartEach(ghost r: Router, ghost lives: map<Agent, Life>, ghost n: nat)
      returns (res: Outcome, i: nat, ghost signalled: seq<Agent>)
      requires forall a :: a in agents ==> a.router == r && r.Knows(a)
      requires forall a :: a in agents ==> a in lives && lives[a] == LifeOf(a)
      requires n == FirstNotSetUp(agents)
      modifies agents`started, agents`mailbox, agents`calls, r`running
      ensures i == n && res == (if n < |agents| then Fail(AgentException(NotSetUp)) else Pass)
      ensures Progress(Members(agents), lives, Members(agents[..i]))
      ensures Signals(lives, Members(agents[..i]), signalled)
      ensures r.running == old(r.running) + |signalled|
    {
      signalled := [];
      res := Pass;
      i := 0;
      while i < |agents|
        invariant i <= n && res.Pass?
        invariant Progress(Members(agents), lives, Members(agents[..i]))
        invariant Signals(lives, Members(agents[..i]), signalled)
        invariant r.running == old(r.running) + |signalled|
      {
        assert agents[i].isSetup <==> i < n;
        res, signalled := StartAt(r, lives, i, signalled);
        if res.Fail? {
          return;
        }
        i := i + 1;
      }
    }

    /** One turn of the loop of startAll: agent i's start(), which carries the
        progress over to the first i + 1 agents unless it throws. */
    method StartAt(ghost r: Router, ghost lives: map<Agent, Life>, i: nat, ghost signalled: seq<Agent>)
      returns (res: Outcome, ghost signalled': seq<Agent>)
      requires forall a :: a in agents ==> a.router == r && r.Knows(a)
      requires forall a :: a in agents ==> a in lives
      requires i < |agents|
      requires Progress(Members(agents), lives, Members(agents[..i]))
      requires Signals(lives, Members(agents[..i]), signalled)
      modifies agents`started, agents`mailbox, agents`calls, r`running
      ensures res.Pass? <==> old(agents[i].isSetup)
      ensures res.Fail? ==> res == Fail(AgentException(NotSetUp)) && signalled' == signalled
      ensures Progress(Members(agents), lives, Members(agents[..if res.Pass? then i + 1 else i]))
      ensures Signals(lives, Members(agents[..if res.Pass? then i + 1 else i]), signalled')
      ensures r.running == old(r.running) + |signalled'| - |signalled|
    {
      var a := agents[i];
      ghost var was := LifeOf(a);
      res := StartOne(a, r);
      ProgressOne(Members(agents), lives, Members(agents[..i]), a, res.Pass?);
      if res.Fail? {
        signalled' := signalled;
        return;
      }
      ghost var sg := if was.started then [] else [a];
      SignalsOne(lives, Members(agents[..i]), signalled, a, was, sg);
      signalled' := signalled + sg;
      assert agents[..i + 1] == agents[..i] + [a];
    }

    /** One agent's start(), for an agent whose router knows it. */
    static method StartOne(a: Agent, ghost r: Router) returns (res: Outcome)
      requires a.router == r && r.Knows(a)
      modifies a`started, a`mailbox, a`calls, r`running
      ensures old(a.isSetup) ==> StartApplied(a) && res == Pass
      ensures !old(a.isSetup) ==> Unmoved(a) && res == Fail(AgentException(NotSetUp))
      ensures r.running == old(r.running) + if old(a.isSetup && !a.started) then 1 else 0
    {
      res := a.Start();
    }

    /** The body of the loops of stopWithError and stopAll: one agent's
        stopWithError, an AgentException it throws caught and logged. */
    static method StopCaught(a: Agent, cause: string, ghost r: Router)
      requires a.router == r && r.Knows(a)
      modifies a`stopped, a`mailbox, r`running, r`up, r`permits
      ensures StopApplied(a)
      ensures r.Count() == if old(a.started && !a.stopped) then Barrier.SignalStop(old(r.Count()))
                           else old(r.Count())
    {
      var _ := a.StopWithError(cause);
    }

    /** stopWithError(cause): stops every agent in list order, going on past
        agents that refuse because they were never started. Every agent
        belongs to router r, which knows it. */
    method StopWithError(cause: string, ghost r: Router) returns (ghost signalled: seq<Agent>)
      requires forall a :: a in agents ==> a.router == r && r.Knows(a)
      modifies agents`stopped, agents`mailbox, r`running, r`up, r`permits
      ensures StoppedAll(Members(agents))
      ensures r.Count() == Barrier.Stops(old(r.Count()), |old(Live(Members(agents)))|)
      // the agents that signalled a stop, in order
      ensures Distinct(signalled) && (forall a :: a in signalled ==> a in agents)
      ensures forall a :: a in agents ==> (a in signalled <==> old(a.started && !a.stopped))
      ensures r.Count() == Barrier.Stops(old(r.Count()), |signalled|)
    {
      ghost var all := Members(agents);
      ghost var lives := map a | a in all :: LifeOf(a);
      signalled := StopEvery(cause, r, lives);
      assert agents[..|agents|] == agents;
      HaltDone(all, lives, all, signalled);
    }

    /** The loop of stopWithError, against the snapshot lives taken before it. */
    method StopEvery(cause: string, ghost r: Router, ghost lives: map<Agent, Life>) returns (ghost signalled: seq<Agent>)
      requires forall a :: a in agents ==> a.router == r && r.Knows(a)
      requires Halting(Members(agents), lives, {})
      modifies agents`stopped, agents`mailbox, r`running, r`up, r`permits
      ensures Halting(Members(agents), lives, Members(agents[..|agents|]))
      ensures StopSignals(lives, Members(agents[..|agents|]), signalled)
      ensures r.Count() == Barrier.Stops(old(r.Count()), |signalled|)
    {
      ghost var c0 := r.Count();
      signalled := [];
      var i := 0;
      while i < |agents|
        invariant i <= |agents|
        invariant Halting(Members(agents), lives, Members(agents[..i]))
        invariant StopSignals(lives, Members(agents[..i]), signalled)
        invariant r.Count() == Barrier.Stops(c0, |signalled|)
      {
        var a := agents[i];
        signalled := StopNoted(a, cause, r, Members(agents), lives, Members(agents[..i]), signalled, c0);
        assert agents[..i + 1] == agents[..i] + [a];
        i := i + 1;
      }
    }

    /** One agent's stopWithError in a stop loop, recorded against the
        snapshot lives: the agents visited grow by it, and its stop signal,
        if it sends one, is appended to those sent. */
    static method StopNoted(a: Agent, cause: string, ghost r: Router, ghost all: set<Agent>,
                            ghost lives: map<Agent, Life>, ghost visited: set<Agent>,
                            ghost signalled: seq<Agent>, ghost c0: Barrier.Counter)
      returns (ghost signalled': seq<Agent>)
      requires a in all && a.router == r && r.Knows(a)
      requires Halting(all, lives, visited) && StopSignals(lives, visited, signalled)
      requires r.Count() == Barrier.Stops(c0, |signalled|)
      modifies a`stopped, a`mailbox, r`running, r`up, r`permits
      ensures Halting(all, lives, visited + {a}) && StopSignals(lives, visited + {a}, signalled')
      ensures r.Count() == Barrier.Stops(c0, |signalled'|)
    {
      ghost var was := HaltOf(a);
      ghost var sg := if a.started && !a.stopped then [a] else [];
      StopCaught(a, cause, r);
      HaltOne(all, lives, visited, a);
      StopSignalsOne(lives, visited, signalled, a, was, sg);
      if sg != [] {
        Barrier.StopsStep(c0, |signalled|);
      }
      signalled' := signalled + sg;
    }

    /** stopAll: stop() on every agent, which is stopWithError with the
        normal stop cause. */
    method StopAll(ghost r: Router)
      requires forall a :: a in agents ==> a.router == r && r.Knows(a)
      modifies agents`stopped, agents`mailbox, r`running, r`up, r`permits
      ensures StoppedAll(Members(agents))
      ensures r.Count() == Barrier.Stops(old(r.Count()), |old(Live(Members(agents)))|)
    {
      ghost var _ := StopWithError(NormalStopCause, r);
    }
  }

  // ---------------------------------------------------------------------------
  // Router
  // ---------------------------------------------------------------------------

  class Router {
    /** The error handler's verdict on an error reported by an agent. */
    const isFatal: (Option<string>, Error) -> bool
    var registered: map<string, AgentGroup>
    var up: bool
    var running: int
    /** The permits of the completion semaphore. */
    var permits: nat

    /** The running-count barrier as a value. */
    function Count(): Barrier.Counter
      reads this`running, this`up, this`permits
    {
      Barrier.Counter(running, up, permits)
    }

    /** The registry as a value. */
    function View(): map<string, Registry.Group<Agent>>
      reads this`registered, registered.Values`agents
    {
      map k | k in registered :: registered[k].View()
    }

    /** Every agent of every group. */
    function Agents(): set<Agent>
      reads this`registered, registered.Values`agents
    {
      set k, a | k in registered && a in registered[k].agents :: a
    }

    /** Whether the agent's name is registered (Router's checkArgument). */
    predicate Knows(agent: Agent)
      reads this`registered
    {
      agent.name.Some? && agent.name.value in registered
    }

    /** Every agent of a group carries the group's name and points back to
        this router. */
    ghost predicate Linked()
      reads this`registered, registered.Values`agents, Agents()`router
    {
      forall k, a :: k in registered && a in registered[k].agents ==> a.name == Some(k) && a.router == this
    }

    /** The router invariant: each name has its own group, the groups are
        linked to this router, and a unique group holds at most one agent. */
    ghost predicate Valid()
      reads this`registered, registered.Values`agents, Agents()`router
    {
      && (forall k, k' :: k in registered && k' in registered && k != k' ==> registered[k] != registered[k'])
      && Linked()
      && Registry.UniqueGroupsSingle(View())
    }

    /** Router(errorHandler): no agent, nothing running, up, no permit. */
    constructor(isFatal: (Option<string>, Error) -> bool)
      ensures this.isFatal == isFatal && registered == map[] && View() == map[]
      ensures Count() == Barrier.NewCounter
      ensures Valid()
    {
      this.isFatal := isFatal;
      registered := map[];
      up := true;
      running := 0;
      permits := 0;
    }

    /** getAgent(name, num); getAgent(name) is getAgent(name, 0). */
    function GetAgent(name: string, num: int): (r: Result<Option<Agent>>)
      reads this`registered, registered.Values`agents
      ensures name !in registered ==> r == Ok(None)
      ensures name in registered ==> r == registered[name].GetAgent(num)
    {
      Registry.Find(View(), name, num)
    }

    /** An agent the router finds is one of its registered agents. */
    lemma FoundIsRegistered(name: string, num: int)
      requires GetAgent(name, num).Ok? && GetAgent(name, num).value.Some?
      ensures GetAgent(name, num).value.value in Agents()
    {
      var a := GetAgent(name, num).value.value;
      assert a in registered[name].agents;
    }

    /** registerAgent(agent, unique): proved against Registry.Register. The
        agent's router is set before the group can refuse it, so a refusal by
        a unique group leaves the agent pointing at this router. */
    method RegisterAgent(agent: Agent, unique: bool) returns (r: Outcome)
      requires Valid()
      modifies this`registered, registered.Values`agents, agent`router, agent`number
      ensures Valid()
      ensures var reg := Registry.Register(old(View()), up, agent.name, agent, unique);
        && (reg.Ok? ==> r == Pass && View() == reg.value && agent.router == this
                        && agent.number == Registry.NextNumber(old(View()), agent.name.value))
        && (reg.Err? ==> r == Fail(reg.error) && View() == old(View()) && agent.number == old(agent.number))
        && (reg.Err? && reg.error != RouterException(GroupIsUnique) ==> agent.router == old(agent.router))
        && (reg.Err? && reg.error == RouterException(GroupIsUnique) ==> agent.router == this)
      ensures up == old(up) && running == old(running) && permits == old(permits)
      // a group made for a new name is a new object; every other group stays
      ensures forall k :: k in registered && k !in old(registered) ==> fresh(registered[k])
      ensures forall k :: k in old(registered) ==> k in registered && registered[k] == old(registered[k])
    {
      if !up {
        return Fail(RouterException(RouterDown));
      }
      if agent.name.None? || agent.name.value == "" {
        return Fail(RouterException(NoName));
      }
      ghost var before: map<string, Registry.Group<Agent>> := View();
      Registry.RegisterKeepsUniqueSingle(before, up, agent.name, agent, unique);
      var name := agent.name.value;
      if name !in registered {
        r := RegisterNew(agent, name, unique);
      } else if unique {
        r := Fail(RouterException(UniqueTaken));
      } else {
        r := RegisterExisting(agent, name);
      }
    }

    /** The branch of registerAgent for a name seen for the first time: a new
        group with the call's flag, holding just this agent. */
    method RegisterNew(agent: Agent, name: string, unique: bool) returns (r: Outcome)
      requires Valid() && agent.name == Some(name) && name !in registered
      modifies this`registered, agent`router, agent`number
      ensures Valid() && r == Pass
      ensures View() == old(View())[name := Registry.Group(unique, [agent])]
      ensures agent.router == this && agent.number == 0
      ensures registered.Keys == old(registered).Keys + {name} && fresh(registered[name])
      ensures forall k :: k in old(registered) ==> k in registered && registered[k] == old(registered[k])
    {
      // The group is new, so filling it before publishing it in the map is
      // the same as publishing it first.
      var group;
      group, r := AgentGroup.Holding(agent, unique);
      agent.router := this;
      Publish(name, group);
    }

    /** registeredAgents.put(name, group) for a new name and a new group
        whose agents already carry that name and point to this router. */
    method Publish(name: string, group: AgentGroup)
      requires Valid() && name !in registered && group !in registered.Values
      requires forall a :: a in group.agents ==> a.name == Some(name) && a.router == this
      requires group.unique ==> |group.agents| <= 1
      modifies this`registered
      ensures Valid() && View() == old(View())[name := group.View()]
      ensures registered == old(registered)[name := group]
    {
      registered := registered[name := group];
      assert View() == old(View())[name := group.View()];
    }

    /** The branch of registerAgent for a registered name: the agent's router
        is set, then the group adds the agent or refuses it. */
    method RegisterExisting(agent: Agent, name: string) returns (r: Outcome)
      requires Valid() && agent.name == Some(name) && name in registered
      modifies registered.Values`agents, agent`router, agent`number
      ensures Valid() && agent.router == this
      ensures var a := Registry.Add(old(View())[name], agent);
        && (a.Ok? ==> r == Pass && View() == old(View())[name := a.value]
                      && agent.number == |old(View())[name].members|)
        && (a.Err? ==> r == Fail(a.error) && View() == old(View()) && agent.number == old(agent.number))
    {
      agent.router := this;
      r := Extend(agent, name);
    }

    /** group.addAgent(agent) on the group registered under the agent's name,
        for an agent that already points to this router. */
    method Extend(agent: Agent, name: string) returns (r: Outcome)
      requires Valid() && agent.name == Some(name) && name in registered && agent.router == this
      modifies registered.Values`agents, agent`number
      ensures Valid()
      ensures var a := Registry.Add(old(View())[name], agent);
        && (a.Ok? ==> r == Pass && View() == old(View())[name := a.value]
                      && agent.number == |old(View())[name].members|)
        && (a.Err? ==> r == Fail(a.error) && View() == old(View()) && agent.number == old(agent.number))
    {
      var group := registered[name];
      assert forall k :: k in registered && k != name ==> registered[k] != group;
      r := group.AddAgent(agent);
      if r.Pass? {
        assert View() == old(View())[name := group.View()];
      } else {
        assert View() == old(View());
      }
    }

    /** registerAgent(agent): a unique registration. It refuses a taken name
        before setting the agent's router, so a refusal leaves the agent as
        it was, and a success numbers it 0 in its new group. */
    method RegisterUniqueAgent(agent: Agent) returns (r: Outcome)
      requires Valid()
      modifies this`registered, registered.Values`agents, agent`router, agent`number
      ensures Valid()
      ensures var reg := Registry.Register(old(View()), up, agent.name, agent, true);
        && (reg.Ok? ==> r == Pass && View() == reg.value && agent.router == this && agent.number == 0)
        && (reg.Err? ==> r == Fail(reg.error) && View() == old(View())
                         && agent.router == old(agent.router) && agent.number == old(agent.number))
      ensures up == old(up) && running == old(running) && permits == old(permits)
      // a group made for a new name is a new object; every other group stays
      ensures forall k :: k in registered && k !in old(registered) ==> fresh(registered[k])
      ensures forall k :: k in old(registered) ==> k in registered && registered[k] == old(registered[k])
    {
      r := RegisterAgent(agent, true);
    }

    /** unregisterAgent(name): proved against Registry.Unregister. */
    method UnregisterAgent(name: string) returns (r: Outcome)
      requires Valid()
      modifies this`registered
      ensures Valid()
      ensures var u := Registry.Unregister(old(View()), name);
        && (u.Ok? ==> r == Pass && View() == u.value)
        && (u.Err? ==> r == Fail(u.error) && View() == old(View()))
      // no group is made, and the groups that stay are the same objects
      ensures forall k :: k in registered ==> k in old(registered) && registered[k] == old(registered[k])
    {
      if name !in registered {
        return Fail(RouterException(NotRegistered(name)));
      }
      ghost var before: map<string, Registry.Group<Agent>> := View();
      Registry.UnregisterKeepsUniqueSingle(before, name);
      registered := registered - {name};
      assert View() == Registry.Unregister(before, name).value;
      r := Pass;
    }

    /** signalAgentStart: one more running agent, for a registered name. */
    method SignalAgentStart(agent: Agent) returns (r: Outcome)
      modifies this`running
      ensures Knows(agent) ==> r == Pass && Count() == Barrier.SignalStart(old(Count()))
      ensures !Knows(agent) ==> r == Fail(IllegalArgument) && Count() == old(Count())
    {
      if !Knows(agent) {
        return Fail(IllegalArgument);
      }
      running := running + 1;
      r := Pass;
    }

    /** signalAgentStop: one fewer running agent, for a registered name;
        reaching zero takes the router down and releases a permit. */
    method SignalAgentStop(agent: Agent) returns (r: Outcome)
      modifies this`running, this`up, this`permits
      ensures Knows(agent) ==> r == Pass && Count() == Barrier.SignalStop(old(Count()))
      ensures !Knows(agent) ==> r == Fail(IllegalArgument) && Count() == old(Count())
    {
      if !Knows(agent) {
        return Fail(IllegalArgument);
      }
      running := running - 1;
      if running == 0 {
        up := false;
        permits := permits + 1;
      }
      r := Pass;
    }

    /** The loop of signalError and stopAll: stopWithError(cause) on every
        group, in the map's own order, which the result does not depend on. */
    method StopGroups(cause: string)
      requires Linked()
      modifies this`running, this`up, this`permits, Agents()`stopped, Agents()`mailbox
      ensures StoppedAll(Agents())
      ensures Count() == Barrier.Stops(old(Count()), |old(Live(Agents()))|)
    {
      ghost var all := Agents();
      ghost var lives := map a | a in all :: LifeOf(a);
      ghost var signalled := StopEach(cause, all, lives);
      HaltDone(all, lives, all, signalled);
    }

    /** The loop itself, against the snapshot lives taken before it; it
        returns, in order, the agents that signalled a stop. */
    method StopEach(cause: string, ghost all: set<Agent>, ghost lives: map<Agent, Life>)
      returns (ghost signalled: seq<Agent>)
      requires Linked() && all == Agents() && Halting(all, lives, {})
      modifies this`running, this`up, this`permits, all`stopped, all`mailbox
      ensures Halting(all, lives, all) && StopSignals(lives, all, signalled)
      ensures Count() == Barrier.Stops(old(Count()), |signalled|)
    {
      ghost var c0 := Count();
      var todo := Agents();
      assert forall a :: a in all ==> a.router == this && Knows(a);
      ghost var done: set<Agent> := {};
      signalled := [];
      while todo != {}
        invariant done <= all && todo == all - done
        invariant Halting(all, lives, done) && StopSignals(lives, done, signalled)
        invariant Count() == Barrier.Stops(c0, |signalled|)
        decreases todo
      {
        var a :| a in todo;
        signalled := AgentGroup.StopNoted(a, cause, this, all, lives, done, signalled, c0);
        done := done + {a};
        todo := todo - {a};
      }
    }

    /** signalError(agentName, e): asks the error handler; on a fatal error
        every agent of every group gets stopWithError, otherwise nothing
        changes. */
    method SignalError(agentName: Option<string>, e: Error)
      requires Linked()
      modifies this`running, this`up, this`permits, Agents()`stopped, Agents()`mailbox
      ensures isFatal(agentName, e) ==>
        StoppedAll(Agents()) && Count() == Barrier.Stops(old(Count()), |old(Live(Agents()))|)
      ensures !isFatal(agentName, e) ==> AllQuiet(Agents()) && Count() == old(Count())
    {
      if isFatal(agentName, e) {
        StopGroups(FatalCause(agentName));
      }
    }

    /** stopAll: stopAll on every group. */
    method StopAll()
      requires Linked()
      modifies this`running, this`up, this`permits, Agents()`stopped, Agents()`mailbox
      ensures StoppedAll(Agents())
      ensures Count() == Barrier.Stops(old(Count()), |old(Live(Agents()))|)
    {
      StopGroups(NormalStopCause);
    }

    /** What the loop of startAll relies on and never changes: order lists
        each registered name once, v holds each registered group's agents, and
        every agent of all belongs to this router and is known to it. */
    ghost predicate StartPlan(order: seq<string>, all: set<Agent>, v: map<string, Registry.Group<Agent>>)
      reads this`registered, registered.Values`agents, all`router
    {
      && (forall k :: k in registered <==> k in order)
      && (forall i, j :: 0 <= i < j < |order| ==> order[i] != order[j])
      && (forall k :: k in registered ==> k in v && registered[k].agents == v[k].members)
      && Named(all, v)
      && (forall a :: a in all ==> a.router == this && Knows(a))
    }

    /** A linked router, with all and v its agents and its registry as a
        value, meets what the loop of startAll relies on. */
    lemma PlanOf(order: seq<string>, all: set<Agent>, v: map<string, Registry.Group<Agent>>)
      requires Linked() && all == Agents() && v == View()
      requires forall k :: k in registered <==> k in order
      requires forall i, j :: 0 <= i < j < |order| ==> order[i] != order[j]
      ensures StartPlan(order, all, v)
    {
    }

    /** startAll: startAll on every group in the map's iteration order, given
        as order; the first group that throws ends the loop, so the groups
        after it are not started. The effect is that of startAll on one group
        holding every agent in that order. */
    method StartAll(order: seq<string>) returns (res: Outcome)
      requires Linked()
      requires forall k :: k in registered <==> k in order
      requires forall i, j :: 0 <= i < j < |order| ==> order[i] != order[j]
      modifies Agents()`started, Agents()`mailbox, Agents()`calls, this`running
      ensures var flat := Registry.Flatten(old(View()), order); var n := old(FirstNotSetUp(flat));
        && res == (if n < |flat| then Fail(AgentException(NotSetUp)) else Pass)
        && StartedAll(Members(flat[..n]))
        && Untouched(old(Agents()) - Members(flat[..n]))
        && running == old(running) + |old(Idle(Members(flat[..n])))|
    {
      ghost var all := Agents();
      ghost var flat := Registry.Flatten(View(), order);
      res := StartRun(order, all, View(), map a | a in all :: LifeOf(a), flat, FirstNotSetUp(flat));
    }

    /** startAll over the router's agents all and registry v, as they are on entry. */
    method StartRun(order: seq<string>, ghost all: set<Agent>, ghost v: map<string, Registry.Group<Agent>>,
                    ghost lives: map<Agent, Life>, ghost flat: seq<Agent>, ghost n: nat)
      returns (res: Outcome)
      requires Linked() && all == Agents() && v == View()
      requires forall a :: a in all ==> a in lives && lives[a] == LifeOf(a)
      requires forall k :: k in registered <==> k in order
      requires forall i, j :: 0 <= i < j < |order| ==> order[i] != order[j]
      requires flat == Registry.Flatten(v, order) && n == FirstNotSetUp(flat)
      modifies all`started, all`mailbox, all`calls, this`running
      ensures n <= |flat|
      ensures res == (if n < |flat| then Fail(AgentException(NotSetUp)) else Pass)
      ensures StartedAll(Members(flat[..n]))
      ensures Untouched(all - Members(flat[..n]))
      ensures running == old(running) + |old(Idle(Members(flat[..n])))|
    {
      PlanOf(order, all, v);
      FlattenNamed(all, v, order, |order|);
      assert order[..|order|] == order;
      ghost var done, signalled;
      res, done, signalled := StartGroups(order, all, lives, v);
      SetupKept(flat, all);
      StartedPrefix(all, lives, flat, n, done, signalled);
    }

    /** The loop of startAll: it returns the agents it went past, in order,
        and, in order, those that signalled a start. */
    method StartGroups(order: seq<string>, ghost all: set<Agent>, ghost lives: map<Agent, Life>,
                       ghost v: map<string, Registry.Group<Agent>>)
      returns (res: Outcome, ghost done: seq<Agent>, ghost signalled: seq<Agent>)
      requires StartPlan(order, all, v)
      requires Progress(all, lives, {})
      modifies all`started, all`mailbox, all`calls, this`running
      ensures var flat := Registry.Flatten(v, order);
        && done == flat[..FirstNotSetUp(flat)]
        && res == if |done| < |flat| then Fail(AgentException(NotSetUp)) else Pass
      ensures Progress(all, lives, Members(done)) && Signals(lives, Members(done), signalled)
      ensures running == old(running) + |signalled|
    {
      ghost var r0 := running;
      res := Pass;
      done := [];
      signalled := [];
      var i := 0;
      while i < |order|
        invariant 0 <= i <= |order| && res.Pass?
        invariant StartPlan(order, all, v)
        invariant done == Registry.Flatten(v, order[..i])
        invariant forall j :: 0 <= j < |done| ==> done[j].isSetup
        invariant Progress(all, lives, Members(done)) && Signals(lives, Members(done), signalled)
        invariant running == r0 + |signalled|
      {
        res, done, signalled := StartNext(order, i, all, lives, v, done, signalled, r0);
        if res.Fail? {
          return;
        }
        i := i + 1;
      }
      assert order[..i] == order;
      FirstNotSetUpAt(done, |done|);
    }

    /** One turn of the loop of startAll: startAll on the group registered
        under order[i], which extends the agents visited so far by those it
        reaches. */
    method StartNext(order: seq<string>, i: nat, ghost all: set<Agent>, ghost lives: map<Agent, Life>,
                     ghost v: map<string, Registry.Group<Agent>>, ghost done: seq<Agent>,
                     ghost signalled: seq<Agent>, ghost r0: int)
      returns (res: Outcome, ghost done': seq<Agent>, ghost signalled': seq<Agent>)
      requires StartPlan(order, all, v)
      requires i < |order| && done == Registry.Flatten(v, order[..i])
      requires forall j :: 0 <= j < |done| ==> done[j].isSetup
      requires Progress(all, lives, Members(done)) && Signals(lives, Members(done), signalled)
      requires running == r0 + |signalled|
      modifies all`started, all`mailbox, all`calls, this`running
      ensures res.Pass? ==> done' == Registry.Flatten(v, order[..i + 1])
                            && forall j :: 0 <= j < |done'| ==> done'[j].isSetup
      ensures res.Fail? ==> var flat := Registry.Flatten(v, order);
        && res == Fail(AgentException(NotSetUp))
        && |done'| < |flat| && done' == flat[..FirstNotSetUp(flat)]
      ensures Progress(all, lives, Members(done')) && Signals(lives, Members(done'), signalled')
      ensures StartPlan(order, all, v)
      ensures running == r0 + |signalled'|
    {
      var name := order[i];
      NextName(order, i);
      FlattenNamed(all, v, order, i);
      PlanGroup(order, all, v, name, Members(done));
      var group := registered[name];
      Registry.FlattenStep(v, order, i);
      ghost var reached;
      ghost var members := Registry.Members(v, name);
      res, reached, signalled' := StartGroup(group, all, lives, Members(done), signalled, r0, members, order, v);
      done' := done + reached;
      ghost var flat := Registry.Flatten(v, order);
      ExtendPrefix(done, reached, members, flat);
      if res.Fail? {
        FirstNotSetUpAt(flat, |done'|);
      }
      MembersConcat(done, reached);
    }

    /** One group's startAll within the loop of startAll: the agents it
        reaches join those already visited. */
    method StartGroup(group: AgentGroup, ghost all: set<Agent>, ghost lives: map<Agent, Life>,
                      ghost visited: set<Agent>, ghost signalled: seq<Agent>, ghost r0: int, ghost members: seq<Agent>,
                      ghost order: seq<string>, ghost v: map<string, Registry.Group<Agent>>)
      returns (res: Outcome, ghost reached: seq<Agent>, ghost signalled': seq<Agent>)
      requires StartPlan(order, all, v)
      requires group.agents == members
      requires forall a :: a in members ==> a in all && a !in visited && a.router == this && Knows(a)
      requires Progress(all, lives, visited) && Signals(lives, visited, signalled)
      requires running == r0 + |signalled|
      modifies group.agents`started, group.agents`mailbox, group.agents`calls, this`running
      ensures reached <= members && (forall j :: 0 <= j < |reached| ==> reached[j].isSetup)
      ensures res.Pass? <==> reached == members
      ensures res.Fail? ==> res == Fail(AgentException(NotSetUp)) && !members[|reached|].isSetup
      ensures Progress(all, lives, visited + Members(reached))
      ensures Signals(lives, visited + Members(reached), signalled')
      ensures StartPlan(order, all, v)
      ensures running == r0 + |signalled'|
    {
      reached := members[..FirstNotSetUp(members)];
      ghost var sg;
      res, sg := group.StartAll(this);
      assert forall a :: a in all && a !in members ==> LifeOf(a) == old(LifeOf(a));
      ProgressStep(all, lives, visited, Members(members), Members(reached));
      assert Members(sg) == old(Idle(Members(reached)));
      assert forall a :: a in Members(reached) ==> (a in Members(sg) <==> !lives[a].started);
      SignalsStep(lives, visited, signalled, Members(reached), sg);
      signalled' := signalled + sg;
    }

    /** The group registered under a name of the plan is v's group of that
        name, and its agents belong to this router and are none of agents
        whose names are all different. */
    lemma PlanGroup(order: seq<string>, all: set<Agent>, v: map<string, Registry.Group<Agent>>,
                    name: string, visited: set<Agent>)
      requires StartPlan(order, all, v) && name in order
      requires forall a :: a in visited ==> a.name.Some? && a.name.value != name
      ensures name in registered && registered[name].agents == Registry.Members(v, name)
      ensures forall a :: a in registered[name].agents ==>
        a in all && a !in visited && a.router == this && Knows(a)
    {
    }

    /** tryWaitAllStopped: takes a permit if one is available. */
    method TryWaitAllStopped() returns (acquired: bool)
      modifies this`permits
      ensures acquired <==> old(permits) > 0
      ensures permits == if acquired then old(permits) - 1 else old(permits)
    {
      acquired := permits > 0;
      if acquired {
        permits := permits - 1;
      }
    }
  }
}
