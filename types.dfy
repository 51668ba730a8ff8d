/** Values shared by every part of the runtime: agent states, messages,
    the exceptions the runtime raises, and the Option/Result wrappers that
    stand for Java's null and thrown exceptions. */
module Types {

  /** A nullable value: None is Java's null. */
  datatype Option<+T> = None | Some(value: T)

  /** What a void Java method does: return normally or throw. */
  datatype Outcome = Pass | Fail(error: Error)

  /** What a value-returning Java method does: return a value or throw. */
  datatype Result<+T> = Ok(value: T) | Err(error: Error)

  /** AbstractAgent.AgentStatus. */
  datatype Status = Init | Running | Stopped

  /** The exact runtime class of a message, the key of an agent's handler table.
      Matching is exact: a handler for one type never serves another. */
  datatype MessageType = InitType | StopType | ExceptionType | AppType(cls: string)

  /** A message in an agent's mailbox. */
  datatype Message =
    | InitAgent                      // events.InitAgent, enqueued by start()
    | StopAgent(cause: string)       // events.StopAgent, enqueued by stopWithError()
    | ErrorMessage(error: Error)     // any Exception object submitted as a message
    | AppMessage(cls: string, payload: int)  // an application message of class cls

  /** Why an AgentException was raised. */
  datatype AgentFailure =
    | AlreadyFailed                  // the agent holds an error and cannot continue
    | HandlerTaken(messageType: MessageType)
    | InitHandlerTaken
    | ExitHandlerTaken
    | NoSuchPeer(dest: string, number: int)
    | NotSetUp                       // start() before setup()
    | NotStarted                     // stop() before start()

  /** Why a RouterException was raised. */
  datatype RouterFailure =
    | RouterDown
    | NoName
    | UniqueTaken                    // a unique registration under a taken name
    | GroupIsUnique                  // a second agent for a unique group
    | NotRegistered(name: string)

  /** Why a plain RuntimeException was raised. */
  datatype RuntimeFailure = BadThreadCount | WorkerAlreadyStarted

  /** The exceptions that the runtime raises, carries in messages or records. */
  datatype Error =
    | AppError(id: nat)              // an exception created by application code
    | AgentException(agentFailure: AgentFailure)
    | RouterException(routerFailure: RouterFailure)
    | UnknownAgentMessage(message: Message)
    | IllegalArgument                // agent not registered (Preconditions.checkArgument)
    | NullPointer                    // a call through a router reference never set
    | IndexOutOfBounds(index: int)
    | RuntimeException(runtimeFailure: RuntimeFailure)

  /** The class of a message. An exception message is never looked up in the
      handler table (the consume cycle intercepts it first), so every exception
      is given the type that the built-in exception handler is registered under. */
  function TypeOf(m: Message): (t: MessageType)
    ensures t == ExceptionType <==> m.ErrorMessage?
    ensures t == InitType <==> m == InitAgent
    ensures t == StopType <==> m.StopAgent?
  {
    match m
    case InitAgent => InitType
    case StopAgent(_) => StopType
    case ErrorMessage(_) => ExceptionType
    case AppMessage(cls, _) => AppType(cls)
  }

  /** The cause that every stop message carries, whatever cause was asked for. */
  const NormalStopCause: string := "Normal stop call"

  /** The cause the router passes when it stops every agent after a fatal error
      (Java renders a null name as "null"). */
  function FatalCause(agentName: Option<string>): string {
    "Fatal error in agent " + (if agentName.Some? then agentName.value else "null")
  }
}
