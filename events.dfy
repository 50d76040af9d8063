/*
 * Vocabulary shared by the state machine and its manager: the events a
 * behaviour receives, the handler registrations its probe reports, the
 * scoping rules of self-addressed messages and the API calls a behaviour's
 * handler code can make while it runs.
 */
module Events {

  /** The events a behaviour's `States` handler receives. */
  datatype Event = EventProbe | EventEnter | EventExit | EventUpdate | EventMessage(name: nat)

  /** The three nesting levels of a behaviour: substate, state and the global ("state machine") level. */
  datatype Level = SubstateLevel | StateLevel | MachineLevel

  /** The handler kinds whose presence a probe reports. */
  datatype Hook = OnUpdate | OnEnter | OnExit

  /** One registered-event bit: "the active handler at `level` has an `hook` response". */
  datatype Registration = Registration(hook: Hook, level: Level)

  /** Which scope counter a self-addressed message is bound to. */
  datatype ScopeRule = ScopeToSubstate | ScopeToState | ScopeToStateMachine

  /** A queue of the manager, every queue, or no queue (a machine not yet placed). */
  datatype QueueSelector = Single(index: nat) | AllQueues | NoQueue

  /** Which variable slot store an access addresses. */
  datatype VariableScope = StateVariables | SubstateVariables

  /** One variable slot: a tagged union, `Unset` as freshly declared. */
  datatype Value = Unset | IntValue(i: int) | BoolValue(b: bool) | ObjectValue(id: nat)

  /** Names of messages the machine sends to itself. */
  datatype MsgName = ChangeStateDelayedMsg | ChangeSubstateDelayedMsg | UserMsg(n: nat)

  /**
   * A structural request a behaviour makes of its manager; `kind` names the
   * concrete behaviour of the new machine (the factory's catalogue entry).
   */
  datatype MachineRequest =
    | ResetRequest
    | ReplaceRequest(kind: nat)
    | QueueRequest(kind: nat)
    | RequeueRequest
    | PushRequest(kind: nat)
    | PopRequest

  /** A call the handler code makes on its own state machine while it runs. */
  datatype Action =
    | RequestState(state: nat)
    | RequestSubstate(substate: nat)
    | RequestPop
    | RequestStateDelayed(state: nat)
    | RequestSubstateDelayed(substate: nat)
    | SendToSubstate(name: nat)
    | SendToState(name: nat)
    | SendToStateMachine(name: nat)
    | SetTimerSubstate(name: nat)
    | SetTimerState(name: nat)
    | SetTimerStateMachine(name: nat)
    | Declare(id: int, scope: VariableScope)
    | SetVariable(value: Value, id: int, scope: VariableScope)
    | ClearVariables(scope: VariableScope)
    | RequestMachineChange(request: MachineRequest)

  /**
   * What one invocation of the handler does: whether it reports the event
   * handled, which registrations it reports when probed, and the calls it
   * makes, in order.
   */
  datatype Reaction = Reaction(handled: bool, registers: set<Registration>, actions: seq<Action>)

  /** A concrete behaviour: its handler, called with (event, state, substate); -1 means "none". */
  type Behavior = (Event, int, int) -> Reaction

  /** The (state, substate) pair a handler invocation is addressed to. */
  datatype Target = Target(state: int, substate: int)

  predicate Handles(b: Behavior, e: Event, t: Target)
  {
    b(e, t.state, t.substate).handled
  }
}
