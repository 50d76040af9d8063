/*
 * The state machine of one behaviour, as a value: the fields of a
 * StateMachine and, for each of its operations, the state it leaves behind.
 * The class in state_machine.dfy is proved to follow these functions.
 *
 * A contract violation (an ASSERTMSG in the engine) is appended to `faults`
 * and the engine then goes on exactly as its code does once the assertion
 * has been reported.
 */
module MachineSpec {
  import opened Events
  import opened History

  /** Bound on the iterations of the transition-drain loop. */
  const SafetyLimit: nat := 20

  /** The kind of the pending transition. */
  datatype ChangeKind = NoStateChange | StateChange | StatePop

  /** Contract violations the engine detects. */
  datatype Fault =
    | ChangeNotAllowed        // transition requested while transitions are disallowed (in an exit handler)
    | ChangeAlreadyRequested  // transition requested while another one is pending
    | StackUnderflow          // pop applied with an empty history
    | InvalidChange           // drain step found no pending transition
    | FlipFlopping            // the drain loop reached its last permitted iteration
    | VariableOutOfRange      // a variable slot was set through an id the store does not have

  /** A message handed to the message router, addressed to this machine's own actor. */
  datatype OutMsg = OutMsg(name: MsgName, data: int, rule: ScopeRule, token: nat, queue: QueueSelector, timer: bool)

  /** Everything a StateMachine keeps, field by field. */
  datatype MachineState = MachineState(
    currentState: nat,
    currentSubstate: int,
    stateChange: ChangeKind,
    nextState: nat,
    nextSubstate: int,
    stateChangeAllowed: bool,
    delayedStateChangeQueued: bool,
    delayedSubstateChangeQueued: bool,
    scopeState: nat,
    scopeSubstate: nat,
    updateIteration: nat,
    registered: set<Registration>,
    stack: seq<nat>,
    stateVariables: seq<Value>,
    substateVariables: seq<Value>,
    queue: QueueSelector,
    outbox: seq<OutMsg>,
    machineRequests: seq<MachineRequest>,
    faults: seq<Fault>)

  /** The invariant every operation keeps. */
  predicate Inv(t: MachineState)
  {
    |t.stack| <= MaxStateStackSize &&
    t.scopeState <= t.scopeSubstate &&
    t.currentSubstate >= -1 &&
    t.nextSubstate >= -1
  }

  /** Report `f` unless `ok` holds. */
  function Flag(t: MachineState, ok: bool, f: Fault): MachineState
  {
    if ok then t else t.(faults := t.faults + [f])
  }

  /** Record `kind` as the pending transition, towards (s, ss). */
  function Pending(t: MachineState, kind: ChangeKind, s: nat, ss: int): MachineState
  {
    t.(stateChange := kind, nextState := s, nextSubstate := ss)
  }

  /** The fields a handler's calls never change (transitions are only recorded). */
  predicate SameCore(t: MachineState, r: MachineState)
  {
    r.currentState == t.currentState && r.currentSubstate == t.currentSubstate &&
    r.scopeState == t.scopeState && r.scopeSubstate == t.scopeSubstate &&
    r.stack == t.stack && r.updateIteration == t.updateIteration &&
    r.stateChangeAllowed == t.stateChangeAllowed && r.queue == t.queue
  }

  /** The pending transition is the same in both. */
  predicate SamePending(t: MachineState, r: MachineState)
  {
    r.stateChange == t.stateChange && r.nextState == t.nextState && r.nextSubstate == t.nextSubstate
  }

  // ---------------------------------------------------------------------
  // Transition requests

  /** The violations a ChangeState, ChangeSubstate or PopState request reports. */
  function RequestViolations(t: MachineState): seq<Fault>
  {
    (if t.stateChangeAllowed then [] else [ChangeNotAllowed]) +
    (if t.stateChange == NoStateChange then [] else [ChangeAlreadyRequested])
  }

  /** ChangeState(s): record a pending change to state `s` with no substate. */
  function RecordStateChange(t: MachineState, s: nat): (r: MachineState)
    ensures r.faults == t.faults + RequestViolations(t)
    ensures t.stateChangeAllowed ==> r.stateChange == StateChange && r.nextState == s && r.nextSubstate == -1
    ensures !t.stateChangeAllowed ==> SamePending(t, r)
    ensures r == t.(stateChange := r.stateChange, nextState := r.nextState, nextSubstate := r.nextSubstate, faults := r.faults)
  {
    var t1 := Flag(Flag(t, t.stateChangeAllowed, ChangeNotAllowed), t.stateChange == NoStateChange, ChangeAlreadyRequested);
    if t.stateChangeAllowed then Pending(t1, StateChange, s, -1) else t1
  }

  /** ChangeSubstate(ss): record a pending change to substate `ss` of the current state. */
  function RecordSubstateChange(t: MachineState, ss: nat): (r: MachineState)
    ensures r.faults == t.faults + RequestViolations(t)
    ensures t.stateChangeAllowed ==> r.stateChange == StateChange && r.nextState == t.currentState && r.nextSubstate == ss
    ensures !t.stateChangeAllowed ==> SamePending(t, r)
    ensures r == t.(stateChange := r.stateChange, nextState := r.nextState, nextSubstate := r.nextSubstate, faults := r.faults)
  {
    var t1 := Flag(Flag(t, t.stateChangeAllowed, ChangeNotAllowed), t.stateChange == NoStateChange, ChangeAlreadyRequested);
    if t.stateChangeAllowed then Pending(t1, StateChange, t.currentState, ss) else t1
  }

  /** PopState(): record a pending pop; the target state and substate are left as they are. */
  function RecordPop(t: MachineState): (r: MachineState)
    ensures r.faults == t.faults + RequestViolations(t)
    ensures t.stateChangeAllowed ==> r.stateChange == StatePop
    ensures !t.stateChangeAllowed ==> r.stateChange == t.stateChange
    ensures r == t.(stateChange := r.stateChange, faults := r.faults)
  {
    var t1 := Flag(Flag(t, t.stateChangeAllowed, ChangeNotAllowed), t.stateChange == NoStateChange, ChangeAlreadyRequested);
    if t.stateChangeAllowed then t1.(stateChange := StatePop) else t1
  }

  // ---------------------------------------------------------------------
  // Self-addressed messages

  /** The scope token a self-addressed message carries under `rule`. */
  function ScopeToken(t: MachineState, rule: ScopeRule): nat
  {
    match rule
    case ScopeToSubstate => t.scopeSubstate
    case ScopeToState => t.scopeState
    case ScopeToStateMachine => 0
  }

  /** SendMsgDelayedToMeHelper: hand the router a message to self, tagged with the scope token of `rule`. */
  function Sent(t: MachineState, name: MsgName, data: int, rule: ScopeRule, queue: QueueSelector, timer: bool): (r: MachineState)
    ensures |r.outbox| == |t.outbox| + 1 && r.outbox[..|t.outbox|] == t.outbox
    ensures var m := r.outbox[|t.outbox|];
            m.rule == rule && m.queue == queue && m.timer == timer && m.name == name &&
            (rule == ScopeToSubstate ==> m.token == t.scopeSubstate) &&
            (rule == ScopeToState ==> m.token == t.scopeState) &&
            (rule == ScopeToStateMachine ==> m.token == 0)
    ensures r == t.(outbox := r.outbox)
  {
    t.(outbox := t.outbox + [OutMsg(name, data, rule, ScopeToken(t, rule), queue, timer)])
  }

  /** ChangeStateDelayed(s): schedule a state-scoped message that later requests the change. */
  function RecordDelayedStateChange(t: MachineState, s: nat): (r: MachineState)
    ensures r.faults == t.faults + (if t.stateChangeAllowed then [] else [ChangeNotAllowed])
    ensures t.stateChangeAllowed ==>
      (r.delayedStateChangeQueued &&
       r.outbox == t.outbox + [OutMsg(ChangeStateDelayedMsg, s, ScopeToState, t.scopeState, t.queue, false)])
    ensures !t.stateChangeAllowed ==> r == t.(faults := r.faults)
    ensures r == t.(delayedStateChangeQueued := r.delayedStateChangeQueued, outbox := r.outbox, faults := r.faults)
  {
    var t1 := Flag(t, t.stateChangeAllowed, ChangeNotAllowed);
    if t.stateChangeAllowed then
      Sent(t1.(delayedStateChangeQueued := true), ChangeStateDelayedMsg, s, ScopeToState, t.queue, false)
    else t1
  }

  /** ChangeSubstateDelayed(ss): schedule a substate-scoped message that later requests the change. */
  function RecordDelayedSubstateChange(t: MachineState, ss: nat): (r: MachineState)
    ensures r.faults == t.faults + (if t.stateChangeAllowed then [] else [ChangeNotAllowed])
    ensures t.stateChangeAllowed ==>
      (r.delayedSubstateChangeQueued &&
       r.outbox == t.outbox + [OutMsg(ChangeSubstateDelayedMsg, ss, ScopeToSubstate, t.scopeSubstate, t.queue, false)])
    ensures !t.stateChangeAllowed ==> r == t.(faults := r.faults)
    ensures r == t.(delayedSubstateChangeQueued := r.delayedSubstateChangeQueued, outbox := r.outbox, faults := r.faults)
  {
    var t1 := Flag(t, t.stateChangeAllowed, ChangeNotAllowed);
    if t.stateChangeAllowed then
      Sent(t1.(delayedSubstateChangeQueued := true), ChangeSubstateDelayedMsg, ss, ScopeToSubstate, t.queue, false)
    else t1
  }

  /** The scope rule a periodic timer is bound to; SetTimerState binds to the substate, as written. */
  function TimerRule(level: Level): (rule: ScopeRule)
    ensures level == MachineLevel <==> rule == ScopeToStateMachine
    ensures rule != ScopeToState
  {
    match level
    case SubstateLevel => ScopeToSubstate
    case StateLevel => ScopeToSubstate
    case MachineLevel => ScopeToStateMachine
  }

  /** A structural request about this machine, left for the manager to take. */
  function Requested(t: MachineState, req: MachineRequest): (r: MachineState)
    ensures r.machineRequests == t.machineRequests + [req]
    ensures r == t.(machineRequests := r.machineRequests)
  {
    t.(machineRequests := t.machineRequests + [req])
  }

  /** The manager takes the structural requests; nothing else changes. */
  function Taken(t: MachineState): (r: MachineState)
    ensures r.machineRequests == []
    ensures Inv(t) ==> Inv(r)
  {
    t.(machineRequests := [])
  }

  /** SetStateMachineQueue(q): the machine now belongs to queue `q`. */
  function WithQueue(t: MachineState, q: QueueSelector): (r: MachineState)
    ensures r.queue == q
    ensures Inv(t) ==> Inv(r)
  {
    t.(queue := q)
  }

  // ---------------------------------------------------------------------
  // Variable slot stores

  function Store(t: MachineState, scope: VariableScope): seq<Value>
  {
    if scope == StateVariables then t.stateVariables else t.substateVariables
  }

  function WithStore(t: MachineState, scope: VariableScope, s: seq<Value>): (r: MachineState)
    ensures Store(r, scope) == s
  {
    if scope == StateVariables then t.(stateVariables := s) else t.(substateVariables := s)
  }

  /** DeclareVariable(id, scope): add one default slot when `id` is not yet a valid index. */
  function Declared(t: MachineState, id: int, scope: VariableScope): (r: MachineState)
    ensures |Store(t, scope)| <= id ==> Store(r, scope) == Store(t, scope) + [Unset]
    ensures id < |Store(t, scope)| ==> r == t
    ensures r == WithStore(t, scope, Store(r, scope))
    ensures id > |Store(t, scope)| ==> id >= |Store(r, scope)|
  {
    if scope == StateVariables && |t.stateVariables| <= id then
      t.(stateVariables := t.stateVariables + [Unset])
    else if scope == SubstateVariables && |t.substateVariables| <= id then
      t.(substateVariables := t.substateVariables + [Unset])
    else
      t
  }

  /** SetStateVariable(value, id, scope): overwrite slot `id` of the chosen store and nothing else. */
  function Assigned(t: MachineState, v: Value, id: int, scope: VariableScope): (r: MachineState)
    requires 0 <= id < |Store(t, scope)|
    ensures |Store(r, scope)| == |Store(t, scope)|
    ensures Lookup(r, id, scope) == v
    ensures forall j | 0 <= j < |Store(t, scope)| && j != id :: Store(r, scope)[j] == Store(t, scope)[j]
    ensures r == WithStore(t, scope, Store(r, scope))
  {
    WithStore(t, scope, Store(t, scope)[id := v])
  }

  /**
   * SetStateVariable(value, id, scope) as a handler calls it: an id the
   * store does not have is reported and the write is skipped.
   */
  function Stored(t: MachineState, v: Value, id: int, scope: VariableScope): (r: MachineState)
    ensures 0 <= id < |Store(t, scope)| ==> r == Assigned(t, v, id, scope)
    ensures !(0 <= id < |Store(t, scope)|) ==> r == t.(faults := t.faults + [VariableOutOfRange])
  {
    if 0 <= id < |Store(t, scope)| then Assigned(t, v, id, scope) else Flag(t, false, VariableOutOfRange)
  }

  /** GetStateVariable(id, scope). */
  function Lookup(t: MachineState, id: int, scope: VariableScope): Value
    requires 0 <= id < |Store(t, scope)|
  {
    Store(t, scope)[id]
  }

  // ---------------------------------------------------------------------
  // Handler dispatch

  /** The effect of one call a handler makes. */
  function Effect(t: MachineState, a: Action): (r: MachineState)
    ensures SameCore(t, r) && r.registered == t.registered
    ensures t.faults <= r.faults
    ensures !t.stateChangeAllowed ==> SamePending(t, r)
    ensures Inv(t) ==> Inv(r)
  {
    if IsTransitionRequest(a) then TransitionRequestEffect(t, a)
    else if IsSend(a) then SendEffect(t, a)
    else OtherEffect(t, a)
  }

  predicate IsTransitionRequest(a: Action)
  {
    a.RequestState? || a.RequestSubstate? || a.RequestPop? || a.RequestStateDelayed? || a.RequestSubstateDelayed?
  }

  predicate IsSend(a: Action)
  {
    a.SendToSubstate? || a.SendToState? || a.SendToStateMachine? ||
    a.SetTimerSubstate? || a.SetTimerState? || a.SetTimerStateMachine?
  }

  predicate IsStoreAccess(a: Action)
  {
    a.SetVariable? || a.ClearVariables?
  }

  /** A transition request, immediate or delayed. */
  function TransitionRequestEffect(t: MachineState, a: Action): (r: MachineState)
    requires IsTransitionRequest(a)
    ensures SameCore(t, r) && r.registered == t.registered
    ensures t.faults <= r.faults
    ensures !t.stateChangeAllowed ==> SamePending(t, r)
    ensures Inv(t) ==> Inv(r)
  {
    match a
    case RequestState(s) => RecordStateChange(t, s)
    case RequestSubstate(ss) => RecordSubstateChange(t, ss)
    case RequestPop => RecordPop(t)
    case RequestStateDelayed(s) => RecordDelayedStateChange(t, s)
    case RequestSubstateDelayed(ss) => RecordDelayedSubstateChange(t, ss)
  }

  /** A message or periodic timer addressed to the machine itself. */
  function SendEffect(t: MachineState, a: Action): (r: MachineState)
    requires IsSend(a)
    ensures SameCore(t, r) && r.registered == t.registered && r.faults == t.faults && SamePending(t, r)
    ensures Inv(t) ==> Inv(r)
  {
    match a
    case SendToSubstate(n) => Sent(t, UserMsg(n), 0, ScopeToSubstate, t.queue, false)
    case SendToState(n) => Sent(t, UserMsg(n), 0, ScopeToState, t.queue, false)
    case SendToStateMachine(n) => Sent(t, UserMsg(n), 0, ScopeToStateMachine, t.queue, false)
    case SetTimerSubstate(n) => Sent(t, UserMsg(n), 0, TimerRule(SubstateLevel), t.queue, true)
    case SetTimerState(n) => Sent(t, UserMsg(n), 0, TimerRule(StateLevel), t.queue, true)
    case SetTimerStateMachine(n) => Sent(t, UserMsg(n), 0, TimerRule(MachineLevel), t.queue, true)
  }

  /** A write to a variable slot, or the deletion of a whole store. */
  function StoreEffect(t: MachineState, a: Action): (r: MachineState)
    requires IsStoreAccess(a)
    ensures SameCore(t, r) && r.registered == t.registered && t.faults <= r.faults && SamePending(t, r)
    ensures Inv(t) ==> Inv(r)
  {
    match a
    case SetVariable(v, id, scope) => Stored(t, v, id, scope)
    case ClearVariables(scope) => WithStore(t, scope, [])
  }

  /** A variable slot declaration, an access to a variable store, or a structural request for the manager. */
  function OtherEffect(t: MachineState, a: Action): (r: MachineState)
    requires a.Declare? || a.RequestMachineChange? || IsStoreAccess(a)
    ensures SameCore(t, r) && r.registered == t.registered && t.faults <= r.faults && SamePending(t, r)
    ensures Inv(t) ==> Inv(r)
  {
    match a
    case Declare(id, scope) => Declared(t, id, scope)
    case RequestMachineChange(req) => Requested(t, req)
    case SetVariable(_, _, _) => StoreEffect(t, a)
    case ClearVariables(_) => StoreEffect(t, a)
  }

  /** The effect of a handler's calls, in order. */
  function Effects(t: MachineState, acts: seq<Action>): (r: MachineState)
    ensures SameCore(t, r) && r.registered == t.registered
    ensures t.faults <= r.faults
    ensures !t.stateChangeAllowed ==> SamePending(t, r)
    ensures Inv(t) ==> Inv(r)
    decreases |acts|
  {
    if acts == [] then t else Effect(Effects(t, acts[..|acts| - 1]), acts[|acts| - 1])
  }

  /**
   * One invocation of the handler (`States(event, msg, state, substate)`):
   * a probe adds the registrations the handler reports; then its calls take
   * effect. The result's second part is the handler's "handled" answer.
   */
  function Handle(b: Behavior, t: MachineState, e: Event, tg: Target): (r: (MachineState, bool))
    ensures r.1 == Handles(b, e, tg)
    ensures SameCore(t, r.0)
    ensures r.0.registered == if e == EventProbe then t.registered + b(e, tg.state, tg.substate).registers else t.registered
    ensures t.faults <= r.0.faults
    ensures !t.stateChangeAllowed ==> SamePending(t, r.0)
    ensures Inv(t) ==> Inv(r.0)
  {
    var reaction := b(e, tg.state, tg.substate);
    var t1 := if e == EventProbe then t.(registered := t.registered + reaction.registers) else t;
    (Effects(t1, reaction.actions), reaction.handled)
  }

  /** Invoke the handler for each target in turn. */
  function HandleAll(b: Behavior, t: MachineState, e: Event, ts: seq<Target>): (r: MachineState)
    ensures SameCore(t, r)
    ensures e != EventProbe ==> r.registered == t.registered
    ensures t.faults <= r.faults
    ensures !t.stateChangeAllowed ==> SamePending(t, r)
    ensures Inv(t) ==> Inv(r)
    decreases |ts|
  {
    if ts == [] then t else HandleAll(b, Handle(b, t, e, ts[0]).0, e, ts[1..])
  }

  /**
   * First-handled-wins: the handlers of `chain` that are invoked, in order,
   * stopping after the first that reports the event handled.
   */
  function FirstHandled(b: Behavior, e: Event, chain: seq<Target>): (r: seq<Target>)
    ensures |r| <= |chain| && r == chain[..|r|]
    ensures |chain| > 0 ==> |r| > 0
    ensures forall i | 0 <= i < |r| - 1 :: !Handles(b, e, r[i])
    ensures r == chain || (|r| > 0 && Handles(b, e, r[|r| - 1]))
    decreases |chain|
  {
    if chain == [] then []
    else if Handles(b, e, chain[0]) then [chain[0]]
    else [chain[0]] + FirstHandled(b, e, chain[1..])
  }

  /** Process's cascade: the substate (when there is one), then the state, then the global handler. */
  function ProcessChain(s: nat, ss: int): seq<Target>
  {
    (if ss >= 0 then [Target(s, ss)] else []) + [Target(s, -1), Target(-1, -1)]
  }

  /** EventUpdate's cascade: the same order, each level only when it registered an update response. */
  function UpdateChain(reg: set<Registration>, s: nat, ss: int): seq<Target>
  {
    (if ss >= 0 && Registration(OnUpdate, SubstateLevel) in reg then [Target(s, ss)] else []) +
    (if Registration(OnUpdate, StateLevel) in reg then [Target(s, -1)] else []) +
    (if Registration(OnUpdate, MachineLevel) in reg then [Target(-1, -1)] else [])
  }

  /** Whether any update response is registered. */
  predicate UpdateRegistered(reg: set<Registration>)
  {
    Registration(OnUpdate, SubstateLevel) in reg ||
    Registration(OnUpdate, StateLevel) in reg ||
    Registration(OnUpdate, MachineLevel) in reg
  }

  // ---------------------------------------------------------------------
  // Applying a transition

  /** The registrations kept across a transition: global ones, and state ones on a substate-only change. */
  function Mask(reg: set<Registration>, full: bool): (r: set<Registration>)
    ensures forall x :: x in r <==> x in reg && (x.level == MachineLevel || (!full && x.level == StateLevel))
  {
    set x | x in reg && (x.level == MachineLevel || (!full && x.level == StateLevel))
  }

  /** The switch on the pending change: the new current state and substate, and the history. */
  function Switched(t: MachineState): (r: MachineState)
    ensures r == t.(currentState := r.currentState, currentSubstate := r.currentSubstate, stack := r.stack, faults := r.faults)
    ensures Inv(t) ==> Inv(r)
  {
    match t.stateChange
    case StateChange => Forward(t)
    case StatePop => if |t.stack| > 0 then Back(t) else Flag(t, false, StackUnderflow)
    case NoStateChange => Flag(t, false, InvalidChange)
  }

  /** The current state and substate become (s, ss). */
  function Moved(t: MachineState, s: nat, ss: int): MachineState
  {
    t.(currentState := s, currentSubstate := ss)
  }

  /** To the requested (state, substate); a full state change remembers the state it leaves. */
  function Forward(t: MachineState): MachineState
  {
    var t1 := if t.nextSubstate < 0 then t.(stack := Pushed(t.stack, t.currentState)) else t;
    Moved(t1, t.nextState, t.nextSubstate)
  }

  /** Back to the most recent history entry, with no substate. */
  function Back(t: MachineState): MachineState
    requires |t.stack| > 0
  {
    Moved(t.(stack := Popped(t.stack)), Top(t.stack), -1)
  }

  /** A new substate scope, and on a full change a new state scope. */
  function Advanced(t: MachineState, full: bool): MachineState
  {
    t.(scopeSubstate := t.scopeSubstate + 1, scopeState := if full then t.scopeState + 1 else t.scopeState)
  }

  /** The variables of the scopes left behind are deleted. */
  function Cleared(t: MachineState, full: bool): MachineState
  {
    var t1 := WithStore(t, SubstateVariables, []);
    if full then WithStore(t1, StateVariables, []) else t1
  }

  /** Nothing pending, requests allowed again, registrations of the levels left behind dropped. */
  function Settled(t: MachineState, full: bool): MachineState
  {
    t.(stateChange := NoStateChange, stateChangeAllowed := true, registered := Mask(t.registered, full))
  }

  /**
   * The body of one drain iteration between the exit and the probe
   * dispatches: apply the pending change, advance the scope counters, clear
   * the scoped variables, re-allow requests and mask the registrations.
   * Whether the change counts as a full state change is read from
   * `nextSubstate`, which a pop request does not set.
   */
  function ApplyChange(t: MachineState): (r: MachineState)
    ensures r.scopeSubstate == t.scopeSubstate + 1
    ensures r.scopeState == t.scopeState + (if t.nextSubstate < 0 then 1 else 0)
    ensures t.faults <= r.faults && r.queue == t.queue
    ensures Inv(t) ==> Inv(r)
  {
    var full := t.nextSubstate < 0;
    Settled(Cleared(Advanced(Switched(t), full), full), full)
  }

  /** A transition starts new scopes: their variables are gone, requests are allowed, stale registrations dropped. */
  lemma ApplyChangeStartsScope(t: MachineState)
    ensures var r := ApplyChange(t);
      r.substateVariables == [] &&
      r.stateVariables == (if t.nextSubstate < 0 then [] else t.stateVariables) &&
      r.stateChange == NoStateChange && r.stateChangeAllowed &&
      r.registered == Mask(t.registered, t.nextSubstate < 0)
  {
  }

  /** A requested change leads to the requested (state, substate); a full one remembers the state it leaves. */
  lemma ApplyChangeMoves(t: MachineState)
    requires t.stateChange == StateChange
    ensures var r := ApplyChange(t);
      r.currentState == t.nextState && r.currentSubstate == t.nextSubstate && r.faults == t.faults &&
      r.stack == if t.nextSubstate < 0 then Pushed(t.stack, t.currentState) else t.stack
  {
  }

  /** A pop returns to the most recent history entry; with an empty history, or nothing pending, it only reports. */
  lemma ApplyChangePops(t: MachineState)
    requires t.stateChange != StateChange
    ensures var r := ApplyChange(t);
      (t.stateChange == StatePop && |t.stack| > 0 ==>
        r.currentState == Top(t.stack) && r.currentSubstate == -1 && r.stack == Popped(t.stack) && r.faults == t.faults) &&
      (t.stateChange == StatePop && |t.stack| == 0 ==>
        r.currentState == t.currentState && r.currentSubstate == t.currentSubstate && r.stack == t.stack &&
        r.faults == t.faults + [StackUnderflow]) &&
      (t.stateChange == NoStateChange ==>
        r.currentState == t.currentState && r.currentSubstate == t.currentSubstate && r.stack == t.stack &&
        r.faults == t.faults + [InvalidChange])
  {
    ApplyChangeKeepsSwitch(t);
  }

  /** After the switch, a transition no longer touches the position, the history or the reports. */
  lemma ApplyChangeKeepsSwitch(t: MachineState)
    ensures var r := ApplyChange(t); var s := Switched(t);
      r.currentState == s.currentState && r.currentSubstate == s.currentSubstate &&
      r.stack == s.stack && r.faults == s.faults
  {
  }

  /** A transition changes nothing but the position, the history, the scopes, the pending change and the registrations. */
  lemma ApplyChangeFrame(t: MachineState)
    ensures var r := ApplyChange(t);
      r.nextState == t.nextState && r.nextSubstate == t.nextSubstate &&
      r.delayedStateChangeQueued == t.delayedStateChangeQueued &&
      r.delayedSubstateChangeQueued == t.delayedSubstateChangeQueued &&
      r.updateIteration == t.updateIteration && r.queue == t.queue && r.outbox == t.outbox &&
      r.machineRequests == t.machineRequests
  {
  }

  /**
   * A pop leaves its state for the most recent history entry, yet it does
   * not set `nextSubstate`: after a request for a substate change was
   * recorded, the pop keeps the state scope, the state variables and the
   * state-level registrations of the state it leaves.
   */
  lemma PopAfterSubstateRequestKeepsStateScope(t: MachineState)
    requires t.stateChange == StatePop && |t.stack| > 0 && t.nextSubstate >= 0
    ensures var r := ApplyChange(t);
      r.currentState == Top(t.stack) && r.currentSubstate == -1 &&
      r.scopeState == t.scopeState && r.stateVariables == t.stateVariables &&
      r.registered == Mask(t.registered, false)
  {
  }

  /** The exit dispatches of a drain iteration. */
  function Exited(b: Behavior, t: MachineState): (r: MachineState)
    ensures SameCore(t, r) && t.faults <= r.faults
    ensures !t.stateChangeAllowed ==> SamePending(t, r)
    ensures Inv(t) ==> Inv(r)
  {
    var t1 :=
      if t.currentSubstate >= 0 && Registration(OnExit, SubstateLevel) in t.registered
      then Handle(b, t, EventExit, Target(t.currentState, t.currentSubstate)).0 else t;
    if t1.nextSubstate < 0 && Registration(OnExit, StateLevel) in t1.registered
    then Handle(b, t1, EventExit, Target(t1.currentState, -1)).0 else t1
  }

  /** The probe and enter dispatches of a drain iteration. */
  function Entered(b: Behavior, t: MachineState): (r: MachineState)
    ensures SameCore(t, r) && t.faults <= r.faults
    ensures Inv(t) ==> Inv(r)
  {
    var t1 := Handle(b, t, EventProbe, Target(t.currentState, t.currentSubstate)).0;
    if t1.nextSubstate < 0 then
      (if Registration(OnEnter, StateLevel) in t1.registered
       then Handle(b, t1, EventEnter, Target(t1.currentState, t1.currentSubstate)).0 else t1)
    else
      (if Registration(OnEnter, SubstateLevel) in t1.registered
       then Handle(b, t1, EventEnter, Target(t1.currentState, t1.currentSubstate)).0 else t1)
  }

  /** Whether requests are allowed is set; no delayed change is marked as queued. */
  function ChangeFlags(t: MachineState, allowed: bool): MachineState
  {
    t.(stateChangeAllowed := allowed, delayedStateChangeQueued := false, delayedSubstateChangeQueued := false)
  }

  /** Requests are disallowed while the old state exits; the delayed-change markers and the update count restart. */
  function Begun(t: MachineState): (r: MachineState)
    ensures !r.stateChangeAllowed && r.faults == t.faults && r.queue == t.queue
    ensures r.scopeState == t.scopeState && r.scopeSubstate == t.scopeSubstate && r.nextSubstate == t.nextSubstate
    ensures Inv(t) ==> Inv(r)
  {
    ChangeFlags(t, false).(updateIteration := 0)
  }

  /**
   * One iteration of PerformStateChanges; `remaining` is the safety count
   * after its decrement, and reaching 0 is the flip-flopping violation.
   */
  function DrainStep(b: Behavior, t: MachineState, remaining: nat): (r: MachineState)
    ensures r.scopeSubstate == t.scopeSubstate + 1
    ensures r.scopeState == t.scopeState + (if t.nextSubstate < 0 then 1 else 0)
    ensures t.faults <= r.faults
    ensures remaining == 0 ==> |r.faults| > |t.faults| && r.faults[|t.faults|] == FlipFlopping
    ensures r.queue == t.queue
    ensures Inv(t) ==> Inv(r)
  {
    Transitioned(b, Started(t, remaining))
  }

  /** The start of a drain iteration: the safety count is checked and further requests are refused. */
  function Started(t: MachineState, remaining: nat): (r: MachineState)
    ensures !r.stateChangeAllowed && r.queue == t.queue
    ensures r.faults == t.faults + (if remaining > 0 then [] else [FlipFlopping])
    ensures r.scopeState == t.scopeState && r.scopeSubstate == t.scopeSubstate && r.nextSubstate == t.nextSubstate
    ensures Inv(t) ==> Inv(r)
  {
    Begun(Flag(t, remaining > 0, FlipFlopping))
  }

  /** The exit dispatches, the change itself, then the probe and enter dispatches. */
  function Transitioned(b: Behavior, t: MachineState): (r: MachineState)
    requires !t.stateChangeAllowed
    ensures r.scopeSubstate == t.scopeSubstate + 1
    ensures r.scopeState == t.scopeState + (if t.nextSubstate < 0 then 1 else 0)
    ensures t.faults <= r.faults
    ensures r.queue == t.queue
    ensures Inv(t) ==> Inv(r)
  {
    Entered(b, ApplyChange(Exited(b, t)))
  }

  /**
   * PerformStateChanges from safety count `n`: apply pending transitions
   * until none is pending or the count runs out.
   */
  function Drain(b: Behavior, t: MachineState, n: nat): (r: MachineState)
    ensures Inv(t) ==> Inv(r)
    ensures r.queue == t.queue
    ensures t.faults <= r.faults
    ensures t.scopeState <= r.scopeState
    ensures t.scopeSubstate <= r.scopeSubstate <= t.scopeSubstate + n
    ensures r.scopeSubstate == t.scopeSubstate <==> t.stateChange == NoStateChange || n == 0
    ensures t.stateChange == NoStateChange || n == 0 ==> r == t
    ensures r.stateChange == NoStateChange || n == 0 ||
            exists i :: |t.faults| <= i < |r.faults| && r.faults[i] == FlipFlopping
    decreases n
  {
    if t.stateChange == NoStateChange || n == 0 then t
    else Drain(b, DrainStep(b, t, n - 1), n - 1)
  }

  // ---------------------------------------------------------------------
  // Entry points

  /** Process's dispatch: substate handler (if any), then state handler, then global handler, while unhandled. */
  function Cascade(b: Behavior, t: MachineState, e: Event): (r: MachineState)
    ensures SameCore(t, r) && t.faults <= r.faults && r.queue == t.queue
    ensures Inv(t) ==> Inv(r)
  {
    var p1 := if t.currentSubstate >= 0 then Handle(b, t, e, Target(t.currentState, t.currentSubstate)) else (t, false);
    var p2 := if !p1.1 then Handle(b, p1.0, e, Target(p1.0.currentState, -1)) else p1;
    if !p2.1 then Handle(b, p2.0, e, Target(-1, -1)).0 else p2.0
  }

  /** Dispatching over a chain is the first handler, then (if it declined) the rest of the chain. */
  lemma DispatchStep(b: Behavior, t: MachineState, e: Event, x: Target, rest: seq<Target>)
    ensures HandleAll(b, t, e, FirstHandled(b, e, [x] + rest)) ==
            var p := Handle(b, t, e, x);
            if p.1 then p.0 else HandleAll(b, p.0, e, FirstHandled(b, e, rest))
  {
    var c := [x] + rest;
    assert c[0] == x && c[1..] == rest;
    var p := Handle(b, t, e, x);
    if p.1 {
      assert FirstHandled(b, e, c) == [x];
      assert [x][1..] == [];
    } else {
      var fr := FirstHandled(b, e, rest);
      assert FirstHandled(b, e, c) == [x] + fr;
      assert ([x] + fr)[0] == x && ([x] + fr)[1..] == fr;
    }
  }

  /** Process's dispatch invokes exactly the first-handled-wins prefix of substate, state, global. */
  lemma CascadeIsFirstHandled(b: Behavior, t: MachineState, e: Event)
    ensures Cascade(b, t, e) == HandleAll(b, t, e, FirstHandled(b, e, ProcessChain(t.currentState, t.currentSubstate)))
  {
    var s, ss := t.currentState, t.currentSubstate;
    var g := Target(-1, -1);
    var tail := [Target(s, -1)] + [g];
    assert [g] + [] == [g];
    forall u: MachineState ensures HandleAll(b, u, e, FirstHandled(b, e, [g])) == Handle(b, u, e, g).0 {
      DispatchStep(b, u, e, g, []);
    }
    forall u: MachineState ensures HandleAll(b, u, e, FirstHandled(b, e, tail)) ==
        var p := Handle(b, u, e, Target(s, -1)); if p.1 then p.0 else Handle(b, p.0, e, g).0 {
      DispatchStep(b, u, e, Target(s, -1), [g]);
    }
    if ss >= 0 {
      assert ProcessChain(s, ss) == [Target(s, ss)] + tail;
      DispatchStep(b, t, e, Target(s, ss), tail);
    } else {
      assert ProcessChain(s, ss) == tail;
    }
  }

  /** Update's dispatch: the same cascade, each level only when it registered an update response. */
  function UpdateCascade(b: Behavior, t: MachineState): (r: MachineState)
    ensures SameCore(t, r) && t.faults <= r.faults && r.queue == t.queue
    ensures Inv(t) ==> Inv(r)
  {
    var p1 :=
      if t.currentSubstate >= 0 && Registration(OnUpdate, SubstateLevel) in t.registered
      then Handle(b, t, EventUpdate, Target(t.currentState, t.currentSubstate)) else (t, false);
    var p2 :=
      if !p1.1 && Registration(OnUpdate, StateLevel) in p1.0.registered
      then Handle(b, p1.0, EventUpdate, Target(p1.0.currentState, -1)) else p1;
    if !p2.1 && Registration(OnUpdate, MachineLevel) in p2.0.registered
    then Handle(b, p2.0, EventUpdate, Target(-1, -1)).0 else p2.0
  }

  /** The update chain below the substate level, dispatched from `u`. */
  function UpdateTail(b: Behavior, u: MachineState, s: nat): MachineState
  {
    var p := if Registration(OnUpdate, StateLevel) in u.registered then Handle(b, u, EventUpdate, Target(s, -1)) else (u, false);
    if !p.1 && Registration(OnUpdate, MachineLevel) in p.0.registered then Handle(b, p.0, EventUpdate, Target(-1, -1)).0 else p.0
  }

  lemma UpdateTailIsFirstHandled(b: Behavior, u: MachineState, s: nat)
    ensures UpdateTail(b, u, s) ==
            HandleAll(b, u, EventUpdate, FirstHandled(b, EventUpdate, UpdateChain(u.registered, s, -1)))
  {
    var e, reg := EventUpdate, u.registered;
    var c2 := if Registration(OnUpdate, StateLevel) in reg then [Target(s, -1)] else [];
    var c3 := if Registration(OnUpdate, MachineLevel) in reg then [Target(-1, -1)] else [];
    assert UpdateChain(reg, s, -1) == c2 + c3;
    if c3 != [] {
      assert c3 == [Target(-1, -1)] + [];
      forall v: MachineState ensures HandleAll(b, v, e, FirstHandled(b, e, c3)) == Handle(b, v, e, Target(-1, -1)).0 {
        DispatchStep(b, v, e, Target(-1, -1), []);
      }
    }
    if c2 != [] {
      assert c2 + c3 == [Target(s, -1)] + c3;
      DispatchStep(b, u, e, Target(s, -1), c3);
    } else {
      assert c2 + c3 == c3;
    }
  }

  /** Update's dispatch invokes exactly the first-handled-wins prefix of the registered levels. */
  lemma UpdateCascadeIsFirstHandled(b: Behavior, t: MachineState)
    ensures UpdateCascade(b, t) ==
            HandleAll(b, t, EventUpdate, FirstHandled(b, EventUpdate, UpdateChain(t.registered, t.currentState, t.currentSubstate)))
  {
    var s, ss, reg := t.currentState, t.currentSubstate, t.registered;
    var e := EventUpdate;
    var rest := UpdateChain(reg, s, -1);
    if ss >= 0 && Registration(OnUpdate, SubstateLevel) in reg {
      assert UpdateChain(reg, s, ss) == [Target(s, ss)] + rest;
      DispatchStep(b, t, e, Target(s, ss), rest);
      var p := Handle(b, t, e, Target(s, ss));
      UpdateTailIsFirstHandled(b, p.0, s);
    } else {
      assert UpdateChain(reg, s, ss) == rest;
      UpdateTailIsFirstHandled(b, t, s);
    }
  }

  /** Process(event): cascade, then drain; nothing when the owner is marked for deletion. */
  function Processed(b: Behavior, t: MachineState, e: Event, ownerDeleted: bool): (r: MachineState)
    ensures Inv(t) ==> Inv(r)
    ensures t.faults <= r.faults
    ensures t.scopeState <= r.scopeState
    ensures t.scopeSubstate <= r.scopeSubstate <= t.scopeSubstate + SafetyLimit
    ensures ownerDeleted ==> r == t
    ensures r.queue == t.queue
  {
    if ownerDeleted then t
    else
      var t1 := Cascade(b, t, e);
      assert SameCore(t, t1) && t.faults <= t1.faults && (Inv(t) ==> Inv(t1));
      Drain(b, t1, SafetyLimit)
  }

  /** One more update in the current state. */
  function Bumped(t: MachineState): (r: MachineState)
    ensures r.updateIteration == t.updateIteration + 1
    ensures SameCore(t, r.(updateIteration := t.updateIteration)) && r.faults == t.faults
    ensures Inv(t) ==> Inv(r)
  {
    t.(updateIteration := t.updateIteration + 1)
  }

  /** EventUpdate(): gated by the update registrations; cascade over registered levels, then drain. */
  function Updated(b: Behavior, t: MachineState, ownerDeleted: bool): (r: MachineState)
    ensures Inv(t) ==> Inv(r)
    ensures t.faults <= r.faults
    ensures t.scopeState <= r.scopeState
    ensures t.scopeSubstate <= r.scopeSubstate <= t.scopeSubstate + SafetyLimit
    ensures ownerDeleted || !UpdateRegistered(t.registered) ==> r == t
    ensures r.queue == t.queue
  {
    if UpdateRegistered(t.registered) && !ownerDeleted then
      var t1 := UpdateCascade(b, Bumped(t));
      assert t.faults <= t1.faults && (Inv(t) ==> Inv(t1));
      Drain(b, t1, SafetyLimit)
    else t
  }

  /** Initialize(): the start state; the queue and what was sent out or reported are kept. */
  function Initialized(t: MachineState): (r: MachineState)
    ensures Inv(r)
    ensures r.currentState == 0 && r.currentSubstate == -1 && r.stack == []
    ensures r.scopeState == 0 && r.scopeSubstate == 0
    ensures r.stateChange == NoStateChange && r.nextState == 0 && r.nextSubstate == 0
    ensures r.stateChangeAllowed && !r.delayedStateChangeQueued && !r.delayedSubstateChangeQueued
    ensures r.updateIteration == 0 && r.registered == {}
    ensures r.stateVariables == [] && r.substateVariables == []
    ensures r.queue == t.queue && r.outbox == t.outbox && r.machineRequests == t.machineRequests && r.faults == t.faults
  {
    var t1 := Moved(ScopesReset(t), 0, -1);
    var t2 := ChangeFlags(Pending(t1, NoStateChange, 0, 0), true);
    WithStore(WithStore(HistoryCleared(t2), StateVariables, []), SubstateVariables, [])
  }

  /** The first scopes, and no update yet. */
  function ScopesReset(t: MachineState): MachineState
  {
    t.(scopeState := 0, scopeSubstate := 0, updateIteration := 0)
  }

  /** No registrations and an empty history. */
  function HistoryCleared(t: MachineState): MachineState
  {
    t.(registered := {}, stack := [])
  }

  /** A freshly constructed machine: not in any queue, nothing sent or reported yet. */
  function Constructed(): (r: MachineState)
    ensures Inv(r) && r.queue == NoQueue && r.outbox == [] && r.machineRequests == [] && r.faults == []
  {
    Initialized(MachineState(0, -1, NoStateChange, 0, 0, true, false, false, 0, 0, 0, {}, [], [], [], NoQueue, [], [], []))
  }

  /** Initialize() forgets everything but the queue and what was sent out or reported. */
  lemma InitializedForgetsPast(t: MachineState, u: MachineState)
    requires t.queue == u.queue && t.outbox == u.outbox && t.machineRequests == u.machineRequests && t.faults == u.faults
    ensures Initialized(t) == Initialized(u)
  {
  }

  /**
   * After Initialize(), nextSubstate is 0, so a pop the entry handlers
   * request counts as a substate-only change: the state scope and the state
   * variables survive it, and the empty history makes it report.
   */
  lemma PopAfterInitializeKeepsStateScope(u: MachineState)
    ensures var t := RecordPop(Initialized(u));
      var r := ApplyChange(t);
      t.stateChange == StatePop &&
      r.scopeState == t.scopeState && r.stateVariables == t.stateVariables &&
      r.currentState == t.currentState && r.faults == t.faults + [StackUnderflow]
  {
  }

  /** Reset(): initialize, probe, enter. */
  function ResetTo(b: Behavior, t: MachineState, ownerDeleted: bool): (r: MachineState)
    ensures Inv(r)
    ensures t.faults <= r.faults
    ensures r.scopeState <= r.scopeSubstate <= 2 * SafetyLimit
    ensures r.queue == t.queue
  {
    var t0 := Initialized(t);
    var t1 := Processed(b, t0, EventProbe, ownerDeleted);
    assert Inv(t1) && t1.scopeSubstate <= SafetyLimit && t.faults <= t1.faults && t1.queue == t.queue;
    Processed(b, t1, EventEnter, ownerDeleted)
  }

  /**
   * Reset() leads to the same machine whatever state it was in: only the
   * queue, the messages sent, the untaken requests and the reports carry over.
   */
  lemma {:induction false} ResetToForgetsPast(b: Behavior, t: MachineState, u: MachineState, ownerDeleted: bool)
    requires t.queue == u.queue && t.outbox == u.outbox && t.machineRequests == u.machineRequests && t.faults == u.faults
    ensures ResetTo(b, t, ownerDeleted) == ResetTo(b, u, ownerDeleted)
  {
    InitializedForgetsPast(t, u);
  }
}
