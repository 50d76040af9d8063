/*
 * StateMachine, the object: its fields are updated in place by the event
 * entry points (Reset, Update, Process), by the transition drain loop and by
 * the calls its own handler makes while it runs. Every method is proved to
 * leave the fields as the matching function of MachineSpec says, so all
 * properties proved of those functions hold of the object.
 *
 * The handler (the user-supplied `States` of a concrete machine) is the
 * constant `behavior`; the calls it makes on the machine are replayed through
 * `Perform`. Structural requests (reset, replace, queue, requeue, push, pop of
 * the machine itself) are collected in `machineRequests`, which the manager
 * takes and forwards to its request slot of this machine's queue.
 */
module StateMachines {
  import opened Events
  import opened History
  import opened MachineSpec

  class StateMachine {
    const behavior: Behavior

    var currentState: nat
    var currentSubstate: int
    var stateChange: ChangeKind
    var nextState: nat
    var nextSubstate: int
    var stateChangeAllowed: bool
    var delayedStateChangeQueued: bool
    var delayedSubstateChangeQueued: bool
    var scopeState: nat
    var scopeSubstate: nat
    var updateIteration: nat
    var registeredEvents: set<Registration>
    var stack: seq<nat>
    var stateVariables: seq<Value>
    var substateVariables: seq<Value>
    var queue: QueueSelector
    /** Messages handed to the message router, oldest first. */
    var outbox: seq<OutMsg>
    /** Structural requests not yet taken by the manager, oldest first. */
    var machineRequests: seq<MachineRequest>
    /** Contract violations reported, oldest first. */
    var faults: seq<Fault>

    /** The fields, as a value. */
    function Snap(): MachineState
      reads this
    {
      MachineState(currentState, currentSubstate, stateChange, nextState, nextSubstate,
                   stateChangeAllowed, delayedStateChangeQueued, delayedSubstateChangeQueued,
                   scopeState, scopeSubstate, updateIteration, registeredEvents, stack,
                   stateVariables, substateVariables, queue, outbox, machineRequests, faults)
    }

    ghost predicate Valid()
      reads this
    {
      Inv(Snap())
    }

    /** A new machine, not yet placed in a queue, in its start state. */
    constructor (b: Behavior)
      ensures behavior == b && Valid() && Snap() == Constructed()
    {
      behavior := b;
      queue := NoQueue;
      outbox := [];
      machineRequests := [];
      faults := [];
      new;
      Initialize();
    }

    method Initialize()
      modifies this
      ensures Valid() && Snap() == Initialized(old(Snap()))
    {
      ResetScopes();
      SetCurrent(0, -1);
      SetPending(NoStateChange, 0, 0);
      ResetChangeFlags(true);
      ClearRegistrationsAndHistory();
      DeleteAllStateVariables();
      DeleteAllSubstateVariables();
    }

    method ResetScopes()
      modifies this`scopeState, this`scopeSubstate, this`updateIteration
      ensures Snap() == ScopesReset(old(Snap()))
    {
      scopeState := 0;
      scopeSubstate := 0;
      updateIteration := 0;
    }

    /** Allow or disallow requests, and forget the delayed-change markers. */
    method ResetChangeFlags(allowed: bool)
      modifies this`stateChangeAllowed, this`delayedStateChangeQueued, this`delayedSubstateChangeQueued
      ensures Snap() == ChangeFlags(old(Snap()), allowed)
    {
      stateChangeAllowed := allowed;
      delayedStateChangeQueued := false;
      delayedSubstateChangeQueued := false;
    }

    method ClearRegistrationsAndHistory()
      modifies this`registeredEvents, this`stack
      ensures Snap() == HistoryCleared(old(Snap()))
    {
      registeredEvents := {};
      stack := [];
    }

    /** ASSERTMSG(ok, f): report `f` unless `ok` holds, and carry on. */
    method Assert(ok: bool, f: Fault)
      modifies this`faults
      ensures Snap() == Flag(old(Snap()), ok, f)
    {
      if !ok {
        faults := faults + [f];
      }
    }

    /** Record the pending transition. */
    method SetPending(kind: ChangeKind, s: nat, ss: int)
      modifies this`stateChange, this`nextState, this`nextSubstate
      ensures Snap() == Pending(old(Snap()), kind, s, ss)
    {
      stateChange := kind;
      nextState := s;
      nextSubstate := ss;
    }

    /** Back to the start state, then the first probe and enter events. */
    method Reset(ownerDeleted: bool)
      requires Valid()
      modifies this
      ensures Valid() && Snap() == ResetTo(behavior, old(Snap()), ownerDeleted)
    {
      Initialize();
      Process(EventProbe, ownerDeleted);
      Process(EventEnter, ownerDeleted);
    }

    /** The per-frame update event, only when some level registered an update response. */
    method Update(ownerDeleted: bool)
      requires Valid()
      modifies this
      ensures Valid() && Snap() == Updated(behavior, old(Snap()), ownerDeleted)
    {
      if UpdateRegistered(registeredEvents) && !ownerDeleted {
        updateIteration := updateIteration + 1;
        ghost var t0 := Snap();
        assert t0 == Bumped(old(Snap()));
        var handled := false;
        if currentSubstate >= 0 && Registration(OnUpdate, SubstateLevel) in registeredEvents {
          handled := States(EventUpdate, currentState, currentSubstate);
        }
        ghost var p1 := (Snap(), handled);
        assert p1 == if t0.currentSubstate >= 0 && Registration(OnUpdate, SubstateLevel) in t0.registered
                     then Handle(behavior, t0, EventUpdate, Target(t0.currentState, t0.currentSubstate)) else (t0, false);
        if !handled && Registration(OnUpdate, StateLevel) in registeredEvents {
          handled := States(EventUpdate, currentState, -1);
        }
        ghost var p2 := (Snap(), handled);
        assert p2 == if !p1.1 && Registration(OnUpdate, StateLevel) in p1.0.registered
                     then Handle(behavior, p1.0, EventUpdate, Target(p1.0.currentState, -1)) else p1;
        if !handled && Registration(OnUpdate, MachineLevel) in registeredEvents {
          handled := States(EventUpdate, -1, -1);
        }
        assert Snap() == UpdateCascade(behavior, t0);
        PerformStateChanges();
      }
    }

    /** Dispatch an event: substate, then state, then global handler, until one handles it; then drain. */
    method Process(e: Event, ownerDeleted: bool)
      requires Valid()
      modifies this
      ensures Valid() && Snap() == Processed(behavior, old(Snap()), e, ownerDeleted)
    {
      if !ownerDeleted {
        ghost var t0 := Snap();
        var handled := false;
        if currentSubstate >= 0 {
          handled := States(e, currentState, currentSubstate);
        }
        ghost var p1 := (Snap(), handled);
        assert p1 == if t0.currentSubstate >= 0 then Handle(behavior, t0, e, Target(t0.currentState, t0.currentSubstate)) else (t0, false);
        if !handled {
          handled := States(e, currentState, -1);
        }
        ghost var p2 := (Snap(), handled);
        assert p2 == if !p1.1 then Handle(behavior, p1.0, e, Target(p1.0.currentState, -1)) else p1;
        if !handled {
          handled := States(e, -1, -1);
        }
        assert Snap() == Cascade(behavior, t0, e);
        PerformStateChanges();
      }
    }

    /**
     * Apply pending transitions until none is pending, at most SafetyLimit
     * times; the last permitted iteration reports flip-flopping.
     */
    method PerformStateChanges()
      requires Valid()
      modifies this
      ensures Valid() && Snap() == Drain(behavior, old(Snap()), SafetyLimit)
    {
      var safetyCount: nat := SafetyLimit;
      while stateChange != NoStateChange && safetyCount > 0
        invariant Valid()
        invariant Drain(behavior, Snap(), safetyCount) == Drain(behavior, old(Snap()), SafetyLimit)
        decreases safetyCount
      {
        ghost var before := Snap();
        safetyCount := safetyCount - 1;
        PerformOneStateChange(safetyCount);
        assert Drain(behavior, before, safetyCount + 1) == Drain(behavior, DrainStep(behavior, before, safetyCount), safetyCount);
      }
    }

    /** One iteration of the drain loop, `safetyCount` already decremented. */
    method PerformOneStateChange(safetyCount: nat)
      requires Valid()
      modifies this
      ensures Valid() && Snap() == DrainStep(behavior, old(Snap()), safetyCount)
    {
      Assert(safetyCount > 0, FlipFlopping);
      BeginStateChange();
      ExitForStateChange();
      ExecuteStateChange();
      EnterAfterStateChange();
    }

    /** Forbid requests while the old state exits; drop the delayed-change markers. */
    method BeginStateChange()
      modifies this`stateChangeAllowed, this`delayedStateChangeQueued, this`delayedSubstateChangeQueued, this`updateIteration
      ensures Snap() == Begun(old(Snap()))
    {
      ResetChangeFlags(false);
      updateIteration := 0;
    }

    /** The exit events: to the substate when it registered one, to the state when it is left and registered one. */
    method ExitForStateChange()
      requires Valid()
      modifies this
      ensures Valid() && Snap() == Exited(behavior, old(Snap()))
    {
      var ignored: bool;
      if currentSubstate >= 0 && Registration(OnExit, SubstateLevel) in registeredEvents {
        ignored := States(EventExit, currentState, currentSubstate);
      }
      if nextSubstate < 0 && Registration(OnExit, StateLevel) in registeredEvents {
        ignored := States(EventExit, currentState, -1);
      }
    }

    /** The probe of the new state or substate, then its enter event when it registered one. */
    method EnterAfterStateChange()
      requires Valid()
      modifies this
      ensures Valid() && Snap() == Entered(behavior, old(Snap()))
    {
      var ignored := States(EventProbe, currentState, currentSubstate);
      if nextSubstate < 0 {
        if Registration(OnEnter, StateLevel) in registeredEvents {
          ignored := States(EventEnter, currentState, currentSubstate);
        }
      } else {
        if Registration(OnEnter, SubstateLevel) in registeredEvents {
          ignored := States(EventEnter, currentState, currentSubstate);
        }
      }
    }

    /** The middle of one drain iteration: apply the pending change and start the new scope. */
    method ExecuteStateChange()
      requires Valid()
      modifies this
      ensures Valid() && Snap() == ApplyChange(old(Snap()))
    {
      var full := nextSubstate < 0;
      SwitchState();
      AdvanceScopes(full);
      DeleteAllSubstateVariables();
      if full {
        DeleteAllStateVariables();
      }
      SettleTransition(full);
    }

    /** The transition itself: to the requested (state, substate), or back to the most recent history entry. */
    method SwitchState()
      requires Valid()
      modifies this
      ensures Valid() && Snap() == Switched(old(Snap()))
    {
      match stateChange {
        case StateChange =>
          SwitchForward();
        case StatePop =>
          if |stack| > 0 {
            SwitchBack();
          } else {
            Assert(false, StackUnderflow);
          }
        case NoStateChange =>
          Assert(false, InvalidChange);
      }
    }

    method SwitchForward()
      modifies this`stack, this`currentState, this`currentSubstate
      ensures Snap() == Forward(old(Snap()))
    {
      if nextSubstate < 0 {
        PushHistory(currentState);
      }
      SetCurrent(nextState, nextSubstate);
    }

    method SwitchBack()
      requires |stack| > 0
      modifies this`stack, this`currentState, this`currentSubstate
      ensures Snap() == Back(old(Snap()))
    {
      var s := stack[|stack| - 1];
      PopHistory();
      SetCurrent(s, -1);
    }

    /** Push the outgoing state on the history, dropping the oldest entry beyond capacity. */
    method PushHistory(s: nat)
      modifies this`stack
      ensures stack == Pushed(old(stack), s)
    {
      stack := stack + [s];
      if |stack| > MaxStateStackSize {
        stack := stack[1..];
      }
    }

    method PopHistory()
      requires |stack| > 0
      modifies this`stack
      ensures stack == Popped(old(stack))
    {
      stack := stack[..|stack| - 1];
    }

    method SetCurrent(s: nat, ss: int)
      modifies this`currentState, this`currentSubstate
      ensures Snap() == Moved(old(Snap()), s, ss)
    {
      currentState := s;
      currentSubstate := ss;
    }

    /** Every change starts a new substate scope; a full state change also a new state scope. */
    method AdvanceScopes(full: bool)
      modifies this`scopeState, this`scopeSubstate
      ensures Snap() == Advanced(old(Snap()), full)
    {
      scopeSubstate := scopeSubstate + 1;
      if full {
        scopeState := scopeState + 1;
      }
    }

    /** No change pending, requests allowed again, registrations of the levels left behind dropped. */
    method SettleTransition(full: bool)
      modifies this`stateChange, this`stateChangeAllowed, this`registeredEvents
      ensures Snap() == Settled(old(Snap()), full)
    {
      stateChange := NoStateChange;
      stateChangeAllowed := true;
      if full {
        registeredEvents := Mask(registeredEvents, true);
      } else {
        registeredEvents := Mask(registeredEvents, false);
      }
    }

    /** One invocation of the handler at (s, ss); its calls take effect in order. */
    method States(e: Event, s: int, ss: int) returns (handled: bool)
      requires Valid()
      modifies this
      ensures Valid() && (Snap(), handled) == Handle(behavior, old(Snap()), e, Target(s, ss))
    {
      var reaction := behavior(e, s, ss);
      if e == EventProbe {
        registeredEvents := registeredEvents + reaction.registers;
      }
      ghost var start := Snap();
      var acts := reaction.actions;
      for i := 0 to |acts|
        invariant Valid()
        invariant Snap() == Effects(start, acts[..i])
      {
        assert acts[..i + 1][..i] == acts[..i];
        Perform(acts[i]);
      }
      assert acts[..|acts|] == acts;
      handled := reaction.handled;
    }

    /** One call of the handler on its own machine. */
    method Perform(a: Action)
      requires Valid()
      modifies this
      ensures Valid() && Snap() == Effect(old(Snap()), a)
    {
      if IsTransitionRequest(a) {
        PerformTransitionRequest(a);
      } else if IsSend(a) {
        PerformSend(a);
      } else if IsStoreAccess(a) {
        PerformStoreAccess(a);
      } else {
        PerformOther(a);
      }
    }

    method PerformTransitionRequest(a: Action)
      requires Valid()
      requires IsTransitionRequest(a)
      modifies this
      ensures Valid() && Snap() == TransitionRequestEffect(old(Snap()), a)
    {
      match a {
        case RequestState(s) => ChangeState(s);
        case RequestSubstate(ss) => ChangeSubstate(ss);
        case RequestPop => PopState();
        case RequestStateDelayed(s) => ChangeStateDelayed(s);
        case RequestSubstateDelayed(ss) => ChangeSubstateDelayed(ss);
      }
    }

    method PerformSend(a: Action)
      requires Valid()
      requires IsSend(a)
      modifies this
      ensures Valid() && Snap() == SendEffect(old(Snap()), a)
    {
      match a {
        case SendToSubstate(n) => SendMsgToSubstate(UserMsg(n));
        case SendToState(n) => SendMsgToState(UserMsg(n));
        case SendToStateMachine(n) => SendMsgToStateMachine(UserMsg(n));
        case SetTimerSubstate(n) => SetTimerSubstate(UserMsg(n));
        case SetTimerState(n) => SetTimerState(UserMsg(n));
        case SetTimerStateMachine(n) => SetTimerStateMachine(UserMsg(n));
      }
    }

    method PerformStoreAccess(a: Action)
      requires Valid()
      requires IsStoreAccess(a)
      modifies this
      ensures Valid() && Snap() == StoreEffect(old(Snap()), a)
    {
      match a {
        case SetVariable(v, id, scope) => SetStateVariable(v, id, scope);
        case ClearVariables(scope) =>
          if scope == StateVariables {
            DeleteAllStateVariables();
          } else {
            DeleteAllSubstateVariables();
          }
      }
    }

    method PerformOther(a: Action)
      requires Valid()
      requires a.Declare? || a.RequestMachineChange?
      modifies this
      ensures Valid() && Snap() == OtherEffect(old(Snap()), a)
    {
      match a {
        case Declare(id, scope) => DeclareVariable(id, scope);
        case RequestMachineChange(req) =>
          match req {
            case ResetRequest => ResetStateMachine();
            case ReplaceRequest(k) => ReplaceStateMachine(k);
            case QueueRequest(k) => QueueStateMachine(k);
            case RequeueRequest => RequeueStateMachine();
            case PushRequest(k) => PushStateMachine(k);
            case PopRequest => PopStateMachine();
          }
      }
    }

    // -------------------------------------------------------------------
    // Transition requests

    method ChangeState(newState: nat)
      requires Valid()
      modifies this
      ensures Valid() && Snap() == RecordStateChange(old(Snap()), newState)
    {
      Assert(stateChangeAllowed, ChangeNotAllowed);
      Assert(stateChange == NoStateChange, ChangeAlreadyRequested);
      if stateChangeAllowed {
        SetPending(StateChange, newState, -1);
      }
    }

    method ChangeSubstate(newSubstate: nat)
      requires Valid()
      modifies this
      ensures Valid() && Snap() == RecordSubstateChange(old(Snap()), newSubstate)
    {
      Assert(stateChangeAllowed, ChangeNotAllowed);
      Assert(stateChange == NoStateChange, ChangeAlreadyRequested);
      if stateChangeAllowed {
        SetPending(StateChange, currentState, newSubstate);
      }
    }

    method PopState()
      requires Valid()
      modifies this
      ensures Valid() && Snap() == RecordPop(old(Snap()))
    {
      Assert(stateChangeAllowed, ChangeNotAllowed);
      Assert(stateChange == NoStateChange, ChangeAlreadyRequested);
      if stateChangeAllowed {
        stateChange := StatePop;
      }
    }

    method ChangeStateDelayed(newState: nat)
      requires Valid()
      modifies this
      ensures Valid() && Snap() == RecordDelayedStateChange(old(Snap()), newState)
    {
      Assert(stateChangeAllowed, ChangeNotAllowed);
      if stateChangeAllowed {
        delayedStateChangeQueued := true;
        SendMsgDelayedToMeHelper(ChangeStateDelayedMsg, newState, ScopeToState, queue, false);
      }
    }

    method ChangeSubstateDelayed(newSubstate: nat)
      requires Valid()
      modifies this
      ensures Valid() && Snap() == RecordDelayedSubstateChange(old(Snap()), newSubstate)
    {
      Assert(stateChangeAllowed, ChangeNotAllowed);
      if stateChangeAllowed {
        delayedSubstateChangeQueued := true;
        SendMsgDelayedToMeHelper(ChangeSubstateDelayedMsg, newSubstate, ScopeToSubstate, queue, false);
      }
    }

    // -------------------------------------------------------------------
    // Messages to self

    /** Hand the router a message to this machine, tagged with the scope token of `rule`. */
    method SendMsgDelayedToMeHelper(name: MsgName, data: int, rule: ScopeRule, q: QueueSelector, timer: bool)
      requires Valid()
      modifies this
      ensures Valid() && Snap() == Sent(old(Snap()), name, data, rule, q, timer)
    {
      var scope: nat := 0;
      if rule == ScopeToSubstate {
        scope := scopeSubstate;
      } else if rule == ScopeToState {
        scope := scopeState;
      }
      outbox := outbox + [OutMsg(name, data, rule, scope, q, timer)];
    }

    method SendMsgToSubstate(name: MsgName)
      requires Valid()
      modifies this
      ensures Valid() && Snap() == Sent(old(Snap()), name, 0, ScopeToSubstate, old(queue), false)
    {
      SendMsgDelayedToMeHelper(name, 0, ScopeToSubstate, queue, false);
    }

    method SendMsgToState(name: MsgName)
      requires Valid()
      modifies this
      ensures Valid() && Snap() == Sent(old(Snap()), name, 0, ScopeToState, old(queue), false)
    {
      SendMsgDelayedToMeHelper(name, 0, ScopeToState, queue, false);
    }

    method SendMsgToStateMachine(name: MsgName)
      requires Valid()
      modifies this
      ensures Valid() && Snap() == Sent(old(Snap()), name, 0, ScopeToStateMachine, old(queue), false)
    {
      SendMsgDelayedToMeHelper(name, 0, ScopeToStateMachine, queue, false);
    }

    method SetTimerSubstate(name: MsgName)
      requires Valid()
      modifies this
      ensures Valid() && Snap() == Sent(old(Snap()), name, 0, TimerRule(SubstateLevel), old(queue), true)
    {
      SendMsgDelayedToMeHelper(name, 0, ScopeToSubstate, queue, true);
    }

    /** Bound to the substate scope, exactly like SetTimerSubstate. */
    method SetTimerState(name: MsgName)
      requires Valid()
      modifies this
      ensures Valid() && Snap() == Sent(old(Snap()), name, 0, TimerRule(StateLevel), old(queue), true)
    {
      SendMsgDelayedToMeHelper(name, 0, ScopeToSubstate, queue, true);
    }

    method SetTimerStateMachine(name: MsgName)
      requires Valid()
      modifies this
      ensures Valid() && Snap() == Sent(old(Snap()), name, 0, TimerRule(MachineLevel), old(queue), true)
    {
      SendMsgDelayedToMeHelper(name, 0, ScopeToStateMachine, queue, true);
    }

    // -------------------------------------------------------------------
    // Requests addressed to the manager

    method RequestMachineChange(req: MachineRequest)
      requires Valid()
      modifies this
      ensures Valid() && Snap() == Requested(old(Snap()), req)
    {
      machineRequests := machineRequests + [req];
    }

    method ResetStateMachine()
      requires Valid()
      modifies this
      ensures Valid() && Snap() == Requested(old(Snap()), ResetRequest)
    {
      RequestMachineChange(ResetRequest);
    }

    method ReplaceStateMachine(kind: nat)
      requires Valid()
      modifies this
      ensures Valid() && Snap() == Requested(old(Snap()), ReplaceRequest(kind))
    {
      RequestMachineChange(ReplaceRequest(kind));
    }

    method QueueStateMachine(kind: nat)
      requires Valid()
      modifies this
      ensures Valid() && Snap() == Requested(old(Snap()), QueueRequest(kind))
    {
      RequestMachineChange(QueueRequest(kind));
    }

    method RequeueStateMachine()
      requires Valid()
      modifies this
      ensures Valid() && Snap() == Requested(old(Snap()), RequeueRequest)
    {
      RequestMachineChange(RequeueRequest);
    }

    method PushStateMachine(kind: nat)
      requires Valid()
      modifies this
      ensures Valid() && Snap() == Requested(old(Snap()), PushRequest(kind))
    {
      RequestMachineChange(PushRequest(kind));
    }

    method PopStateMachine()
      requires Valid()
      modifies this
      ensures Valid() && Snap() == Requested(old(Snap()), PopRequest)
    {
      RequestMachineChange(PopRequest);
    }

    /** The manager's side of the requests: hand them over, oldest first, and forget them. */
    method TakeMachineRequests() returns (reqs: seq<MachineRequest>)
      requires Valid()
      modifies this
      ensures Valid() && reqs == old(machineRequests) && Snap() == Taken(old(Snap()))
    {
      reqs := machineRequests;
      machineRequests := [];
    }

    method SetStateMachineQueue(q: QueueSelector)
      requires Valid()
      modifies this
      ensures Valid() && Snap() == WithQueue(old(Snap()), q)
    {
      queue := q;
    }

    // -------------------------------------------------------------------
    // Variable slots

    method DeclareVariable(id: int, scope: VariableScope)
      requires Valid()
      modifies this
      ensures Valid() && Snap() == Declared(old(Snap()), id, scope)
    {
      if scope == StateVariables && |stateVariables| <= id {
        stateVariables := stateVariables + [Unset];
      } else if scope == SubstateVariables && |substateVariables| <= id {
        substateVariables := substateVariables + [Unset];
      }
    }

    method DeleteAllStateVariables()
      modifies this`stateVariables
      ensures Snap() == WithStore(old(Snap()), StateVariables, [])
    {
      stateVariables := [];
    }

    method DeleteAllSubstateVariables()
      modifies this`substateVariables
      ensures Snap() == WithStore(old(Snap()), SubstateVariables, [])
    {
      substateVariables := [];
    }

    method SetStateVariable(v: Value, id: int, scope: VariableScope)
      requires Valid()
      modifies this
      ensures Valid() && Snap() == Stored(old(Snap()), v, id, scope)
    {
      var n := if scope == StateVariables then |stateVariables| else |substateVariables|;
      if !(0 <= id < n) {
        Assert(false, VariableOutOfRange);
      } else if scope == StateVariables {
        stateVariables := stateVariables[id := v];
      } else {
        substateVariables := substateVariables[id := v];
      }
    }

    /** The slot's current value: the last value assigned since it was declared. */
    method GetStateVariable(id: int, scope: VariableScope) returns (v: Value)
      requires 0 <= id < |Store(Snap(), scope)|
      ensures v == Lookup(Snap(), id, scope)
    {
      if scope == StateVariables {
        v := stateVariables[id];
      } else {
        v := substateVariables[id];
      }
    }
  }
}
