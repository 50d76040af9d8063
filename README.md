# State machines and their manager

This project is a Dafny model of the behaviour engine in `Source/statemch.cpp`,
written by Steve Rabin. The engine has two parts.

- A `StateMachine` runs one behaviour, a user handler `States(event, msg,
  state, substate)`. Handler code never changes state directly. It *requests*
  a transition (`ChangeState`, `ChangeSubstate`, `PopState`), and the request
  is recorded as pending. `PerformStateChanges` then applies pending
  transitions in a loop bounded to 20 iterations. Each iteration does the
  following, in order:
  - runs the exit handlers;
  - pushes the outgoing state on a history of at most 10 entries, or pops the
    history;
  - advances the two scope counters;
  - clears the scoped variable stores;
  - masks the registered-event bits;
  - probes the new state and enters it.

  Events reach the handler with first-handled-wins dispatch: the substate
  first, then the state, then the global handler. Messages a machine sends to
  itself carry a scope token taken from one of its scope counters.
- A `StateMachineManager` keeps one stack of machines per queue. The back of
  the stack is the active machine and the front is the default machine. Each
  queue has one slot for a pending structural request (reset, replace, queue,
  requeue, push, pop). `Update` first carries out the slot's request, then any
  requests made while doing so, for at most 20 iterations, and then updates
  the active machine.

## Structure

| file | module | what |
|---|---|---|
| `events.dfy` | `Events` | Vocabulary: events, registrations (the registered-event bits), scope rules, queue selectors, variable slots, structural requests, the calls a handler makes, and `Behavior`, the handler as a function. |
| `history.dfy` | `History` | The bounded state history. |
| `machine_spec.dfy` | `MachineSpec` | A machine's fields as a value `MachineState`, and each operation as a function on that value. Most properties of a machine are proved here. |
| `state_machine.dfy` | `StateMachines` | The class `StateMachine`, whose fields are updated in place. Each method is proved to leave `Snap()` (its fields as a value) equal to the matching `MachineSpec` function of the old value. |
| `queue_ops.dfy` | `QueueOps` | The list surgery the manager does on one queue. |
| `manager.dfy` | `Managers` | The class `StateMachineManager`. |

Modelling choices:

- **Contract violations.** An `ASSERTMSG` appends a fault to a `faults` log,
  and the model continues exactly as the code does after the message. There
  are two exceptions, where going on would index out of bounds: the slot id
  read by `GetStateVariable` and a queue index. Those become `requires`.
  Setting a slot through an id the store does not have is reported
  (`VariableOutOfRange`) and skipped, where the code writes out of bounds.
- **The handler.** `States` is a value of type
  `Behavior = (Event, int, int) -> Reaction`. A `Reaction` holds three things:
  - whether the event was handled;
  - the registrations a probe reports;
  - the calls the handler makes on its own machine, in order: transition
    requests, sends and timers, declaring, setting and clearing variable
    slots, and structural requests to the manager.

  `StateMachine.States` replays those calls through the machine's own methods.
- **The router.** Messages handed to the router go to an `outbox` log of
  `(name, data, rule, scope token, queue, timer)`. A scoped purge by the
  manager goes to a `purges` log of queue numbers.
- **Owner deletion.** The owner's "marked for deletion" flag is the parameter
  `ownerDeleted`.
- **Machine ownership.** The manager owns its machines through `lists` and a
  `Repr` footprint. `delete` is modelled as removing the machine from its
  list.
- **Structural requests.** A machine's requests to the manager are collected
  in its `machineRequests`. The manager takes them as soon as its call into
  the machine returns, and hands them, oldest first, to
  `RequestStateMachineChange` for that machine's queue. The code records them
  during the call instead. Nothing reads the slot before the call returns, so
  the slot and the reports end up the same.
- **New machines.** A request that brings in a machine names a catalogue
  entry, `kind`. The manager constructs that machine (`catalog(kind)`) when
  the request is carried out.
- **Call log.** The manager's calls into machines are recorded in the ghost
  log `visits`: the machine, the call, the machine's fields just before and
  just after the call, and the requests it made. What each call does to the
  machine is the contract of `Managers.Run`.

Behaviour kept as written:

- `PopState` never sets `nextSubstate`. The drain loop reads that field to
  decide four things: the exit dispatch, the new scopes, the cleared stores and
  the registration mask. So a pop that follows a substate request is handled
  as a substate-only change, although it leaves the state
  (`MachineSpec.PopAfterSubstateRequestKeepsStateScope`).
- `SetTimerState` binds its timer to the *substate* scope, just like
  `SetTimerSubstate` (`MachineSpec.TimerRule`).
- `QueueStateMachine` on a queue with at most one machine pushes the new
  machine on top *without* resetting it. That machine becomes active without
  ever being entered.
- `DeclareVariable(id)` adds exactly one slot when the store has at most `id`
  slots. It does not grow the store to `id + 1`.

## Model

| member | source | states |
|---|---|---|
| History.Pushed | Source/statemch.cpp:204-213 | A full change appends the outgoing state and drops the oldest entry past 10; the result ends with that state, grows by one or stays at capacity, and is the most recent suffix of old history plus the state |
| History.Popped | Source/statemch.cpp:222-228 | A pop removes exactly the most recent entry: the old history is the new one plus its top |
| History.PopUndoesPush | Source/statemch.cpp:204-228 | Popping what a push added returns that state and the old history, less the entry a full history evicted |
| History.PushedAllKeepsMostRecent | Source/statemch.cpp:204-213 | After any number of full changes, the history is exactly the last min(n, 10) outgoing states, in order |
| History.EleventhPushEvictsOldest | Source/statemch.cpp:204-213 | Eleven full changes from an empty history evict only the first outgoing state; the top is the latest |
| MachineSpec.RecordStateChange | Source/statemch.cpp:302-311 | ChangeState(s) records a pending STATE_CHANGE to (s, -1) when changes are allowed; otherwise it leaves the pending change as it was; it reports "not allowed" and "already requested"; it changes no other field |
| MachineSpec.RecordSubstateChange | Source/statemch.cpp:324-334 | ChangeSubstate(ss) records a pending change to (currentState, ss) under the same rules and reports |
| MachineSpec.RecordPop | Source/statemch.cpp:385-392 | PopState records STATE_POP only, leaving nextState and nextSubstate untouched; same reports |
| MachineSpec.RecordDelayedStateChange | Source/statemch.cpp:346-353 | When allowed, marks the delayed change as queued and sends one state-scoped message carrying the state scope counter; otherwise only reports |
| MachineSpec.RecordDelayedSubstateChange | Source/statemch.cpp:365-372 | The same with a substate-scoped message carrying the substate scope counter |
| MachineSpec.Sent | Source/statemch.cpp:987-999 | Exactly one message is appended to the outbox; its token is the substate counter for SCOPE_TO_SUBSTATE, the state counter for SCOPE_TO_STATE and 0 otherwise; no other field changes |
| MachineSpec.TimerRule | Source/statemch.cpp:866-922 | A timer is bound to the machine scope exactly for SetTimerStateMachine; SetTimerState never binds to the state scope |
| MachineSpec.Requested | Source/statemch.cpp:1048-1127 | A structural request of a machine is appended to its requests for the manager and changes nothing else |
| MachineSpec.WithQueue | Source/statemch.cpp:1690 | SetStateMachineQueue sets the machine's queue and keeps the invariant |
| MachineSpec.Declared | Source/statemch.cpp:1153-1165 | DeclareVariable appends one default slot when the store has at most id slots and otherwise changes nothing; the store does not reach id + 1 when id is further out |
| MachineSpec.Assigned | Source/statemch.cpp:1214-1225 | Set on a valid id changes slot id to the value and no other slot, store length unchanged |
| MachineSpec.Stored | Source/statemch.cpp:1214-1225 | A set through an id inside the chosen store is Assigned; any other id only reports "out of range" |
| MachineSpec.StoreEffect | Source/statemch.cpp:1176-1225 | A handler's set or clear of a variable store keeps the core fields, registrations and pending transition, only adds faults, and keeps the invariant |
| MachineSpec.Effects | Source/statemch.cpp:302-392 | The calls a handler makes never change the current state, substate, scopes, history or queue, only add faults, and change no pending transition while changes are disallowed |
| MachineSpec.Handle | Source/statemch.cpp:272 | One handler invocation: its "handled" answer; a probe adds the reported registrations, other events keep them; the core fields are kept |
| MachineSpec.FirstHandled | Source/statemch.cpp:147-159 | The handlers invoked are a prefix of the chain, none but the last handled the event, and the whole chain is invoked unless one handled it |
| MachineSpec.Mask | Source/statemch.cpp:263-270 | A full change keeps only the global registrations; a substate change keeps the state and global ones |
| MachineSpec.Switched | Source/statemch.cpp:202-239 | The switch on the pending change touches only the current state and substate, the history and the faults, and keeps the invariant |
| MachineSpec.ApplyChange | Source/statemch.cpp:241-245 | Every applied transition increments the substate scope by one; the state scope increments by one exactly when nextSubstate < 0 |
| MachineSpec.ApplyChangeStartsScope | Source/statemch.cpp:247-270 | After a transition the substate store is empty, the state store is empty exactly when nextSubstate < 0 and unchanged otherwise, nothing is pending, changes are allowed and the registrations are masked |
| MachineSpec.ApplyChangeMoves | Source/statemch.cpp:204-220 | STATE_CHANGE moves to (nextState, nextSubstate) and pushes the outgoing state exactly when nextSubstate < 0 |
| MachineSpec.ApplyChangePops | Source/statemch.cpp:222-239 | STATE_POP goes to the top history entry with substate -1 and removes exactly that entry; with an empty history it reports and keeps state, substate and history; no pending change reports "invalid change" |
| MachineSpec.ApplyChangeFrame | Source/statemch.cpp:241-270 | A transition leaves the target, delayed markers, update count, queue, outbox and structural requests alone |
| MachineSpec.PopAfterSubstateRequestKeepsStateScope | Source/statemch.cpp:243-270 | A pop after a substate request leaves its state yet keeps the state scope, the state variables and the state registrations |
| MachineSpec.Exited | Source/statemch.cpp:190-198 | The exit dispatches keep the core fields and record no transition while changes are disallowed |
| MachineSpec.Entered | Source/statemch.cpp:272-286 | The probe and enter dispatches keep the core fields |
| MachineSpec.Begun | Source/statemch.cpp:185-188 | Changes are disallowed during exit; scopes and target are kept |
| MachineSpec.Started | Source/statemch.cpp:181-188 | The start of an iteration reports flip-flopping exactly on the last permitted one and disallows requests, keeping scopes and target |
| MachineSpec.DrainStep | Source/statemch.cpp:181-287 | One drain iteration advances the scopes as ApplyChange does; the last permitted iteration reports flip-flopping first |
| MachineSpec.Transitioned | Source/statemch.cpp:190-286 | Exit, change, probe and enter advance the scopes as ApplyChange does and keep the queue |
| MachineSpec.Drain | Source/statemch.cpp:177-289 | The drain applies at most 20 transitions (the substate scope advances by at most 20, and exactly 0 when nothing is pending); it changes nothing when nothing is pending; a change is still pending afterwards only if flip-flopping was reported |
| MachineSpec.Cascade | Source/statemch.cpp:146-159 | Process's dispatch keeps the core fields and the queue and only adds faults |
| MachineSpec.DispatchStep | Source/statemch.cpp:148-158 | Dispatch over a chain is the first handler, then the rest only if it declined |
| MachineSpec.CascadeIsFirstHandled | Source/statemch.cpp:147-159 | Process invokes exactly the first-handled-wins prefix of substate (if any), state, global |
| MachineSpec.UpdateCascade | Source/statemch.cpp:106-118 | Update's dispatch keeps the core fields and only adds faults |
| MachineSpec.UpdateCascadeIsFirstHandled | Source/statemch.cpp:106-118 | Update invokes exactly the first-handled-wins prefix of the levels that registered an update response |
| MachineSpec.Processed | Source/statemch.cpp:137-163 | Process changes nothing for a deleted owner; otherwise scopes only grow, by at most 20, faults only grow, the invariant holds |
| MachineSpec.Updated | Source/statemch.cpp:99-121 | Update changes nothing unless an update response is registered and the owner lives; scopes and faults only grow |
| MachineSpec.Initialized | Source/statemch.cpp:45-70 | Initialize gives state 0, substate -1, both scopes 0, update count 0, nothing pending with target (0, 0), no delayed change queued, changes allowed, no registrations, empty history and stores; queue, outbox, requests and faults are kept |
| MachineSpec.InitializedForgetsPast | Source/statemch.cpp:45-70 | Two machines that agree on queue, outbox, requests and faults are equal after Initialize |
| MachineSpec.PopAfterInitializeKeepsStateScope | Source/statemch.cpp:54 | Initialize leaves nextSubstate at 0, so a pop requested next reports an empty history and is a substate-only change: state scope and state variables are kept |
| MachineSpec.Constructed | Source/statemch.cpp:20-28 | A new machine is initialized, in no queue, with nothing sent or reported |
| MachineSpec.ResetTo | Source/statemch.cpp:83-88 | Reset (initialize, probe, enter) leaves a valid machine whose scopes are at most 40, keeping queue and earlier faults |
| MachineSpec.ResetToForgetsPast | Source/statemch.cpp:83-88 | Reset gives the same machine from any two states that agree on queue, outbox, requests and faults |
| StateMachines.StateMachine.constructor | Source/statemch.cpp:20-28 | The fields are Constructed() |
| StateMachines.StateMachine.Initialize | Source/statemch.cpp:45-70 | The fields become Initialized(old fields) |
| StateMachines.StateMachine.Reset | Source/statemch.cpp:83-88 | The fields become ResetTo(behaviour, old fields) |
| StateMachines.StateMachine.Update | Source/statemch.cpp:99-121 | The fields become Updated(behaviour, old fields) |
| StateMachines.StateMachine.Process | Source/statemch.cpp:137-163 | The fields become Processed(behaviour, old fields, event) |
| StateMachines.StateMachine.PerformStateChanges | Source/statemch.cpp:177-289 | The loop leaves the fields at Drain(behaviour, old fields, 20) |
| StateMachines.StateMachine.PerformOneStateChange | Source/statemch.cpp:182-287 | One iteration leaves the fields at DrainStep |
| StateMachines.StateMachine.ExitForStateChange | Source/statemch.cpp:190-198 | The fields become Exited |
| StateMachines.StateMachine.ExecuteStateChange | Source/statemch.cpp:201-270 | The fields become ApplyChange(old fields) |
| StateMachines.StateMachine.EnterAfterStateChange | Source/statemch.cpp:272-286 | The fields become Entered |
| StateMachines.StateMachine.SwitchState | Source/statemch.cpp:202-239 | The fields become Switched |
| StateMachines.StateMachine.PushHistory | Source/statemch.cpp:208-212 | The history becomes Pushed(old history, s) |
| StateMachines.StateMachine.PopHistory | Source/statemch.cpp:225-227 | The history becomes Popped(old history) |
| StateMachines.StateMachine.AdvanceScopes | Source/statemch.cpp:242-245 | Substate scope + 1, state scope + 1 on a full change |
| StateMachines.StateMachine.SettleTransition | Source/statemch.cpp:260-270 | Nothing pending, changes allowed, registrations masked |
| StateMachines.StateMachine.States | Source/statemch.cpp:150 | The fields and answer are Handle(behaviour, old fields, event, target) |
| StateMachines.StateMachine.ChangeState | Source/statemch.cpp:302-311 | The fields become RecordStateChange(old fields, s) |
| StateMachines.StateMachine.ChangeSubstate | Source/statemch.cpp:324-334 | The fields become RecordSubstateChange(old fields, ss) |
| StateMachines.StateMachine.PopState | Source/statemch.cpp:385-392 | The fields become RecordPop(old fields) |
| StateMachines.StateMachine.ChangeStateDelayed | Source/statemch.cpp:346-353 | The fields become RecordDelayedStateChange |
| StateMachines.StateMachine.ChangeSubstateDelayed | Source/statemch.cpp:365-372 | The fields become RecordDelayedSubstateChange |
| StateMachines.StateMachine.SendMsgDelayedToMeHelper | Source/statemch.cpp:987-999 | The fields become Sent(old fields, …): one message with the rule's scope token |
| StateMachines.StateMachine.SendMsgToSubstate | Source/statemch.cpp:444-447 | One substate-scoped message to the machine's own queue |
| StateMachines.StateMachine.SendMsgToState | Source/statemch.cpp:463-466 | One state-scoped message to the machine's own queue |
| StateMachines.StateMachine.SendMsgToStateMachine | Source/statemch.cpp:482-485 | One machine-scoped message to the machine's own queue |
| StateMachines.StateMachine.SetTimerSubstate | Source/statemch.cpp:866-876 | One substate-scoped timer |
| StateMachines.StateMachine.SetTimerState | Source/statemch.cpp:889-899 | One timer bound to the substate scope, as written |
| StateMachines.StateMachine.SetTimerStateMachine | Source/statemch.cpp:912-922 | One machine-scoped timer |
| StateMachines.StateMachine.ResetStateMachine | Source/statemch.cpp:1048-1051 | A reset request for the manager is appended |
| StateMachines.StateMachine.ReplaceStateMachine | Source/statemch.cpp:1063-1066 | A replace request naming the new machine's kind is appended |
| StateMachines.StateMachine.QueueStateMachine | Source/statemch.cpp:1078-1081 | A queue request naming the new machine's kind is appended |
| StateMachines.StateMachine.RequeueStateMachine | Source/statemch.cpp:1093-1096 | A requeue request is appended |
| StateMachines.StateMachine.PushStateMachine | Source/statemch.cpp:1109-1112 | A push request naming the new machine's kind is appended |
| StateMachines.StateMachine.PopStateMachine | Source/statemch.cpp:1124-1127 | A pop request is appended |
| StateMachines.StateMachine.DeclareVariable | Source/statemch.cpp:1153-1165 | The fields become Declared(old fields, id, scope) |
| StateMachines.StateMachine.DeleteAllStateVariables | Source/statemch.cpp:1176-1183 | The state store is emptied, nothing else changes |
| StateMachines.StateMachine.DeleteAllSubstateVariables | Source/statemch.cpp:1194-1201 | The substate store is emptied, nothing else changes |
| StateMachines.StateMachine.SetStateVariable | Source/statemch.cpp:1214-1225 | The fields become Stored(old fields, value, id, scope): the slot is set for an id in range, otherwise it is reported and nothing is written |
| StateMachines.StateMachine.PerformStoreAccess | Source/statemch.cpp:1176-1225 | A handler's set or clear of a store leaves the fields at StoreEffect |
| StateMachines.StateMachine.GetStateVariable | Source/statemch.cpp:1310-1320 | For 0 <= id < length, returns slot id of the chosen store |
| QueueOps.PushOnTop | Source/statemch.cpp:1691 | push_back: one longer, the new machine on top, every old entry at its index |
| QueueOps.PopTop | Source/statemch.cpp:1715 | pop_back: one shorter, every remaining entry at its index |
| QueueOps.PopUndoesPushOnTop | Source/statemch.cpp:1686-1722 | Popping a pushed machine gives the queue back |
| QueueOps.ReplaceTop | Source/statemch.cpp:1598-1611 | Replace keeps the length (or gives 1 on an empty queue), puts the new machine on top and keeps every entry below |
| QueueOps.InsertQueuedPlaces | Source/statemch.cpp:1625-1642 | Queue inserts exactly the new machine at index 1 (on top with at most one entry), keeping the order of all other entries |
| QueueOps.InsertQueuedKeepsEnds | Source/statemch.cpp:1636-1639 | With more than one entry, the default and the active machine stay where they are |
| QueueOps.RequeuedMovesTop | Source/statemch.cpp:1654-1666 | Requeue moves the active machine to index 1 and shifts the others up in order; a permutation |
| QueueOps.RequeueOfTwoIsIdentity | Source/statemch.cpp:1654-1666 | With exactly two machines requeue leaves the order unchanged |
| QueueOps.NonEmptyStaysNonEmpty | Source/statemch.cpp:1598-1722 | No list surgery empties a queue with a machine; pop and requeue on more than one machine leave one |
| QueueOps.QueueThenRequeueScenario | Source/unittest2b.cpp:67-80 | [A, B] with C queued is [A, C, B]; B requeueing itself then gives [A, B, C] |
| Managers.Record | Source/statemch.cpp:1558-1564 | The slot holds the new request; one already pending is overwritten and reported |
| Managers.ForwardAll | Source/statemch.cpp:1558-1564 | After several requests the slot holds the last one, and every overwritten request is reported: one report per request, less one when the slot was empty |
| Managers.ForwardAllSplit | Source/statemch.cpp:1558-1564 | Handing requests over in two batches is handing them over at once |
| Managers.Called | Source/statemch.cpp:1423-1481 | A manager call into a machine keeps the machine's invariant and queue |
| Managers.Run | Source/statemch.cpp:1423-1481 | Reset, Update or Process of a machine leaves it at ResetTo, Updated or Processed, with its requests taken |
| Managers.AdmittedPlaces | Source/statemch.cpp:1598-1697 | A replace, queue or push puts the new machine where NewAt says and brings in nothing else |
| Managers.ReshapedKeeps | Source/statemch.cpp:1575-1722 | Reset, requeue and pop never empty a queue and never add a machine |
| Managers.Purged | Source/statemch.cpp:1501-1541 | The purges of a run of requests name only the queue they were carried out on, at most one per request |
| Managers.StateMachineManager.constructor | Source/statemch.cpp:1399-1407 | Every queue is empty and every slot holds no change |
| Managers.StateMachineManager.RequestStateMachineChange | Source/statemch.cpp:1558-1564 | The slot of the queue becomes Record(…); a request already pending is reported |
| Managers.StateMachineManager.ForwardRequests | Source/statemch.cpp:1558-1564 | The slot and reports after a machine's requests are ForwardAll(…) |
| Managers.StateMachineManager.ResetStateMachine | Source/statemch.cpp:1575-1584 | The active machine is reset and its requests forwarded; an empty queue is reported and nothing else changes |
| Managers.StateMachineManager.PushStateMachine | Source/statemch.cpp:1686-1697 | The machine is placed in the queue and pushed on top; reset only when initialize is set |
| Managers.StateMachineManager.ReplaceStateMachine | Source/statemch.cpp:1598-1611 | The queue becomes ReplaceTop(old, new) and the new machine is reset; an empty queue is reported and the new machine is pushed all the same |
| Managers.StateMachineManager.QueueStateMachine | Source/statemch.cpp:1625-1642 | The queue becomes InsertQueued(old, machine); no machine is reset and nothing else changes |
| Managers.StateMachineManager.RequeueStateMachine | Source/statemch.cpp:1654-1673 | With more than one machine the queue becomes Requeued(old) and the new top is reset; a single machine is only reset; an empty queue is reported |
| Managers.StateMachineManager.PopStateMachine | Source/statemch.cpp:1708-1722 | With more than one machine only the top is removed and the new top reset; otherwise reported and nothing else changes |
| Managers.StateMachineManager.CarryOut | Source/statemch.cpp:1501-1541 | One request carried out: purge unless it is a queue request; a fresh machine of the named kind placed by Admitted, or the queue rearranged by Reshaped; the right reset and report; other queues untouched |
| Managers.StateMachineManager.ProcessStateMachineChangeRequests | Source/statemch.cpp:1493-1545 | At most 20 requests are carried out, the first being the pending one; none exactly when nothing was pending, and then nothing changes; each request turns the queue into the next by Admitted or Reshaped, from the old queue to the final one; the purges are those of the requests carried out; a request is still pending only after 20, which reports flip-flopping; other queues untouched |
| Managers.StateMachineManager.DrainStep | Source/statemch.cpp:1497-1541 | One loop iteration: flip-flopping reported first on the last one, the slot cleared, then the request carried out: the queue becomes Admitted (with a fresh machine of the named kind) or Reshaped, the right machine is reset with its requests forwarded to the cleared slot, or nothing is called and only the complaint is added |
| Managers.StateMachineManager.CallTop | Source/statemch.cpp:1423-1481 | The active machine is called and logged with its fields before and after; it ends at the after fields with its requests taken, and those requests are forwarded to the queue's slot |
| Managers.StateMachineManager.Update | Source/statemch.cpp:1423-1433 | Empty queues and their slots are untouched; every other queue stays non-empty and its final active machine was updated |
| Managers.StateMachineManager.Process | Source/statemch.cpp:1464-1481 | The active machine of each selected non-empty queue processes the event; every call made is that event to the active machine of a selected queue; unselected slots are untouched and no queue changes |
| Managers.StateMachineManager.SendMsg | Source/statemch.cpp:1444-1452 | The active machine of every non-empty queue processes the message event, and every call made is that event to an active machine |
| Managers.StateMachineManager.DeleteStateMachineQueue | Source/statemch.cpp:1733-1754 | The selected queue, or every queue, is emptied and the others are untouched |
| Managers.StateMachineManager.DeleteQueue | Source/statemch.cpp:1748-1752 | The machines are removed from the top down until the queue is empty |
| Managers.StateMachineManager.Destroy | Source/statemch.cpp:1409-1412 | The destructor empties every queue |

## Left out

- Floating point and time are not modelled. This covers message delays, the
  one-frame clamp of timers, `RandDelay`, the enter timestamps
  (`g_time.GetCurTime`), and the float, pointer and vector variable slots.
  Slots hold `Unset`, an int, a bool or an object id.
- The message router is not part of this model, because it is foreign code.
  Sends and scoped purges are only logged. Left out with it:
  - `SendMsg` to other actors and its `Now`, single-queue, all-queues and
    other-queues variants;
  - broadcasts;
  - CC messages;
  - `StopTimer` and `SetTimerExternal`;
  - the `msg` argument of `Process`. Handlers see only the event, and a
    message event carries its name.
- Debug logging and the state name strings are not modelled.
- The bit values of the registered-event flags live in a header that is not
  part of this model. They are modelled as a set of (hook, level) pairs.
  "Update registered" means any update pair is present.
- Integer widths are not modelled. Scope counters and state numbers are
  unbounded naturals, so the 32-bit wrap-around of the scope counters is left
  out.
- `StateMachine::DeleteStateMachineQueue` and `GetNumStateMachinesInQueue`
  call the manager while a machine is running, which is a re-entrant call.
  They are not modelled; the manager's own `DeleteStateMachineQueue` is.
- The manager's `m_newStateMachine` slot holds the machine object itself. Here
  a request names the kind of machine, and the manager constructs it when the
  request is carried out. Left out as a result:
  - the leak of a machine whose request is overwritten;
  - the "invalid StateMachineChange request" default branch, which a request
    value cannot reach.
- A queue index past the queue count is a `requires` on the manager's
  per-queue operations. The code asserts and then indexes out of bounds.
- Managers.StateMachineManager.CallTop: the contract logs the machine's
  fields before and after the call, and ties the machine's new fields and
  its requests to the "after" fields. It does not say that the "after" fields
  are Called(before), which `Managers.Run` states. That equation unfolds every
  machine operation inside each manager proof, past the solver's budget. The
  same applies to ResetStateMachine, PushStateMachine, ReplaceStateMachine,
  RequeueStateMachine, PopStateMachine, CarryOut, DrainStep,
  ProcessStateMachineChangeRequests, Update, Process and SendMsg.
- MachineSpec.Handle and MachineSpec.Effects: a handler's reaction depends on
  the event, the state and the substate only. Handler code that reads a
  variable slot (`GetStateVariable*`) and branches on its value is not
  captured; `GetStateVariable` itself is modelled.
- Managers.StateMachineManager.ProcessStateMachineChangeRequests: the
  contract does not say that each request after the first was made by a
  machine during the loop. It says only how many were carried out, the first
  one, and what they purged.
- Managers.StateMachineManager.Update: the contract says that each non-empty
  queue's active machine was updated. It does not say that this happened after
  its queue's requests were carried out.
