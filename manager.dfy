/*
 * StateMachineManager: for each queue, a stack of machines whose top (the
 * back of the list) is active and whose bottom is the default machine; one
 * pending structural request per queue, carried out by a bounded loop before
 * the queue's active machine is updated.
 *
 * Structural requests a machine makes while it runs are collected by the
 * machine and handed to RequestStateMachineChange, oldest first, as soon as
 * the manager's call into that machine returns; they are addressed to the
 * machine's own queue. A request that brings in a new machine names the
 * behaviour of that machine, and the manager constructs it when the request
 * is carried out. Every call the manager makes into a machine is recorded in
 * the ghost log `visits`; what such a call does to the machine is the
 * contract of `Run`.
 */
module Managers {
  import opened Events
  import opened MachineSpec
  import opened StateMachines
  import opened QueueOps

  /** The request slot of one queue. */
  datatype PendingChange = NoMachineChange | Pending(request: MachineRequest)

  /** Contract violations the manager detects. */
  datatype ManagerFault =
    | MachineChangeAlreadyRequested  // a second request before the first was carried out
    | MachinesFlipFlopping           // the request loop reached its last permitted iteration
    | NoMachineToReset
    | NoMachineToReplace
    | NoMachineToRequeue
    | CannotPopLastMachine

  /** Bound on the iterations of the request loop. */
  const MachineSafetyLimit: nat := 20

  // ---------------------------------------------------------------------
  // The request slot

  /** RequestStateMachineChange on a slot: the new request overwrites it; one already pending is reported. */
  function Record(slot: PendingChange, req: MachineRequest): (r: (PendingChange, seq<ManagerFault>))
    ensures r.0 == Pending(req)
    ensures r.1 == if slot == NoMachineChange then [] else [MachineChangeAlreadyRequested]
  {
    (Pending(req), if slot == NoMachineChange then [] else [MachineChangeAlreadyRequested])
  }

  /** `n` reports of an overwritten request. */
  function Overwritten(n: nat): (r: seq<ManagerFault>)
    ensures |r| == n && forall i | 0 <= i < n :: r[i] == MachineChangeAlreadyRequested
  {
    seq(n, _ => MachineChangeAlreadyRequested)
  }

  /** The slot and the reports after a machine's requests are handed over in order. */
  function ForwardAll(slot: PendingChange, reqs: seq<MachineRequest>): (r: (PendingChange, seq<ManagerFault>))
    ensures reqs == [] ==> r == (slot, [])
    ensures reqs != [] ==> r.0 == Pending(Last(reqs))
    ensures reqs != [] ==> r.1 == Overwritten(|reqs| - if slot == NoMachineChange then 1 else 0)
    decreases |reqs|
  {
    if reqs == [] then (slot, [])
    else
      var p := ForwardAll(slot, reqs[..|reqs| - 1]);
      var x := Record(p.0, Last(reqs));
      assert p.1 + x.1 == Overwritten(|reqs| - if slot == NoMachineChange then 1 else 0);
      (x.0, p.1 + x.1)
  }

  /**
   * Handing over two batches one after the other is handing over both at
   * once: every report is the same, so only the slot and the count matter.
   */
  lemma ForwardAllSplit(slot: PendingChange, a: seq<MachineRequest>, b: seq<MachineRequest>)
    ensures var p := ForwardAll(slot, a);
            var r := ForwardAll(p.0, b);
            ForwardAll(slot, a + b) == (r.0, p.1 + r.1)
  {
    var p := ForwardAll(slot, a);
    var r := ForwardAll(p.0, b);
    if b == [] {
      assert a + b == a && p.1 + r.1 == p.1;
      assert ForwardAll(slot, a + b) == (r.0, p.1 + r.1);
    } else if a == [] {
      assert a + b == b && p.1 + r.1 == r.1;
      assert ForwardAll(slot, a + b) == (r.0, p.1 + r.1);
    } else {
      assert Last(a + b) == Last(b);
      assert p.1 + r.1 == Overwritten(|p.1| + |r.1|);
      assert ForwardAll(slot, a + b).1 == p.1 + r.1;
      assert ForwardAll(slot, a + b) == (r.0, p.1 + r.1);
    }
  }

  // ---------------------------------------------------------------------
  // Calls into a machine

  /** What the manager asks of a machine. */
  datatype Call = CallReset | CallUpdate | CallProcess(e: Event)

  /**
   * A call the manager made: on which machine, which entry point, the
   * machine's fields just before and just after it (before its requests were
   * taken), and the requests the machine made meanwhile.
   */
  datatype Visit = Visit(machine: StateMachine, call: Call, before: MachineState, after: MachineState, requests: seq<MachineRequest>)

  /** The machine's state after the call, by its specification. */
  function Called(b: Behavior, t: MachineState, c: Call, ownerDeleted: bool): (r: MachineState)
    ensures Inv(t) ==> Inv(r)
    ensures r.queue == t.queue
  {
    match c
    case CallReset => ResetTo(b, t, ownerDeleted)
    case CallUpdate => Updated(b, t, ownerDeleted)
    case CallProcess(e) => Processed(b, t, e, ownerDeleted)
  }

  /** Whether `vs` records, at position `from` or later, the call `c` on `m`. */
  predicate CalledSince(vs: seq<Visit>, from: nat, m: StateMachine, c: Call)
  {
    exists i | from <= i < |vs| :: vs[i].machine == m && vs[i].call == c
  }

  /** A record stays in the log as the log grows. */
  lemma CalledSinceGrows(vs: seq<Visit>, vs': seq<Visit>, from: nat, m: StateMachine, c: Call)
    requires vs <= vs' && CalledSince(vs, from, m, c)
    ensures CalledSince(vs', from, m, c)
  {
    var i :| from <= i < |vs| && vs[i].machine == m && vs[i].call == c;
    assert vs'[i] == vs[i];
  }

  /** Every call from `from` on was `c` on an active machine, and so is the one just appended. */
  lemma VisitsActiveGrow(vs: seq<Visit>, vs': seq<Visit>, from: nat, lists: seq<seq<StateMachine>>, c: Call)
    requires |vs'| == |vs| + 1 && vs <= vs'
    requires forall i | from <= i < |vs| :: vs[i].call == c && ActiveIn(lists, vs[i].machine, AllQueues)
    requires Last(vs').call == c && ActiveIn(lists, Last(vs').machine, AllQueues)
    ensures forall i | from <= i < |vs'| :: vs'[i].call == c && ActiveIn(lists, vs'[i].machine, AllQueues)
  {
  }

  /**
   * The manager's call into a machine (Reset, Update or Process), after
   * which the requests the machine made are taken from it.
   */
  method Run(m: StateMachine, c: Call, ownerDeleted: bool) returns (reqs: seq<MachineRequest>)
    requires m.Valid()
    modifies m
    ensures m.Valid()
    ensures reqs == Called(m.behavior, old(m.Snap()), c, ownerDeleted).machineRequests
    ensures m.Snap() == Taken(Called(m.behavior, old(m.Snap()), c, ownerDeleted))
  {
    match c {
      case CallReset => m.Reset(ownerDeleted);
      case CallUpdate => m.Update(ownerDeleted);
      case CallProcess(e) => m.Process(e, ownerDeleted);
    }
    reqs := m.TakeMachineRequests();
  }

  /**
   * Run, naming the machine's fields after the call (`after`, which Run
   * states to be Called of the fields before) instead of computing them.
   */
  method Serve(m: StateMachine, c: Call, ownerDeleted: bool) returns (reqs: seq<MachineRequest>, ghost after: MachineState)
    requires m.Valid()
    modifies m
    ensures m.Valid() && m.queue == old(m.queue) && m.machineRequests == []
    ensures m.Snap() == Taken(after) && reqs == after.machineRequests
  {
    after := Called(m.behavior, old(m.Snap()), c, ownerDeleted);
    reqs := Run(m, c, ownerDeleted);
  }

  // ---------------------------------------------------------------------
  // List surgery by request kind

  /** Whether a request kind brings in a new machine. */
  predicate Creates(req: MachineRequest)
  {
    req.ReplaceRequest? || req.QueueRequest? || req.PushRequest?
  }

  /** Every request kind except a queue request purges the queue's scoped messages. */
  predicate Purges(req: MachineRequest)
  {
    !req.QueueRequest?
  }

  /** The queue after a request that brings in `m`. */
  function Admitted<T>(l: seq<T>, req: MachineRequest, m: T): seq<T>
    requires Creates(req)
  {
    if req.ReplaceRequest? then ReplaceTop(l, m)
    else if req.QueueRequest? then InsertQueued(l, m)
    else PushOnTop(l, m)
  }

  /** The queue after a request that brings in no machine; reset leaves it as it is. */
  function Reshaped<T>(l: seq<T>, req: MachineRequest): seq<T>
    requires !Creates(req)
  {
    if req.RequeueRequest? then (if |l| > 1 then Requeued(l) else l)
    else if req.PopRequest? then (if |l| > 1 then PopTop(l) else l)
    else l
  }

  /** Where the machine a request brings in lands, in a queue of `n` entries. */
  function NewAt(n: nat, req: MachineRequest): nat
    requires Creates(req)
  {
    if req.ReplaceRequest? then (if n > 0 then n - 1 else 0)
    else if req.QueueRequest? then QueuedAt(n)
    else n
  }

  /** Whether carrying out `req` turns queue `l` into `l2`, with the new machine, if any, where NewAt says. */
  predicate Shaped<T(==)>(l: seq<T>, req: MachineRequest, l2: seq<T>)
  {
    if Creates(req) then NewAt(|l|, req) < |l2| && l2 == Admitted(l, req, l2[NewAt(|l|, req)])
    else l2 == Reshaped(l, req)
  }

  /** A run of requests, each turning one queue of `shapes` into the next, grows by one more. */
  lemma ShapedGrows<T>(shapes: seq<seq<T>>, carried: seq<MachineRequest>, req: MachineRequest, l: seq<T>)
    requires |shapes| == |carried| + 1 && Shaped(Last(shapes), req, l)
    requires forall i | 0 <= i < |carried| :: Shaped(shapes[i], carried[i], shapes[i + 1])
    ensures forall i | 0 <= i < |carried| + 1 :: Shaped((shapes + [l])[i], (carried + [req])[i], (shapes + [l])[i + 1])
  {
  }

  /** The new machine is where NewAt says, the queue is not empty, and nothing else comes in. */
  lemma AdmittedPlaces<T>(l: seq<T>, req: MachineRequest, m: T)
    requires Creates(req)
    ensures NewAt(|l|, req) < |Admitted(l, req, m)| && Admitted(l, req, m)[NewAt(|l|, req)] == m
    ensures forall x | x in Admitted(l, req, m) :: x in l || x == m
  {
    if req.ReplaceRequest? {
      ReplaceTopMembers(l, m);
    } else if req.QueueRequest? {
      InsertQueuedPlaces(l, m);
      InsertQueuedMembers(l, m);
    } else {
      PushOnTopMembers(l, m);
    }
  }

  /** No request that brings in no machine empties a queue or adds to it. */
  lemma ReshapedKeeps<T>(l: seq<T>, req: MachineRequest)
    requires !Creates(req)
    ensures |l| > 0 ==> |Reshaped(l, req)| > 0
    ensures forall x | x in Reshaped(l, req) :: x in l
  {
    if |l| > 1 {
      if req.RequeueRequest? {
        RequeuedMembers(l);
      } else if req.PopRequest? {
        PopTopMembers(l);
      }
    }
  }

  /** Whether carrying out `req` on a queue of `n` machines resets the active machine afterwards. */
  predicate Resets(n: nat, req: MachineRequest)
  {
    match req
    case ResetRequest => n > 0
    case ReplaceRequest(_) => true
    case QueueRequest(_) => false
    case RequeueRequest => n > 0
    case PushRequest(_) => true
    case PopRequest => n > 1
  }

  /** The contract violation carrying out `req` on a queue of `n` machines reports, if any. */
  function Complaint(n: nat, req: MachineRequest): seq<ManagerFault>
  {
    match req
    case ResetRequest => if n > 0 then [] else [NoMachineToReset]
    case ReplaceRequest(_) => if n > 0 then [] else [NoMachineToReplace]
    case QueueRequest(_) => []
    case RequeueRequest => if n > 0 then [] else [NoMachineToRequeue]
    case PushRequest(_) => []
    case PopRequest => if n > 1 then [] else [CannotPopLastMachine]
  }

  /** Whether a queue selector designates queue `q`. */
  predicate Selects(sel: QueueSelector, q: nat)
  {
    sel == AllQueues || sel == Single(q)
  }

  /** Whether `m` is the active machine of a queue with a machine that `sel` designates. */
  predicate ActiveIn(lists: seq<seq<StateMachine>>, m: StateMachine, sel: QueueSelector)
  {
    exists q | 0 <= q < |lists| && Selects(sel, q) && lists[q] != [] :: m == Last(lists[q])
  }

  /** The queue numbers the purges of the requests `reqs`, carried out on queue `q`, name. */
  function Purged(reqs: seq<MachineRequest>, q: nat): (r: seq<nat>)
    ensures |r| <= |reqs|
    ensures forall i | 0 <= i < |r| :: r[i] == q
  {
    if reqs == [] then []
    else Purged(reqs[..|reqs| - 1], q) + (if Purges(Last(reqs)) then [q] else [])
  }

  // ---------------------------------------------------------------------
  // The manager

  class StateMachineManager {
    /** The number of queues. */
    const queueCount: nat
    /** The behaviour of each machine kind a request can name. */
    const catalog: nat -> Behavior
    /** Per queue, the machines; the last one is active, the first one is the default. */
    var lists: seq<seq<StateMachine>>
    /** Per queue, the pending structural request. */
    var changes: seq<PendingChange>
    /** The queues whose scoped self-messages were purged from the router, in order. */
    var purges: seq<nat>
    /** Contract violations reported, oldest first. */
    var faults: seq<ManagerFault>
    /** The calls made into machines, oldest first. */
    ghost var visits: seq<Visit>
    ghost var Repr: set<object>

    /** A machine in queue `q`: consistent, assigned to `q`, and with no requests left untaken. */
    static ghost predicate Placed(m: StateMachine, q: nat)
      reads m
    {
      m.Valid() && m.queue == Single(q) && m.machineRequests == []
    }

    ghost predicate Valid()
      reads this, Repr
    {
      this in Repr && |lists| == queueCount && |changes| == queueCount &&
      forall q, m | 0 <= q < |lists| && m in lists[q] :: m in Repr && Placed(m, q)
    }

    /**
     * The call `c` on `m` was made and recorded, and the requests it made
     * were forwarded to the slot of queue `q`, starting from the given log,
     * slots and reports.
     */
    ghost predicate Served(q: nat, m: StateMachine, c: Call, visits0: seq<Visit>, changes0: seq<PendingChange>, faults0: seq<ManagerFault>)
      reads this
      requires q < |changes0|
    {
      |visits| == |visits0| + 1 && visits[..|visits0|] == visits0 &&
      Last(visits).machine == m && Last(visits).call == c &&
      var fw := ForwardAll(changes0[q], Last(visits).requests);
      changes == changes0[q := fw.0] && faults == faults0 + fw.1
    }

    /** The queues of the object that owns the machines: all empty, nothing pending. */
    constructor (n: nat, kinds: nat -> Behavior)
      ensures Valid() && fresh(Repr)
      ensures queueCount == n && catalog == kinds
      ensures |lists| == n && forall q | 0 <= q < n :: lists[q] == [] && changes[q] == NoMachineChange
      ensures purges == [] && faults == [] && visits == []
    {
      queueCount := n;
      catalog := kinds;
      lists := seq(n, _ => []);
      changes := seq(n, _ => NoMachineChange);
      purges := [];
      faults := [];
      visits := [];
      Repr := {this};
    }

    /** ASSERTMSG(ok, f): report `f` unless `ok` holds, and carry on. */
    method Assert(ok: bool, f: ManagerFault)
      modifies this`faults
      ensures faults == if ok then old(faults) else old(faults) + [f]
    {
      if !ok {
        faults := faults + [f];
      }
    }

    /** Record a structural request for queue `q`, reporting one that is still pending. */
    method RequestStateMachineChange(req: MachineRequest, q: nat)
      requires q < |changes|
      modifies this`changes, this`faults
      ensures changes == old(changes)[q := Record(old(changes[q]), req).0]
      ensures faults == old(faults) + Record(old(changes[q]), req).1
    {
      Assert(changes[q] == NoMachineChange, MachineChangeAlreadyRequested);
      changes := changes[q := Pending(req)];
    }

    /** Hand a machine's requests to RequestStateMachineChange, oldest first. */
    method ForwardRequests(q: nat, reqs: seq<MachineRequest>)
      requires q < |changes|
      modifies this`changes, this`faults
      ensures changes == old(changes)[q := ForwardAll(old(changes[q]), reqs).0]
      ensures faults == old(faults) + ForwardAll(old(changes[q]), reqs).1
    {
      for i := 0 to |reqs|
        invariant changes == old(changes)[q := ForwardAll(old(changes[q]), reqs[..i]).0]
        invariant faults == old(faults) + ForwardAll(old(changes[q]), reqs[..i]).1
      {
        assert reqs[..i + 1][..i] == reqs[..i];
        RequestStateMachineChange(reqs[i], q);
      }
      assert reqs[..|reqs|] == reqs;
    }

    /** Call into the active machine of queue `q`, then hand the requests it made to the queue's slot. */
    method CallTop(q: nat, c: Call, ownerDeleted: bool)
      requires Valid() && q < queueCount && |lists[q]| > 0
      modifies this`changes, this`faults, this`visits, Last(lists[q])
      ensures Valid() && Repr == old(Repr) && lists == old(lists) && purges == old(purges)
      ensures Served(q, Last(lists[q]), c, old(visits), old(changes), old(faults))
      ensures Last(visits).before == old(Last(lists[q]).Snap())
      ensures Last(lists[q]).Snap() == Taken(Last(visits).after) && Last(visits).requests == Last(visits).after.machineRequests
    {
      var m := Last(lists[q]);
      assert m in lists[q] && Placed(m, q);
      ghost var before := m.Snap();
      var reqs, after := Serve(m, c, ownerDeleted);
      visits := visits + [Visit(m, c, before, after, reqs)];
      ForwardRequests(q, reqs);
      assert visits[..|old(visits)|] == old(visits);
      forall q', x | 0 <= q' < |lists| && x in lists[q']
        ensures x in Repr && Placed(x, q')
      {
        if x == m {
          assert old(Placed(x, q'));
        }
      }
    }

    /** ResetStateMachine: reset the active machine; with none, report it. */
    method ResetStateMachine(q: nat, ownerDeleted: bool)
      requires Valid() && q < queueCount
      modifies Repr
      ensures Valid() && Repr == old(Repr) && lists == old(lists) && purges == old(purges)
      ensures |lists[q]| > 0 ==> Served(q, Last(lists[q]), CallReset, old(visits), old(changes), old(faults))
      ensures |lists[q]| == 0 ==>
        visits == old(visits) && changes == old(changes) && faults == old(faults) + [NoMachineToReset]
    {
      Assert(|lists[q]| > 0, NoMachineToReset);
      if |lists[q]| > 0 {
        CallTop(q, CallReset, ownerDeleted);
      }
    }

    /**
     * PushStateMachine: assign `mch` to queue `q` and make it the active
     * machine; reset it when `initialize` is set.
     */
    method PushStateMachine(mch: StateMachine, q: nat, initialize: bool, ownerDeleted: bool)
      requires Valid() && q < queueCount
      requires mch !in Repr && mch.Valid() && mch.machineRequests == []
      modifies Repr, mch
      ensures Valid() && Repr == old(Repr) + {mch} && purges == old(purges)
      ensures lists == old(lists)[q := PushOnTop(old(lists[q]), mch)]
      ensures initialize ==> Served(q, mch, CallReset, old(visits), old(changes), old(faults))
      ensures !initialize ==> visits == old(visits) && changes == old(changes) && faults == old(faults)
    {
      Assign(mch, q);
      AddOnTop(mch, q);
      if initialize {
        CallTop(q, CallReset, ownerDeleted);
      }
    }

    /** push_back of a machine already assigned to `q`, which the manager now owns. */
    method AddOnTop(mch: StateMachine, q: nat)
      requires Valid() && q < queueCount
      requires mch !in Repr && Placed(mch, q)
      modifies this`lists, this`Repr
      ensures Valid() && Repr == old(Repr) + {mch}
      ensures lists == old(lists)[q := PushOnTop(old(lists[q]), mch)]
    {
      PushOnTopMembers(lists[q], mch);
      lists := lists[q := PushOnTop(lists[q], mch)];
      Repr := Repr + {mch};
    }

    /** Remove the active machine of `q` (which the owner then deletes). */
    method RemoveTop(q: nat)
      requires Valid() && q < queueCount && |lists[q]| > 0
      modifies this`lists
      ensures Valid() && lists == old(lists)[q := PopTop(old(lists[q]))]
    {
      PopTopMembers(lists[q]);
      lists := lists[q := PopTop(lists[q])];
    }

    /**
     * ReplaceStateMachine: the active machine is removed and `mch` pushed
     * and reset in its place; with no machine to replace, that is reported
     * and `mch` is pushed all the same.
     */
    method ReplaceStateMachine(mch: StateMachine, q: nat, ownerDeleted: bool)
      requires Valid() && q < queueCount
      requires mch !in Repr && mch.Valid() && mch.machineRequests == []
      modifies Repr, mch
      ensures Valid() && Repr == old(Repr) + {mch} && purges == old(purges)
      ensures lists == old(lists)[q := ReplaceTop(old(lists[q]), mch)]
      ensures Served(q, mch, CallReset, old(visits), old(changes),
                     old(faults) + if |old(lists[q])| > 0 then [] else [NoMachineToReplace])
    {
      Assert(|lists[q]| > 0, NoMachineToReplace);
      Assign(mch, q);
      if |lists[q]| > 0 {
        RemoveTop(q);
      }
      PushStateMachine(mch, q, true, ownerDeleted);
    }

    /**
     * QueueStateMachine: `mch` goes directly above the default machine; with
     * at most one machine in the queue it is pushed on top instead, and in
     * neither case is it reset. `mch` is a new machine, or the active one
     * when requeueing.
     */
    method QueueStateMachine(mch: StateMachine, q: nat)
      requires Valid() && q < queueCount
      requires (mch !in Repr && mch.Valid() && mch.machineRequests == []) || (|lists[q]| > 1 && mch == Last(lists[q]))
      modifies Repr, mch
      ensures Valid() && Repr == old(Repr) + {mch} && purges == old(purges)
      ensures lists == old(lists)[q := InsertQueued(old(lists[q]), mch)]
      ensures visits == old(visits) && changes == old(changes) && faults == old(faults)
    {
      if mch in Repr {
        assert mch in lists[q] && Placed(mch, q);
      }
      Assign(mch, q);
      if |lists[q]| <= 1 {
        PushStateMachine(mch, q, false, false);
      } else {
        InsertAboveDefault(mch, q);
      }
    }

    /** SetStateMachineQueue on a new machine, or on one already in queue `q`. */
    method Assign(mch: StateMachine, q: nat)
      requires Valid() && q < queueCount && mch.Valid() && mch.machineRequests == []
      requires mch !in Repr || mch in lists[q]
      modifies mch
      ensures Valid() && Placed(mch, q) && Repr == old(Repr)
    {
      mch.SetStateMachineQueue(Single(q));
      forall q', x | 0 <= q' < |lists| && x in lists[q']
        ensures x in Repr && Placed(x, q')
      {
        if x == mch {
          assert old(Placed(mch, q'));
        }
      }
    }

    /** insert at index 1 of a queue of more than one machine. */
    method InsertAboveDefault(mch: StateMachine, q: nat)
      requires Valid() && q < queueCount && |lists[q]| > 1 && Placed(mch, q)
      requires mch !in Repr || mch in lists[q]
      modifies this`lists, this`Repr
      ensures Valid() && Repr == old(Repr) + {mch}
      ensures lists == old(lists)[q := InsertQueued(old(lists[q]), mch)]
    {
      InsertQueuedMembers(lists[q], mch);
      lists := lists[q := InsertQueued(lists[q], mch)];
      Repr := Repr + {mch};
    }

    /**
     * RequeueStateMachine: with more than one machine, the active one is
     * queued above the default and the new top is reset; a single machine is
     * only reset; with none, that is reported.
     */
    method RequeueStateMachine(q: nat, ownerDeleted: bool)
      requires Valid() && q < queueCount
      modifies Repr
      ensures Valid() && Repr == old(Repr) && purges == old(purges)
      ensures lists == old(lists)[q := if |old(lists[q])| > 1 then Requeued(old(lists[q])) else old(lists[q])]
      ensures |lists[q]| > 0 ==> Served(q, Last(lists[q]), CallReset, old(visits), old(changes), old(faults))
      ensures |lists[q]| == 0 ==>
        visits == old(visits) && changes == old(changes) && faults == old(faults) + [NoMachineToRequeue]
    {
      Assert(|lists[q]| > 0, NoMachineToRequeue);
      if |lists[q]| > 1 {
        var top := Last(lists[q]);
        QueueStateMachine(top, q);
        RemoveTop(q);
        CallTop(q, CallReset, ownerDeleted);
      } else if |lists[q]| == 1 {
        CallTop(q, CallReset, ownerDeleted);
      }
    }

    /**
     * PopStateMachine: with more than one machine, the active one is
     * removed and the new top is reset; popping the last one is reported
     * and leaves the queue as it is.
     */
    method PopStateMachine(q: nat, ownerDeleted: bool)
      requires Valid() && q < queueCount
      modifies Repr
      ensures Valid() && Repr == old(Repr) && purges == old(purges)
      ensures lists == old(lists)[q := if |old(lists[q])| > 1 then PopTop(old(lists[q])) else old(lists[q])]
      ensures |old(lists[q])| > 1 ==> Served(q, Last(lists[q]), CallReset, old(visits), old(changes), old(faults))
      ensures |old(lists[q])| <= 1 ==>
        visits == old(visits) && changes == old(changes) && faults == old(faults) + [CannotPopLastMachine]
    {
      Assert(|lists[q]| > 1, CannotPopLastMachine);
      if |lists[q]| > 1 {
        RemoveTop(q);
        CallTop(q, CallReset, ownerDeleted);
      }
    }

    /**
     * One iteration of the request loop: `req` is carried out on queue `q`.
     * Every kind but a queue request first purges the queue's scoped
     * self-messages; a kind that brings in a machine constructs it from the
     * catalogue.
     */
    method CarryOut(q: nat, req: MachineRequest, ownerDeleted: bool)
      requires Valid() && q < queueCount
      modifies Repr
      ensures Valid() && old(Repr) <= Repr && fresh(Repr - old(Repr))
      ensures |lists| == |old(lists)| && forall q' | 0 <= q' < |lists| && q' != q :: lists[q'] == old(lists[q'])
      ensures purges == old(purges) + if Purges(req) then [q] else []
      ensures Creates(req) ==>
        var k := NewAt(|old(lists[q])|, req);
        k < |lists[q]| && fresh(lists[q][k]) && lists[q][k].behavior == catalog(req.kind) &&
        lists[q] == Admitted(old(lists[q]), req, lists[q][k])
      ensures !Creates(req) ==> lists[q] == Reshaped(old(lists[q]), req)
      ensures |old(lists[q])| > 0 ==> |lists[q]| > 0
      ensures Resets(|old(lists[q])|, req) ==>
        Served(q, Last(lists[q]), CallReset, old(visits), old(changes), old(faults) + Complaint(|old(lists[q])|, req))
      ensures !Resets(|old(lists[q])|, req) ==>
        visits == old(visits) && changes == old(changes) && faults == old(faults) + Complaint(|old(lists[q])|, req)
    {
      if Purges(req) {
        purges := purges + [q];
      }
      if Creates(req) {
        Admit(q, req, ownerDeleted);
      } else {
        Reshape(q, req, ownerDeleted);
      }
    }

    /** CarryOut of a replace, queue or push request: the new machine is constructed and placed. */
    method Admit(q: nat, req: MachineRequest, ownerDeleted: bool)
      requires Valid() && q < queueCount && Creates(req)
      modifies Repr
      ensures Valid() && old(Repr) <= Repr && fresh(Repr - old(Repr))
      ensures |lists| == |old(lists)| && forall q' | 0 <= q' < |lists| && q' != q :: lists[q'] == old(lists[q'])
      ensures purges == old(purges)
      ensures var k := NewAt(|old(lists[q])|, req);
        k < |lists[q]| && fresh(lists[q][k]) && lists[q][k].behavior == catalog(req.kind) &&
        lists[q] == Admitted(old(lists[q]), req, lists[q][k])
      ensures |lists[q]| > 0
      ensures Resets(|old(lists[q])|, req) ==>
        Served(q, Last(lists[q]), CallReset, old(visits), old(changes), old(faults) + Complaint(|old(lists[q])|, req))
      ensures !Resets(|old(lists[q])|, req) ==>
        visits == old(visits) && changes == old(changes) && faults == old(faults) + Complaint(|old(lists[q])|, req)
    {
      var mch := NewMachine(req.kind);
      match req {
        case ReplaceRequest(_) =>
          ReplaceStateMachine(mch, q, ownerDeleted);
        case QueueRequest(_) =>
          QueueStateMachine(mch, q);
        case PushRequest(_) =>
          PushStateMachine(mch, q, true, ownerDeleted);
      }
      AdmittedPlaces(old(lists[q]), req, mch);
    }

    /** CarryOut of a reset, requeue or pop request: the queue is rearranged, not added to. */
    method Reshape(q: nat, req: MachineRequest, ownerDeleted: bool)
      requires Valid() && q < queueCount && !Creates(req)
      modifies Repr
      ensures Valid() && Repr == old(Repr)
      ensures lists == old(lists)[q := Reshaped(old(lists[q]), req)] && purges == old(purges)
      ensures |old(lists[q])| > 0 ==> |lists[q]| > 0
      ensures Resets(|old(lists[q])|, req) ==>
        Served(q, Last(lists[q]), CallReset, old(visits), old(changes), old(faults) + Complaint(|old(lists[q])|, req))
      ensures !Resets(|old(lists[q])|, req) ==>
        visits == old(visits) && changes == old(changes) && faults == old(faults) + Complaint(|old(lists[q])|, req)
    {
      match req {
        case ResetRequest =>
          ResetStateMachine(q, ownerDeleted);
        case RequeueRequest =>
          RequeueStateMachine(q, ownerDeleted);
        case PopRequest =>
          PopStateMachine(q, ownerDeleted);
      }
      ReshapedKeeps(old(lists[q]), req);
    }

    /** The factory: a new machine of catalogue kind `k`, in its start state. */
    method NewMachine(k: nat) returns (mch: StateMachine)
      ensures fresh(mch) && mch.behavior == catalog(k) && mch.Valid() && mch.machineRequests == []
    {
      mch := new StateMachine(catalog(k));
    }

    /**
     * ProcessStateMachineChangeRequests: carry out the pending request of
     * queue `q` and every request the machines make meanwhile, one after the
     * other, for at most MachineSafetyLimit iterations; the last permitted
     * iteration is reported as flip-flopping. `carried` lists the requests
     * carried out, in order, and `shapes` the queue before and after each.
     */
    method ProcessStateMachineChangeRequests(q: nat, ownerDeleted: bool)
      returns (ghost carried: seq<MachineRequest>, ghost shapes: seq<seq<StateMachine>>)
      requires Valid() && q < queueCount
      modifies Repr
      ensures Valid() && old(Repr) <= Repr && fresh(Repr - old(Repr))
      ensures |lists| == |old(lists)| && forall q' | 0 <= q' < |lists| && q' != q :: lists[q'] == old(lists[q'])
      ensures forall q' | 0 <= q' < |changes| && q' != q :: changes[q'] == old(changes[q'])
      ensures old(visits) <= visits && old(faults) <= faults
      ensures |carried| <= MachineSafetyLimit
      ensures carried == [] <==> old(changes[q]) == NoMachineChange
      ensures carried == [] ==> lists == old(lists) && changes == old(changes) && visits == old(visits) && faults == old(faults)
      ensures carried != [] ==> carried[0] == old(changes[q]).request
      ensures purges == old(purges) + Purged(carried, q)
      ensures changes[q] != NoMachineChange ==> |carried| == MachineSafetyLimit
      ensures |carried| == MachineSafetyLimit ==> MachinesFlipFlopping in faults[|old(faults)|..]
      ensures |old(lists[q])| > 0 ==> |lists[q]| > 0
      ensures |shapes| == |carried| + 1 && shapes[0] == old(lists[q]) && Last(shapes) == lists[q]
      ensures forall i | 0 <= i < |carried| :: Shaped(shapes[i], carried[i], shapes[i + 1])
    {
      var safetyCount := MachineSafetyLimit;
      var change := changes[q];
      carried := [];
      shapes := [lists[q]];
      while change != NoMachineChange && safetyCount > 0
        invariant Valid() && old(Repr) <= Repr && fresh(Repr - old(Repr))
        invariant |carried| + safetyCount == MachineSafetyLimit
        invariant change == changes[q]
        invariant |lists| == |old(lists)| && forall q' | 0 <= q' < |lists| && q' != q :: lists[q'] == old(lists[q'])
        invariant forall q' | 0 <= q' < |changes| && q' != q :: changes[q'] == old(changes[q'])
        invariant old(visits) <= visits && old(faults) <= faults
        invariant carried == [] ==> lists == old(lists) && changes == old(changes) && visits == old(visits) && faults == old(faults)
        invariant carried != [] ==> old(changes[q]).Pending? && carried[0] == old(changes[q]).request
        invariant purges == old(purges) + Purged(carried, q)
        invariant |carried| == MachineSafetyLimit ==> MachinesFlipFlopping in faults[|old(faults)|..]
        invariant |old(lists[q])| > 0 ==> |lists[q]| > 0
        invariant |shapes| == |carried| + 1 && shapes[0] == old(lists[q]) && Last(shapes) == lists[q]
        invariant forall i | 0 <= i < |carried| :: Shaped(shapes[i], carried[i], shapes[i + 1])
        decreases safetyCount
      {
        safetyCount := safetyCount - 1;
        var req := change.request;
        ghost var faults0 := faults;
        DrainStep(q, req, safetyCount, ownerDeleted);
        if safetyCount == 0 {
          assert faults[|old(faults)|..][|faults0| - |old(faults)|] == MachinesFlipFlopping;
        }
        assert (carried + [req])[..|carried|] == carried;
        ShapedGrows(shapes, carried, req, lists[q]);
        carried := carried + [req];
        shapes := shapes + [lists[q]];
        change := changes[q];
      }
    }

    /**
     * The body of the request loop, with `safetyCount` already counted down:
     * the last permitted iteration is reported, the slot is cleared and
     * `req` is carried out.
     */
    method DrainStep(q: nat, req: MachineRequest, safetyCount: nat, ownerDeleted: bool)
      requires Valid() && q < queueCount
      modifies Repr
      ensures Valid() && old(Repr) <= Repr && fresh(Repr - old(Repr))
      ensures |lists| == |old(lists)| && forall q' | 0 <= q' < |lists| && q' != q :: lists[q'] == old(lists[q'])
      ensures forall q' | 0 <= q' < |changes| && q' != q :: changes[q'] == old(changes[q'])
      ensures old(visits) <= visits && old(faults) <= faults
      ensures safetyCount == 0 ==> |old(faults)| < |faults| && faults[|old(faults)|] == MachinesFlipFlopping
      ensures purges == old(purges) + if Purges(req) then [q] else []
      ensures |old(lists[q])| > 0 ==> |lists[q]| > 0
      ensures Shaped(old(lists[q]), req, lists[q])
      ensures Creates(req) ==>
        var k := NewAt(|old(lists[q])|, req); fresh(lists[q][k]) && lists[q][k].behavior == catalog(req.kind)
      ensures Resets(|old(lists[q])|, req) ==>
        Served(q, Last(lists[q]), CallReset, old(visits), old(changes)[q := NoMachineChange],
               old(faults) + (if safetyCount > 0 then [] else [MachinesFlipFlopping]) + Complaint(|old(lists[q])|, req))
      ensures !Resets(|old(lists[q])|, req) ==>
        visits == old(visits) && changes == old(changes)[q := NoMachineChange] &&
        faults == old(faults) + (if safetyCount > 0 then [] else [MachinesFlipFlopping]) + Complaint(|old(lists[q])|, req)
    {
      Assert(safetyCount > 0, MachinesFlipFlopping);
      changes := changes[q := NoMachineChange];
      ghost var faults1 := faults;
      assert faults1 == old(faults) + (if safetyCount > 0 then [] else [MachinesFlipFlopping]);
      CarryOut(q, req, ownerDeleted);
    }

    /**
     * Update: for each queue with a machine, carry out its pending requests,
     * then update its active machine. Queues without a machine are left
     * alone.
     */
    method Update(ownerDeleted: bool)
      requires Valid()
      modifies Repr
      ensures Valid() && old(Repr) <= Repr && fresh(Repr - old(Repr))
      ensures old(visits) <= visits && old(faults) <= faults
      ensures |lists| == queueCount
      ensures forall q | 0 <= q < queueCount && old(lists[q]) == [] :: lists[q] == [] && changes[q] == old(changes[q])
      ensures forall q | 0 <= q < queueCount && old(lists[q]) != [] ::
        lists[q] != [] && CalledSince(visits, |old(visits)|, Last(lists[q]), CallUpdate)
    {
      for q := 0 to queueCount
        invariant Valid() && old(Repr) <= Repr && fresh(Repr - old(Repr))
        invariant old(visits) <= visits && old(faults) <= faults
        invariant forall q' | q <= q' < queueCount :: lists[q'] == old(lists[q']) && changes[q'] == old(changes[q'])
        invariant forall q' | 0 <= q' < q && old(lists[q']) == [] :: lists[q'] == [] && changes[q'] == old(changes[q'])
        invariant forall q' | 0 <= q' < q && old(lists[q']) != [] ::
          lists[q'] != [] && CalledSince(visits, |old(visits)|, Last(lists[q']), CallUpdate)
      {
        if lists[q] != [] {
          ghost var before := visits;
          UpdateQueue(q, ownerDeleted);
          assert visits[|visits| - 1].machine == Last(lists[q]) && |old(visits)| <= |visits| - 1;
          forall q' | 0 <= q' < q && old(lists[q']) != []
            ensures CalledSince(visits, |old(visits)|, Last(lists[q']), CallUpdate)
          {
            CalledSinceGrows(before, visits, |old(visits)|, Last(lists[q']), CallUpdate);
          }
        }
      }
    }

    /** One iteration of Update, on a queue with a machine. */
    method UpdateQueue(q: nat, ownerDeleted: bool)
      requires Valid() && q < queueCount && lists[q] != []
      modifies Repr
      ensures Valid() && old(Repr) <= Repr && fresh(Repr - old(Repr))
      ensures old(visits) <= visits && old(faults) <= faults
      ensures |lists| == |old(lists)| && forall q' | 0 <= q' < |lists| && q' != q :: lists[q'] == old(lists[q'])
      ensures forall q' | 0 <= q' < |changes| && q' != q :: changes[q'] == old(changes[q'])
      ensures lists[q] != [] && |old(visits)| < |visits|
      ensures Last(visits).machine == Last(lists[q]) && Last(visits).call == CallUpdate
    {
      ghost var carried, shapes := ProcessStateMachineChangeRequests(q, ownerDeleted);
      CallTop(q, CallUpdate, ownerDeleted);
    }
  
    /**
     * Process: deliver `e` to the active machine of the selected queue, or
     * of every queue; queues without a machine, and a selector naming no
     * queue, are skipped.
     */
    method Process(e: Event, sel: QueueSelector, ownerDeleted: bool)
      requires Valid()
      modifies Repr
      ensures Valid() && Repr == old(Repr) && lists == old(lists) && purges == old(purges)
      ensures old(visits) <= visits && old(faults) <= faults
      ensures forall q | 0 <= q < queueCount && Selects(sel, q) && lists[q] != [] ::
        CalledSince(visits, |old(visits)|, Last(lists[q]), CallProcess(e))
      ensures forall i | |old(visits)| <= i < |visits| ::
        visits[i].call == CallProcess(e) && ActiveIn(lists, visits[i].machine, sel)
      ensures forall q | 0 <= q < queueCount && !Selects(sel, q) :: changes[q] == old(changes[q])
    {
      match sel {
        case Single(q) =>
          if q < queueCount && lists[q] != [] {
            ProcessTop(q, e, ownerDeleted);
            assert visits[|visits| - 1].machine == Last(lists[q]);
            assert ActiveIn(lists, visits[|visits| - 1].machine, sel);
          }
        case AllQueues =>
          ProcessAll(e, ownerDeleted);
        case NoQueue =>
      }
    }

    /** The AllQueues case of Process. */
    method ProcessAll(e: Event, ownerDeleted: bool)
      requires Valid()
      modifies Repr
      ensures Valid() && Repr == old(Repr) && lists == old(lists) && purges == old(purges)
      ensures old(visits) <= visits && old(faults) <= faults
      ensures forall q | 0 <= q < queueCount && lists[q] != [] ::
        CalledSince(visits, |old(visits)|, Last(lists[q]), CallProcess(e))
      ensures forall i | |old(visits)| <= i < |visits| ::
        visits[i].call == CallProcess(e) && ActiveIn(lists, visits[i].machine, AllQueues)
    {
      for q := 0 to queueCount
        invariant Valid() && Repr == old(Repr) && lists == old(lists) && purges == old(purges)
        invariant old(visits) <= visits && old(faults) <= faults
        invariant forall q' | 0 <= q' < q && lists[q'] != [] ::
          CalledSince(visits, |old(visits)|, Last(lists[q']), CallProcess(e))
        invariant forall i | |old(visits)| <= i < |visits| ::
          visits[i].call == CallProcess(e) && ActiveIn(lists, visits[i].machine, AllQueues)
      {
        if lists[q] != [] {
          ghost var before := visits;
          ProcessTop(q, e, ownerDeleted);
          assert ActiveIn(lists, Last(visits).machine, AllQueues);
          VisitsActiveGrow(before, visits, |old(visits)|, lists, CallProcess(e));
          forall q' | 0 <= q' < q && lists[q'] != []
            ensures CalledSince(visits, |old(visits)|, Last(lists[q']), CallProcess(e))
          {
            CalledSinceGrows(before, visits, |old(visits)|, Last(lists[q']), CallProcess(e));
          }
        }
      }
    }

    /** Deliver `e` to the active machine of queue `q`. */
    method ProcessTop(q: nat, e: Event, ownerDeleted: bool)
      requires Valid() && q < queueCount && lists[q] != []
      modifies Repr
      ensures Valid() && Repr == old(Repr) && lists == old(lists) && purges == old(purges)
      ensures old(faults) <= faults && |visits| == |old(visits)| + 1 && old(visits) <= visits
      ensures Last(visits).machine == Last(lists[q]) && Last(visits).call == CallProcess(e)
      ensures forall q' | 0 <= q' < |changes| && q' != q :: changes[q'] == old(changes[q'])
    {
      CallTop(q, CallProcess(e), ownerDeleted);
    }

    /** SendMsg: deliver a message event to the active machine of every queue. */
    method SendMsg(name: nat, ownerDeleted: bool)
      requires Valid()
      modifies Repr
      ensures Valid() && Repr == old(Repr) && lists == old(lists) && purges == old(purges)
      ensures old(visits) <= visits && old(faults) <= faults
      ensures forall q | 0 <= q < queueCount && lists[q] != [] ::
        CalledSince(visits, |old(visits)|, Last(lists[q]), CallProcess(EventMessage(name)))
      ensures forall i | |old(visits)| <= i < |visits| ::
        visits[i].call == CallProcess(EventMessage(name)) && ActiveIn(lists, visits[i].machine, AllQueues)
    {
      ProcessAll(EventMessage(name), ownerDeleted);
    }

    /** DeleteStateMachineQueue: empty the selected queue, or every queue. */
    method DeleteStateMachineQueue(sel: QueueSelector)
      requires Valid()
      modifies this`lists
      ensures Valid() && |lists| == |old(lists)|
      ensures forall q | 0 <= q < |lists| :: lists[q] == if Selects(sel, q) then [] else old(lists[q])
    {
      match sel {
        case Single(q) =>
          if q < queueCount {
            ghost var deleted := DeleteQueue(q);
          }
        case AllQueues =>
          for q := 0 to queueCount
            invariant Valid() && |lists| == queueCount
            invariant forall q' | 0 <= q' < queueCount :: lists[q'] == if q' < q then [] else old(lists[q'])
          {
            ghost var deleted := DeleteQueue(q);
          }
        case NoQueue =>
      }
    }

    /** Remove the machines of queue `q` one by one, the active one first; `deleted` lists them in that order. */
    method DeleteQueue(q: nat) returns (ghost deleted: seq<StateMachine>)
      requires Valid() && q < queueCount
      modifies this`lists
      ensures Valid() && lists == old(lists)[q := []]
      ensures Reversed(deleted) == old(lists[q])
    {
      deleted := [];
      while |lists[q]| > 0
        invariant Valid() && |lists| == |old(lists)|
        invariant forall q' | 0 <= q' < |lists| && q' != q :: lists[q'] == old(lists[q'])
        invariant old(lists[q]) == lists[q] + Reversed(deleted)
        decreases |lists[q]|
      {
        var top := Last(lists[q]);
        ghost var rest := PopTop(lists[q]);
        assert lists[q] == PushOnTop(rest, top);
        ReversedPushOnTop(deleted, top);
        RemoveTop(q);
        deleted := deleted + [top];
      }
      assert lists[q] == [];
    }

    /** The destructor: every queue is emptied. */
    method Destroy()
      requires Valid()
      modifies this`lists
      ensures Valid() && |lists| == queueCount && forall q | 0 <= q < queueCount :: lists[q] == []
    {
      DeleteStateMachineQueue(AllQueues);
    }
  }
}
