/*
 * The list surgery StateMachineManager performs on one queue of machines.
 * A queue is a sequence whose last element (the back) is the active machine
 * and whose first element (the front) is the default machine, which queued
 * machines are kept above.
 */
module QueueOps {
  /** The active entry. */
  function Last<T>(l: seq<T>): T
    requires |l| > 0
  {
    l[|l| - 1]
  }

  /** push_back: `m` becomes the active entry. */
  function PushOnTop<T>(l: seq<T>, m: T): (r: seq<T>)
    ensures |r| == |l| + 1 && Last(r) == m
    ensures forall i | 0 <= i < |l| :: r[i] == l[i]
  {
    l + [m]
  }

  /** pop_back: the active entry is removed. */
  function PopTop<T>(l: seq<T>): (r: seq<T>)
    requires |l| > 0
    ensures |r| == |l| - 1
    ensures forall i | 0 <= i < |r| :: r[i] == l[i]
  {
    l[..|l| - 1]
  }

  /** Popping what was pushed gives the queue back. */
  lemma PopUndoesPushOnTop<T>(l: seq<T>, m: T)
    ensures PopTop(PushOnTop(l, m)) == l
  {
    assert (l + [m])[..|l|] == l;
  }

  /** Replace: the active entry (if any) is removed and `m` pushed in its place. */
  function ReplaceTop<T>(l: seq<T>, m: T): (r: seq<T>)
    ensures |r| == if |l| > 0 then |l| else 1
    ensures Last(r) == m
    ensures forall i | 0 <= i < |r| - 1 :: r[i] == l[i]
  {
    PushOnTop(if |l| > 0 then PopTop(l) else l, m)
  }

  /**
   * Queue: `m` goes directly above the front entry, below every other one;
   * with at most one entry that is on top.
   */
  function InsertQueued<T>(l: seq<T>, m: T): (r: seq<T>)
  {
    if |l| <= 1 then PushOnTop(l, m) else [l[0]] + [m] + l[1..]
  }

  /** Where a queued entry lands. */
  function QueuedAt(n: nat): nat
  {
    if n <= 1 then n else 1
  }

  /** Queueing inserts exactly `m`, at QueuedAt, keeping every other entry in order. */
  lemma InsertQueuedPlaces<T>(l: seq<T>, m: T)
    ensures var r := InsertQueued(l, m);
      |r| == |l| + 1 && r[QueuedAt(|l|)] == m &&
      r[..QueuedAt(|l|)] == l[..QueuedAt(|l|)] && r[QueuedAt(|l|) + 1..] == l[QueuedAt(|l|)..] &&
      multiset(r) == multiset(l) + multiset{m}
  {
    var r := InsertQueued(l, m);
    var k := QueuedAt(|l|);
    if |l| <= 1 {
      assert r == l + [m];
      assert r[..k] == l;
    } else {
      assert r == [l[0]] + [m] + l[1..];
      assert r[..k] == [l[0]] == l[..k];
      assert r[k + 1..] == l[1..];
      calc {
        multiset(r);
        multiset([l[0]] + [m]) + multiset(l[1..]);
        multiset{m} + multiset([l[0]]) + multiset(l[1..]);
        { assert l == [l[0]] + l[1..]; }
        multiset{m} + multiset(l);
      }
    }
  }

  /** With more than one entry the front and the active entry stay where they are. */
  lemma InsertQueuedKeepsEnds<T>(l: seq<T>, m: T)
    requires |l| > 1
    ensures var r := InsertQueued(l, m); r[0] == l[0] && Last(r) == Last(l)
  {
  }

  /**
   * Requeue: the active entry is queued (above the front entry) and the
   * copy on top is popped.
   */
  function Requeued<T>(l: seq<T>): seq<T>
    requires |l| > 1
  {
    PopTop(InsertQueued(l, Last(l)))
  }

  /** Requeue moves the active entry to index 1 and shifts the others up, in order. */
  lemma RequeuedMovesTop<T>(l: seq<T>)
    requires |l| > 1
    ensures var r := Requeued(l);
      |r| == |l| && r[0] == l[0] && r[1] == Last(l) && r[2..] == l[1..|l| - 1] &&
      multiset(r) == multiset(l)
  {
    var r := Requeued(l);
    var top := Last(l);
    var ins := [l[0]] + [top] + l[1..];
    assert InsertQueued(l, top) == ins;
    assert r == ins[..|ins| - 1];
    assert r == [l[0]] + [top] + l[1..|l| - 1];
    assert r[2..] == l[1..|l| - 1];
    calc {
      multiset(r);
      multiset([l[0]]) + multiset([top]) + multiset(l[1..|l| - 1]);
      { assert l == [l[0]] + l[1..|l| - 1] + [top]; }
      multiset(l);
    }
  }

  /** With exactly two entries requeueing leaves the order as it was. */
  lemma RequeueOfTwoIsIdentity<T>(l: seq<T>)
    requires |l| == 2
    ensures Requeued(l) == l
  {
    RequeuedMovesTop(l);
    assert Requeued(l) == [l[0], l[1]] == l;
  }

  /** No surgery empties a queue that has an entry, and a pop always leaves the default behind. */
  lemma NonEmptyStaysNonEmpty<T>(l: seq<T>, m: T)
    requires |l| > 0
    ensures |PushOnTop(l, m)| > 0 && |ReplaceTop(l, m)| > 0 && |InsertQueued(l, m)| > 0
    ensures |l| > 1 ==> |Requeued(l)| > 0 && |PopTop(l)| > 0
  {
    if |l| > 1 {
      RequeuedMovesTop(l);
    }
  }

  /**
   * The scenario of the queue/requeue test script: with [A, B] (B active),
   * B queues C, giving [A, C, B]; B then requeues itself, giving [A, B, C]
   * with C active.
   */
  lemma QueueThenRequeueScenario<T>(a: T, b: T, c: T)
    ensures InsertQueued([a, b], c) == [a, c, b]
    ensures Requeued([a, c, b]) == [a, b, c]
  {
    assert [a, b][1..] == [b];
    var l := [a, c, b];
    assert l[1..] == [c, b] && Last(l) == b;
    var ins := [a] + [b] + [c, b];
    assert InsertQueued(l, b) == ins;
    assert ins[..3] == [a, b, c];
  }

  /** The entries after a push are the old ones and `m`. */
  lemma PushOnTopMembers<T>(l: seq<T>, m: T)
    ensures forall x :: x in PushOnTop(l, m) <==> x in l || x == m
  {
    assert PushOnTop(l, m) == l + [m];
  }

  /** A pop only removes. */
  lemma PopTopMembers<T>(l: seq<T>)
    requires |l| > 0
    ensures forall x | x in PopTop(l) :: x in l
  {
    assert l == PopTop(l) + [Last(l)];
  }

  /** The entries after a replace are `m` and entries the queue had. */
  lemma ReplaceTopMembers<T>(l: seq<T>, m: T)
    ensures forall x | x in ReplaceTop(l, m) :: x in l || x == m
  {
    if |l| > 0 {
      PopTopMembers(l);
      PushOnTopMembers(PopTop(l), m);
    } else {
      PushOnTopMembers(l, m);
    }
  }

  /** The entries after queueing are the old ones and `m`. */
  lemma InsertQueuedMembers<T>(l: seq<T>, m: T)
    ensures forall x :: x in InsertQueued(l, m) <==> x in l || x == m
  {
    InsertQueuedPlaces(l, m);
    forall x
      ensures x in InsertQueued(l, m) <==> x in l || x == m
    {
      assert x in InsertQueued(l, m) <==> x in multiset(InsertQueued(l, m));
      assert x in l <==> x in multiset(l);
    }
  }

  /** Requeueing only reorders. */
  lemma RequeuedMembers<T>(l: seq<T>)
    requires |l| > 1
    ensures forall x :: x in Requeued(l) <==> x in l
  {
    RequeuedMovesTop(l);
    forall x
      ensures x in Requeued(l) <==> x in l
    {
      assert x in Requeued(l) <==> x in multiset(Requeued(l));
      assert x in l <==> x in multiset(l);
    }
  }

  /** The entries in the opposite order. */
  function Reversed<T>(l: seq<T>): (r: seq<T>)
    ensures |r| == |l|
  {
    if l == [] then [] else Reversed(l[1..]) + [l[0]]
  }

  /** The entry pushed last comes first in reverse. */
  lemma {:induction false} ReversedPushOnTop<T>(l: seq<T>, m: T)
    ensures Reversed(PushOnTop(l, m)) == [m] + Reversed(l)
    decreases |l|
  {
    if l == [] {
      assert PushOnTop(l, m) == [m];
    } else {
      assert PushOnTop(l, m)[1..] == PushOnTop(l[1..], m);
      ReversedPushOnTop(l[1..], m);
    }
  }
}
