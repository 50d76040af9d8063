/*
 * The bounded stack of previously active states kept by a state machine:
 * a full state change pushes the outgoing state and drops the oldest entry
 * once more than ten are held; a pop takes the most recent entry back.
 */
module History {

  /** Capacity of the state history. */
  const MaxStateStackSize: nat := 10

  function Min(a: nat, b: nat): nat
  {
    if a <= b then a else b
  }

  /** The history after pushing `s` onto `stack` and trimming it to capacity. */
  function Pushed(stack: seq<nat>, s: nat): (r: seq<nat>)
    ensures |stack| <= MaxStateStackSize ==> |r| == Min(|stack| + 1, MaxStateStackSize)
    ensures 0 < |r| && r[|r| - 1] == s
    ensures |r| == |stack| + 1 || (|r| == |stack| && |stack| >= MaxStateStackSize)
    ensures r == (stack + [s])[|stack| + 1 - |r|..]
  {
    var p := stack + [s];
    if |p| > MaxStateStackSize then p[1..] else p
  }

  /** The most recent entry of a non-empty history. */
  function Top(stack: seq<nat>): nat
    requires |stack| > 0
  {
    stack[|stack| - 1]
  }

  /** The history with its most recent entry removed. */
  function Popped(stack: seq<nat>): (r: seq<nat>)
    requires |stack| > 0
    ensures |r| == |stack| - 1 && stack == r + [Top(stack)]
  {
    stack[..|stack| - 1]
  }

  /** A pop undoes a push, except for the entry a full history had to evict. */
  lemma PopUndoesPush(stack: seq<nat>, s: nat)
    requires |stack| <= MaxStateStackSize
    ensures Top(Pushed(stack, s)) == s
    ensures Popped(Pushed(stack, s)) == if |stack| < MaxStateStackSize then stack else stack[1..]
  {
  }

  /** The history after pushing every state of `xs`, oldest first. */
  function PushedAll(stack: seq<nat>, xs: seq<nat>): seq<nat>
    decreases |xs|
  {
    if xs == [] then stack else PushedAll(Pushed(stack, xs[0]), xs[1..])
  }

  /** However many states are pushed, the history holds exactly the most recent ones, up to capacity. */
  lemma {:induction false} PushedAllKeepsMostRecent(stack: seq<nat>, xs: seq<nat>)
    requires |stack| <= MaxStateStackSize
    ensures var all := stack + xs;
            PushedAll(stack, xs) == all[|all| - Min(|all|, MaxStateStackSize)..]
    decreases |xs|
  {
    var all := stack + xs;
    if xs == [] {
      assert all == stack;
    } else {
      var p := Pushed(stack, xs[0]);
      var rest := xs[1..];
      PushedAllKeepsMostRecent(p, rest);
      var all' := p + rest;
      var m := Min(|all|, MaxStateStackSize);
      assert (stack + [xs[0]]) + rest == all;
      if |p| == |stack| + 1 {
        assert p == stack + [xs[0]];
        assert all' == all;
      } else {
        assert p == (stack + [xs[0]])[1..];
        assert all' == all[1..];
        assert Min(|all'|, MaxStateStackSize) == m;
        assert all'[|all'| - m..] == all[|all| - m..];
      }
    }
  }

  /**
   * Eleven full state changes from an empty history evict only the first
   * outgoing state, and the following pop returns the most recent one.
   */
  lemma EleventhPushEvictsOldest(xs: seq<nat>)
    requires |xs| == MaxStateStackSize + 1
    ensures PushedAll([], xs) == xs[1..]
    ensures Top(PushedAll([], xs)) == xs[MaxStateStackSize]
  {
    PushedAllKeepsMostRecent([], xs);
    assert [] + xs == xs;
  }
}
