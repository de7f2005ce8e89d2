/** The in-memory stack of earlier song lists that `undo` restores. */
module UndoStack {
  import opened Results
  import opened BoundedLog

  /** How many earlier states are kept. */
  const UndoCutoff: nat := 10

  /** `updatePreviousStates`: push a snapshot, then drop the oldest while over the cutoff. */
  function Push<T>(states: seq<T>, snapshot: T): (r: seq<T>)
    ensures |r| == Min(|states| + 1, UndoCutoff)
    ensures |states| < UndoCutoff ==> r == states + [snapshot]
    ensures |states| >= UndoCutoff ==> r == (states + [snapshot])[|states| + 1 - UndoCutoff..]
  {
    Evict(states + [snapshot], UndoCutoff)
  }

  /** The most recent snapshot and what is left under it. */
  datatype Popped<T> = Popped(top: T, rest: seq<T>)

  /** The removal half of `undo`: `None` on an empty stack, otherwise the most recent
      snapshot, taken off and nothing else. */
  function Pop<T>(states: seq<T>): (r: Option<Popped<T>>)
    ensures r.None? <==> |states| == 0
    ensures r.Some? ==> states == r.value.rest + [r.value.top]
  {
    if |states| == 0 then None
    else Some(Popped(states[|states| - 1], states[..|states| - 1]))
  }

  /** Last in, first out: popping right after a push returns the pushed snapshot and a
      stack that is the old one, less its oldest entry if the push had to evict. */
  lemma PopAfterPush<T>(states: seq<T>, snapshot: T)
    ensures Pop(Push(states, snapshot)) == Some(Popped(snapshot, Evict(states, UndoCutoff - 1)))
    ensures |states| < UndoCutoff ==> Pop(Push(states, snapshot)) == Some(Popped(snapshot, states))
  {
    var r := Push(states, snapshot);
    var e := Evict(states, UndoCutoff - 1);
    assert r[..|r| - 1] == e;
  }

  /** Pushes onto a stack, oldest first. */
  function PushAll<T>(states: seq<T>, snapshots: seq<T>): seq<T>
    decreases |snapshots|
  {
    if |snapshots| == 0 then states
    else PushAll(Push(states, snapshots[0]), snapshots[1..])
  }

  /** Up to the cutoff, pushing a run of snapshots onto a stack just stacks them on top. */
  lemma {:induction false} PushAllWithinCutoff<T>(states: seq<T>, snapshots: seq<T>)
    requires |states| + |snapshots| <= UndoCutoff
    ensures PushAll(states, snapshots) == states + snapshots
    decreases |snapshots|
  {
    if |snapshots| > 0 {
      var x, tail := snapshots[0], snapshots[1..];
      assert PushAll(states, snapshots) == PushAll(states + [x], tail);
      PushAllWithinCutoff(states + [x], tail);
      assert states + [x] + tail == states + snapshots;
    }
  }

  /** Pops `n` snapshots, most recent first; `None` if the stack runs out. */
  function PopAll<T>(states: seq<T>, n: nat): Option<(seq<T>, seq<T>)>
    decreases n
  {
    if n == 0 then Some(([], states))
    else
      match Pop(states)
      case None => None
      case Some(p) =>
        match PopAll(p.rest, n - 1)
        case None => None
        case Some(taken) => Some(([p.top] + taken.0, taken.1))
  }

  /** The entries of `xs`, last first. */
  function Reverse<T>(xs: seq<T>): (r: seq<T>)
    ensures |r| == |xs| && forall i :: 0 <= i < |xs| ==> r[i] == xs[|xs| - 1 - i]
  {
    seq(|xs|, i requires 0 <= i < |xs| => xs[|xs| - 1 - i])
  }

  /** After `n` pushes within the cutoff, `n` pops return the snapshots in reverse order
      and leave the stack as it was before the pushes. */
  lemma {:induction false} PopAllAfterPushAll<T>(states: seq<T>, snapshots: seq<T>)
    requires |states| + |snapshots| <= UndoCutoff
    ensures PopAll(PushAll(states, snapshots), |snapshots|) == Some((Reverse(snapshots), states))
  {
    PushAllWithinCutoff(states, snapshots);
    PopAllOfAppend(states, snapshots);
  }

  /** Popping as many entries as were appended returns them last first, and the stack under them. */
  lemma {:induction false} PopAllOfAppend<T>(states: seq<T>, snapshots: seq<T>)
    ensures PopAll(states + snapshots, |snapshots|) == Some((Reverse(snapshots), states))
    decreases |snapshots|
  {
    if |snapshots| == 0 {
      assert states + snapshots == states;
    } else {
      var n := |snapshots|;
      var whole := states + snapshots;
      var front := snapshots[..n - 1];
      assert whole[..|whole| - 1] == states + front;
      assert Pop(whole) == Some(Popped(snapshots[n - 1], states + front));
      PopAllOfAppend(states, front);
      assert [snapshots[n - 1]] + Reverse(front) == Reverse(snapshots);
    }
  }
}
