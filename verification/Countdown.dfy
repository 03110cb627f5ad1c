/**
 * The node's wall-time countdown: a label rewritten every few seconds, and the Ready condition,
 * which the countdown and the node's start-up both write.
 */
module Countdown {

  datatype NodeCondition = NodeCondition(kind: string, holds: bool, reason: string, message: string)

  /** The node object's label and conditions. */
  datatype NodeState = NodeState(running: bool, aliveTime: int, conditions: seq<NodeCondition>)

  const NOT_READY := ("NodeNotReady", "Node is not ready")

  /** Whole seconds gone by. */
  function Elapsed(t: real): int { t.Floor }

  /** The label a tick writes: what is left of the wall time, never less than nothing. */
  function Left(wallTime: int, t: real): int {
    if wallTime - Elapsed(t) <= 0 then 0 else wallTime - Elapsed(t)
  }

  function AfterTick(n: NodeState, wallTime: int, t: real): NodeState
    requires n.conditions != []
  {
    var ticked := n.(aliveTime := Left(wallTime, t));
    if wallTime - Elapsed(t) > 0 then ticked
    else ticked.(conditions := n.conditions[0 := NodeCondition(n.conditions[0].kind, false, NOT_READY.0, NOT_READY.1)])
  }

  /** Only the first condition of kind Ready is marked. */
  function Marked(conditions: seq<NodeCondition>): (r: seq<NodeCondition>)
    ensures |r| == |conditions|
  {
    if conditions == [] then []
    else if conditions[0].kind == "Ready" then
      [NodeCondition("Ready", true, "KubeletReady", "Kubelet is ready")] + conditions[1..]
    else [conditions[0]] + Marked(conditions[1..])
  }

  lemma {:induction false} MarkedAt(conditions: seq<NodeCondition>, i: nat)
    requires i <= |conditions| && forall k :: 0 <= k < i ==> conditions[k].kind != "Ready"
    ensures i == |conditions| ==> Marked(conditions) == conditions
    ensures i < |conditions| && conditions[i].kind == "Ready" ==>
      Marked(conditions) == conditions[i := NodeCondition("Ready", true, "KubeletReady", "Kubelet is ready")]
  {
    if i > 0 { MarkedAt(conditions[1..], i - 1); }
  }

  class Node {
    var phaseRunning: bool
    var aliveTime: int
    var conditions: array<NodeCondition>

    ghost function State(): NodeState
      reads this, conditions
    {
      NodeState(phaseRunning, aliveTime, conditions[..])
    }

    /** The loop's body: t is the time since the loop began. */
    method NotifyNodeAliveTime(wallTime: int, t: real)
      requires conditions.Length > 0
      modifies this`aliveTime, conditions
      ensures State() == AfterTick(old(State()), wallTime, t)
    {
      var left := wallTime - Elapsed(t);
      aliveTime := left;
      if left <= 0 {
        aliveTime := 0;
        conditions[0] := conditions[0].(holds := false);
        conditions[0] := conditions[0].(reason := NOT_READY.0);
        conditions[0] := conditions[0].(message := NOT_READY.1);
      }
    }

    method SetNodeReady()
      modifies this`phaseRunning, conditions
      ensures State() == old(State()).(running := true, conditions := Marked(old(conditions[..])))
    {
      phaseRunning := true;
      for i := 0 to conditions.Length
        invariant conditions[..] == old(conditions[..])
        invariant forall k :: 0 <= k < i ==> conditions[k].kind != "Ready"
      {
        if conditions[i].kind != "Ready" { continue; }
        MarkedAt(conditions[..], i);
        var c := conditions[i];
        c := c.(message := "Kubelet is ready", reason := "KubeletReady", holds := true);
        conditions[i] := c;
        assert conditions[..] == old(conditions[..])[i := c];
        return;
      }
      MarkedAt(conditions[..], conditions.Length);
    }
  }

  // ---------- Runs ----------

  /** A tick at a time since the loop began, or the node being marked ready by start-up. */
  datatype Event = Tick(t: real) | MarkReady

  function After(n: NodeState, wallTime: int, e: Event): NodeState
    requires n.conditions != []
  {
    match e
    case Tick(t) => AfterTick(n, wallTime, t)
    case MarkReady => n.(running := true, conditions := Marked(n.conditions))
  }

  /** The node as the loop finds it: the label at the full wall time, Ready first among the conditions. */
  predicate Begins(n: NodeState, wallTime: int) {
    n.aliveTime == wallTime && n.conditions != [] && n.conditions[0].kind == "Ready"
  }

  function Replay(n: NodeState, wallTime: int, events: seq<Event>): (r: NodeState)
    requires n.conditions != []
    ensures |r.conditions| == |n.conditions|
  {
    if events == [] then n
    else After(Replay(n, wallTime, events[..|events| - 1]), wallTime, events[|events| - 1])
  }

  /** The time of the last tick; zero before the first. */
  function LastTick(events: seq<Event>): real {
    if events == [] then 0.0
    else match events[|events| - 1] case Tick(t) => t case MarkReady => LastTick(events[..|events| - 1])
  }

  /** Ticks come in order, no more than 5 + slack seconds apart, the first so soon after the start. */
  predicate OnTime(events: seq<Event>, slack: real) {
    events == [] ||
    (var before := events[..|events| - 1];
     && OnTime(before, slack)
     && match events[|events| - 1]
        case Tick(t) => LastTick(before) <= t <= LastTick(before) + 5.0 + slack
        case MarkReady => true)
  }

  lemma {:induction false} TicksStartAtZero(events: seq<Event>, slack: real)
    requires OnTime(events, slack)
    ensures LastTick(events) >= 0.0
  {
    if events != [] { TicksStartAtZero(events[..|events| - 1], slack); }
  }

  lemma {:induction false} LabelIs(n: NodeState, wallTime: int, events: seq<Event>, slack: real)
    requires Begins(n, wallTime) && wallTime >= 0 && OnTime(events, slack)
    ensures Replay(n, wallTime, events).aliveTime == Left(wallTime, LastTick(events))
    ensures Replay(n, wallTime, events).conditions[0].kind == "Ready"
  {
    if events == [] {
      assert Elapsed(0.0) == 0;
    } else {
      LabelIs(n, wallTime, events[..|events| - 1], slack);
    }
  }

  /** At every moment until the next tick is due, the label is within the wall time, and until the
      wall time is over it is no less than the true remaining time and less than 6 + slack seconds
      more. */
  lemma {:induction false} LabelTracksRemainingTime(n: NodeState, wallTime: int, events: seq<Event>, slack: real, t: real)
    requires Begins(n, wallTime) && wallTime >= 0 && OnTime(events, slack) && slack >= 0.0
    requires LastTick(events) <= t <= LastTick(events) + 5.0 + slack
    ensures 0 <= Replay(n, wallTime, events).aliveTime <= wallTime
    ensures wallTime as real - t >= 0.0 ==>
      wallTime as real - t <= Replay(n, wallTime, events).aliveTime as real < wallTime as real - t + 6.0 + slack
  {
    LabelIs(n, wallTime, events, slack);
    TicksStartAtZero(events, slack);
  }

  lemma {:induction false} TicksAscend(events: seq<Event>, more: seq<Event>, slack: real)
    requires OnTime(more, slack) && events <= more
    ensures OnTime(events, slack) && LastTick(events) <= LastTick(more)
  {
    if events != more {
      assert events <= more[..|more| - 1];
      TicksAscend(events, more[..|more| - 1], slack);
    }
  }

  /** The label never goes up. */
  lemma {:induction false} LabelNeverIncreases(n: NodeState, wallTime: int, events: seq<Event>, more: seq<Event>, slack: real)
    requires Begins(n, wallTime) && wallTime >= 0 && OnTime(more, slack) && events <= more
    ensures Replay(n, wallTime, more).aliveTime <= Replay(n, wallTime, events).aliveTime
  {
    TicksAscend(events, more, slack);
    LabelIs(n, wallTime, events, slack);
    LabelIs(n, wallTime, more, slack);
  }

  /** A tick leaves every condition alone while whole seconds are left, and otherwise marks the first one
      not ready and leaves the rest alone. */
  lemma {:induction false} TickMarksOnlyWhenOver(n: NodeState, wallTime: int, t: real)
    requires n.conditions != []
    ensures wallTime > t.Floor ==> AfterTick(n, wallTime, t).conditions == n.conditions
    ensures wallTime <= t.Floor ==>
      && AfterTick(n, wallTime, t).conditions
         == [NodeCondition(n.conditions[0].kind, false, "NodeNotReady", "Node is not ready")] + n.conditions[1..]
    ensures AfterTick(n, wallTime, t).running == n.running
  {
  }

  /** A node that was ready to begin with is ready after a tick exactly while whole seconds are left. */
  lemma {:induction false} ReadyIffTimeIsLeft(n: NodeState, wallTime: int, events: seq<Event>, slack: real)
    requires Begins(n, wallTime) && n.conditions[0].holds && wallTime >= 0 && OnTime(events, slack)
    requires events != [] && events[|events| - 1].Tick?
    ensures Replay(n, wallTime, events).conditions[0].holds <==> wallTime > LastTick(events).Floor
  {
    if wallTime > LastTick(events).Floor { StaysReady(n, wallTime, events, slack); }
  }

  lemma {:induction false} StaysReady(n: NodeState, wallTime: int, events: seq<Event>, slack: real)
    requires Begins(n, wallTime) && n.conditions[0].holds && wallTime >= 0 && OnTime(events, slack)
    requires wallTime > LastTick(events).Floor
    ensures Replay(n, wallTime, events).conditions[0].holds && Replay(n, wallTime, events).conditions[0].kind == "Ready"
  {
    if events != [] { StaysReady(n, wallTime, events[..|events| - 1], slack); }
  }

  /** Once a tick has reached zero, every later tick leaves the node not ready, whatever marked it
      ready in between. */
  lemma {:induction false} ExpiredNodeIsNotReady(n: NodeState, wallTime: int, events: seq<Event>, more: seq<Event>, slack: real)
    requires Begins(n, wallTime) && wallTime >= 0 && OnTime(more, slack) && events <= more
    requires Replay(n, wallTime, events).aliveTime == 0
    requires more != [] && more[|more| - 1].Tick?
    ensures var c := Replay(n, wallTime, more).conditions[0]; c.kind == "Ready" && !c.holds
    ensures Replay(n, wallTime, more).aliveTime == 0
  {
    TicksAscend(events, more, slack);
    TicksStartAtZero(events, slack);
    LabelIs(n, wallTime, events, slack);
    LabelIs(n, wallTime, more, slack);
  }
}
