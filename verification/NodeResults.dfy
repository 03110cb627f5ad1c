/** What the node protocol's record stands for in the world, and where Run's result comes from. */
module NodeResults {
  import opened NodeProtocol
  import opened NodeGuarantees

  // ---------- Milestones ----------

  /** No stage is reached without what it waits for. */
  ghost predicate Milestones(config: Config, s: State) {
    && (s.stage >= 1 ==> !config.http.ListenFails?)
    && (s.stage >= 2 ==> s.pod.ready)
    && (s.stage >= 3 ==> s.node.ready)
    && (s.stage >= 4 ==> !config.callback.Fails?)
  }

  lemma {:induction false} MilestonesStep(config: Config, s: State, a: Action)
    requires StageOfPlace(config, s) && Milestones(config, s) && Enabled(s, a)
    ensures Milestones(config, Step(config, s, a))
  {
    PodStaysReady(config, s, a);
    NodeStaysReady(config, s, a);
    if Step(config, s, a).stage != s.stage { NewStage(config, s, a); }
  }

  lemma {:induction false} PodStaysReady(config: Config, s: State, a: Action)
    requires Enabled(s, a)
    ensures s.pod.ready ==> Step(config, s, a).pod.ready
  {
  }

  lemma {:induction false} NodeStaysReady(config: Config, s: State, a: Action)
    requires Enabled(s, a)
    ensures s.node.ready ==> Step(config, s, a).node.ready
  {
  }

  /** A further stage is reached by what it waits for. */
  lemma {:induction false} NewStage(config: Config, s: State, a: Action)
    requires StageOfPlace(config, s) && Enabled(s, a) && Step(config, s, a).stage != s.stage
    ensures var stage := Step(config, s, a).stage;
      || (stage == 1 && !config.http.ListenFails?)
      || (stage == 2 && s.stage == 1 && s.pod.ready)
      || (stage == 3 && s.stage == 2 && s.node.ready)
      || (stage == 4 && s.stage == 2 && s.node.ready && config.callback.NoCallback?)
      || (stage == 4 && s.stage == 3 && !config.callback.Fails?)
      || (stage == 5 && s.stage == 4)
  {
  }

  lemma {:induction false} MilestonesHold(config: Config, actions: seq<Action>)
    requires Runs(config, actions)
    ensures Milestones(config, Exec(config, actions))
  {
    if actions != [] {
      var before := actions[..|actions| - 1];
      MilestonesHold(config, before);
      RunInv(config, before);
      MilestonesStep(config, Exec(config, before), actions[|actions| - 1]);
    }
  }

  /** At every moment: the pod controller was started only after the listener was set up, the node controller
      only after the pod controller had become ready, and ready was closed only after both had and the callback,
      if any, had succeeded. */
  lemma {:induction false} NothingStartsEarly(config: Config, actions: seq<Action>)
    requires Runs(config, actions)
    ensures var s := Exec(config, actions);
      && (s.pod.started ==> !config.http.ListenFails?)
      && (s.node.started ==> s.pod.started && s.pod.ready)
      && (s.ready ==> s.pod.ready && s.node.ready && !config.callback.Fails?)
  {
    RunInv(config, actions);
    MilestonesHold(config, actions);
  }

  // ---------- Shutting down ----------

  /** Run waits for a controller only with the context cancelled. */
  ghost predicate CancelledFirst(s: State) {
    NodeAwaited in s.log || PodAwaited in s.log || DoneClosed in s.log ==> s.ctx != NoFault
  }

  lemma {:induction false} CancelledFirstStep(config: Config, s: State, a: Action)
    requires CancelledFirst(s) && Enabled(s, a)
    requires s.place.Finishing? ==> s.ctx != NoFault
    ensures CancelledFirst(Step(config, s, a))
  {
    var t := Step(config, s, a);
    if t.ctx == NoFault { CancelledStays(config, s, a); }
    if a.Pop? || a.CloseDone? {
      if s.defers != [] { assert t.log == s.log + [EventOf(Top(s))] || t.log == s.log; }
    } else {
      OnlyPopsRecordShutdown(config, s, a);
    }
  }

  lemma {:induction false} OnlyPopsRecordShutdown(config: Config, s: State, a: Action)
    requires Enabled(s, a) && !a.Pop? && !a.CloseDone?
    ensures forall e :: e in Step(config, s, a).log ==>
      e in s.log || e.PodSeenReady? || e.NodeSeenReady? || e.CallbackSucceeded? || e.ReadyClosed?
  {
  }

  lemma {:induction false} CancelsFirstAlways(config: Config, actions: seq<Action>)
    requires Runs(config, actions)
    ensures CancelledFirst(Exec(config, actions))
  {
    if actions != [] {
      var before := actions[..|actions| - 1];
      CancelsFirstAlways(config, before);
      RunInv(config, before);
      CancelledFirstStep(config, Exec(config, before), actions[|actions| - 1]);
    }
  }

  /** Of two events that follow each other in a record, a part that has the later has the earlier. */
  lemma {:induction false} EarlierIsThere<T>(part: seq<T>, whole: seq<T>, n: nat)
    requires part <= whole && n + 1 < |whole| && whole[n + 1] in part
    requires forall i :: 0 <= i < |whole| && i != n + 1 ==> whole[i] != whole[n + 1]
    ensures whole[n] in part
  {
    var i :| 0 <= i < |part| && part[i] == whole[n + 1];
    assert part[i] == whole[i];
    assert part[n] == whole[n];
  }

  lemma {:induction false} NodeBeforePod(config: Config, s: State)
    requires Inv(config, s) && s.stage >= 2 && PodAwaited in s.log
    ensures NodeAwaited in s.log
  {
    var start := Startup(config, s.stage);
    assert PodAwaited !in start;
    assert Leaving(s);
    var whole := start + Shutdown(config, s.stage);
    assert whole[|start|] == NodeAwaited && whole[|start| + 1] == PodAwaited;
    assert s.log <= whole;
    forall i | 0 <= i < |whole| && i != |start| + 1 ensures whole[i] != PodAwaited {
      if i >= |start| { assert whole[i] == Shutdown(config, s.stage)[i - |start|]; }
    }
    EarlierIsThere(s.log, whole, |start|);
  }

  /** At every moment: a controller that has been awaited has stopped, and was awaited with the context
      cancelled, the pod controller only with the node controller stopped too; a server or broadcaster that
      was shut is off. */
  lemma {:induction false} ShutInOrder(config: Config, actions: seq<Action>)
    requires Runs(config, actions)
    ensures var s := Exec(config, actions);
      && (NodeAwaited in s.log ==> s.node.stopped && s.ctx != NoFault)
      && (PodAwaited in s.log ==> s.pod.stopped && s.ctx != NoFault && !s.node.Running())
      && (HttpClosed in s.log ==> !s.serverOpen)
      && (BroadcasterShut in s.log ==> !s.broadcasterOn)
  {
    RunInv(config, actions);
    CancelsFirstAlways(config, actions);
    var s := Exec(config, actions);
    if PodAwaited in s.log && s.stage >= 2 { NodeBeforePod(config, s); }
  }

  // ---------- The result ----------

  /** Step j is the one with which Run leaves its start-up sequence or its final wait. */
  ghost predicate LeavesAt(config: Config, actions: seq<Action>, j: nat) {
    j < |actions| && !Leaving(Exec(config, actions[..j])) && Leaving(Step(config, Exec(config, actions[..j]), actions[j]))
  }

  lemma {:induction false} ExitTells(config: Config, s: State, a: Action)
    requires Enabled(s, a) && !Leaving(s) && Leaving(Step(config, s, a))
    ensures var exit := Step(config, s, a).exit;
      match a
      case StartHttp => exit.OnListenError?
      case SeeCancel => exit.OnCancel?
      case SeePodStopped => exit.OnPodStopped?
      case SeeNodeStopped => exit.OnNodeStopped?
      case CallBack => exit.OnCallbackError?
      case _ => false
    ensures a.SeeCancel? ==> (Step(config, s, a).stage == 1 <==> s.stage == 1)
  {
  }

  lemma {:induction false} HowItLeft(config: Config, actions: seq<Action>) returns (j: nat)
    requires Runs(config, actions) && Leaving(Exec(config, actions))
    ensures LeavesAt(config, actions, j) && Runs(config, actions[..j]) && Enabled(Exec(config, actions[..j]), actions[j])
    ensures var left := Step(config, Exec(config, actions[..j]), actions[j]);
      Exec(config, actions).exit == left.exit && Exec(config, actions).stage == left.stage
  {
    var last := |actions| - 1;
    if Leaving(Exec(config, actions[..last])) {
      j := HowItLeft(config, actions[..last]);
      assert actions[..last][..j] == actions[..j];
      ResultStays(config, Exec(config, actions[..last]), actions[last]);
    } else {
      j := last;
    }
  }

  /** The error Run ends with is that of the step it left by: the listener's, none or the context's for a
      cancellation by whether the pod controller was still awaited, that of the controller seen stopped, or the callback's. */
  lemma {:induction false} ResultComesFrom(config: Config, actions: seq<Action>) returns (j: nat)
    requires Runs(config, actions) && Exec(config, actions).done
    ensures LeavesAt(config, actions, j)
    ensures var s := Exec(config, actions);
      match actions[j]
      case StartHttp => config.http.ListenFails? && Err(s) == config.http.fault
      case SeeCancel => Err(s) == if Exec(config, actions[..j]).place.AwaitingPod? then NoFault else s.ctx
      case SeePodStopped => s.pod.stopped && Err(s) == s.pod.err
      case SeeNodeStopped => s.node.stopped && Err(s) == s.node.err
      case CallBack => config.callback.Fails? && Err(s) == config.callback.fault
      case _ => false
  {
    RunInv(config, actions);
    j := HowItLeft(config, actions);
    RunInv(config, actions[..j]);
    ExitTells(config, Exec(config, actions[..j]), actions[j]);
  }
}
