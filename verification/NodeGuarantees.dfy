/** What Run, Err and WaitReady guarantee in every run of the node protocol. */
module NodeGuarantees {
  import opened NodeProtocol

  // ---------- The latches ----------

  /** The ready latch is closed at most once, and only after the pod controller was seen ready,
      then the node controller, and then the callback, if there is one, succeeded. */
  lemma {:induction false} ReadyComesLast(config: Config, actions: seq<Action>)
    requires Runs(config, actions)
    ensures var s := Exec(config, actions);
      && (Enabled(s, CloseReady) ==> !s.ready)
      && (s.ready ==>
          [PodSeenReady, NodeSeenReady] + (if config.callback.NoCallback? then [] else [CallbackSucceeded]) + [ReadyClosed]
          <= s.log)
  {
    RunInv(config, actions);
    var s := Exec(config, actions);
    if s.ready {
      assert Startup(config, 5)
          == [PodSeenReady, NodeSeenReady] + (if config.callback.NoCallback? then [] else [CallbackSucceeded]) + [ReadyClosed];
    }
  }

  /** The done latch is closed at most once and last: by then every started controller has
      stopped, the node controller having been awaited before the pod controller, the server and
      the broadcaster are off, and the whole record is a start-up prefix followed by the shutdown
      of exactly what was started. */
  lemma {:induction false} DoneComesLast(config: Config, actions: seq<Action>)
    requires Runs(config, actions)
    ensures var s := Exec(config, actions);
      && (Enabled(s, CloseDone) ==> !s.done)
      && (s.done ==>
          && s.log == Startup(config, s.stage) + Shutdown(config, s.stage)
          && !s.pod.Running() && !s.node.Running() && !s.serverOpen && !s.broadcasterOn
          && forall a :: Enabled(s, a) ==> Outside(a))
  {
    RunInv(config, actions);
    var s := Exec(config, actions);
    if s.done {
      assert s.log == Startup(config, s.stage) + Shutdown(config, s.stage);
      EverythingShut(config, s);
    }
  }

  lemma {:induction false} EverythingShut(config: Config, s: State)
    requires ControllersInv(s) && s.log == Startup(config, s.stage) + Shutdown(config, s.stage)
    requires s.broadcasterOn ==> config.broadcaster
    ensures !s.pod.Running() && !s.node.Running() && !s.serverOpen && !s.broadcasterOn
  {
    assert forall e :: e in Shutdown(config, s.stage) ==> e in s.log;
    assert s.stage >= 2 ==> NodeAwaited in Shutdown(config, s.stage);
    assert s.stage >= 1 ==> PodAwaited in [PodAwaited, HttpClosed] && HttpClosed in [PodAwaited, HttpClosed];
    assert s.stage >= 1 ==> PodAwaited in Shutdown(config, s.stage) && HttpClosed in Shutdown(config, s.stage);
    assert config.broadcaster ==> BroadcasterShut in Shutdown(config, s.stage);
  }

  // ---------- Errors ----------

  /** The error the accessor reports: nothing until done is closed. */
  function Err(s: State): Fault { if s.done then s.err else NoFault }

  lemma {:induction false} DoneStays(config: Config, s: State, a: Action)
    requires Inv(config, s) && s.done && Enabled(s, a)
    ensures Step(config, s, a).done && Step(config, s, a).err == s.err
    ensures Step(config, s, a).stage == s.stage && Step(config, s, a).ready == s.ready
  {
  }

  /** Once done is closed the error never changes again. */
  lemma {:induction false} ErrIsFinal(config: Config, actions: seq<Action>, more: seq<Action>)
    requires Runs(config, more) && actions <= more && Runs(config, actions) && Exec(config, actions).done
    ensures Exec(config, more).done && Err(Exec(config, more)) == Err(Exec(config, actions))
    ensures Exec(config, more).ready == Exec(config, actions).ready
  {
    if |more| == |actions| {
      assert more == actions;
    } else {
      var before := more[..|more| - 1];
      assert actions <= before;
      ErrIsFinal(config, actions, before);
      RunInv(config, before);
      DoneStays(config, Exec(config, before), more[|more| - 1]);
    }
  }

  /** The write to the error field in mid-run is never seen: while done is open the accessor
      reports nothing, and what the field then holds is what it will hold when done is closed. */
  lemma {:induction false} MidRunWriteIsHidden(config: Config, actions: seq<Action>, more: seq<Action>)
    requires Runs(config, more) && actions <= more && Runs(config, actions)
    requires Exec(config, actions).err != NoFault
    ensures Leaving(Exec(config, more)) && Exec(config, more).ret == Exec(config, actions).err
    ensures Err(Exec(config, more)) == if Exec(config, more).done then Exec(config, actions).err else NoFault
  {
    RunInv(config, more);
    if |more| == |actions| {
      assert more == actions;
    } else {
      var before := more[..|more| - 1];
      assert actions <= before;
      MidRunWriteIsHidden(config, actions, before);
      ResultStays(config, Exec(config, before), more[|more| - 1]);
    }
  }

  lemma {:induction false} ResultStays(config: Config, s: State, a: Action)
    requires Leaving(s) && Enabled(s, a)
    ensures Leaving(Step(config, s, a)) && Step(config, s, a).ret == s.ret && Step(config, s, a).exit == s.exit
    ensures Step(config, s, a).stage == s.stage
  {
  }

  /** A cancelled context gives a nil result if it is noticed while the pod controller is awaited,
      and the context's own error if it is noticed one stage later. */
  lemma {:induction false} CancelledResult(config: Config, actions: seq<Action>)
    requires Runs(config, actions) && Exec(config, actions).done && Exec(config, actions).exit.OnCancel?
    ensures var s := Exec(config, actions);
      && s.ctx != NoFault
      && (Err(s) == NoFault <==> PodSeenReady !in s.log)
      && (PodSeenReady in s.log ==> Err(s) == s.ctx)
  {
    RunInv(config, actions);
    DoneComesLast(config, actions);
    var s := Exec(config, actions);
    assert s.stage == 1 ==> Startup(config, s.stage) == [];
    assert s.stage == 2 ==> Startup(config, s.stage) == [PodSeenReady];
    if s.stage == 2 { assert s.log[0] == PodSeenReady; }
  }

  // ---------- WaitReady ----------

  datatype WaitResult = NodeReady | ExitedBeforeReady(err: Fault) | Expired(err: Fault)

  /** The results WaitReady may give when it looks at a state: any case whose channel is ready. The
      exit branch reads the error field directly. */
  predicate MayReturn(s: State, deadline: Fault, r: WaitResult) {
    match r
    case NodeReady => s.ready
    case ExitedBeforeReady(err) => s.done && err == s.err
    case Expired(err) => deadline != NoFault && err == deadline
  }

  /** WaitReady reports readiness only after the whole start-up sequence, and its exit branch only
      ever reads the final error. */
  lemma {:induction false} WaitReadyIsSound(config: Config, actions: seq<Action>, more: seq<Action>, deadline: Fault, r: WaitResult)
    requires Runs(config, actions) && Runs(config, more) && actions <= more
    requires MayReturn(Exec(config, actions), deadline, r)
    ensures r.NodeReady? ==> Startup(config, 5) <= Exec(config, actions).log
    ensures r.ExitedBeforeReady? ==> Exec(config, more).done && r.err == Err(Exec(config, more)) == Exec(config, more).ret
  {
    RunInv(config, actions);
    RunInv(config, more);
    if r.ExitedBeforeReady? { ErrIsFinal(config, actions, more); }
  }

  /** WaitReady can return from a state exactly if ready or done is closed, or its own deadline is over: the
      exit branch is open whenever done is closed, the other exactly when start-up was completed. */
  lemma {:induction false} WaitReadyReturnsIff(config: Config, actions: seq<Action>, deadline: Fault)
    requires Runs(config, actions)
    ensures var s := Exec(config, actions);
      && ((exists err :: MayReturn(s, deadline, ExitedBeforeReady(err))) <==> DoneClosed in s.log)
      && (MayReturn(s, deadline, NodeReady) <==> ReadyClosed in s.log)
      && ((exists r :: MayReturn(s, deadline, r)) <==> DoneClosed in s.log || ReadyClosed in s.log || deadline != NoFault)
  {
    RunInv(config, actions);
    var s := Exec(config, actions);
    LatchesAreLogged(config, s);
    if s.done { assert MayReturn(s, deadline, ExitedBeforeReady(s.err)); }
    if s.ready { assert MayReturn(s, deadline, NodeReady); }
    if deadline != NoFault { assert MayReturn(s, deadline, Expired(deadline)); }
  }

  lemma {:induction false} StartupRecord(config: Config, stage: nat)
    ensures DoneClosed !in Startup(config, stage)
    ensures ReadyClosed in Startup(config, stage) <==> stage >= 5
  {
    if stage >= 5 { assert Startup(config, stage)[|Startup(config, stage)| - 1] == ReadyClosed; }
  }

  lemma {:induction false} ShutdownRecord(config: Config, stage: nat)
    ensures ReadyClosed !in Shutdown(config, stage)
    ensures var record := Shutdown(config, stage);
      record != [] && record[|record| - 1] == DoneClosed && DoneClosed !in record[..|record| - 1]
  {
  }

  /** A part of a record that ends with x, and has no other x, has x only if it is the whole. */
  lemma {:induction false} OnlyTheWholeHasTheLast<T>(part: seq<T>, rest: seq<T>, some: seq<T>, more: seq<T>, x: T)
    requires part + rest == some + more && more != [] && more[|more| - 1] == x
    requires x !in some && x !in more[..|more| - 1]
    ensures x in part <==> rest == []
  {
    var whole := some + more;
    assert whole[..|whole| - 1] == some + more[..|more| - 1];
    if rest != [] {
      assert part <= whole[..|whole| - 1];
    } else {
      assert part == whole;
    }
  }

  /** A latch is closed exactly when its closing is on record. */
  lemma {:induction false} LatchesAreLogged(config: Config, s: State)
    requires Inv(config, s)
    ensures s.ready <==> ReadyClosed in s.log
    ensures s.done <==> DoneClosed in s.log
  {
    StartupRecord(config, s.stage);
    if Leaving(s) {
      ShutdownRecord(config, s.stage);
      RemainingLength(s.defers);
      OnlyTheWholeHasTheLast(s.log, Remaining(s.defers), Startup(config, s.stage), Shutdown(config, s.stage), DoneClosed);
      assert forall e :: e in s.log ==> e in s.log + Remaining(s.defers);
    }
  }

  lemma {:induction false} Extend(config: Config, actions: seq<Action>, a: Action)
    requires Runs(config, actions) && Enabled(Exec(config, actions), a)
    ensures Runs(config, actions + [a]) && Exec(config, actions + [a]) == Step(config, Exec(config, actions), a)
  {
    assert (actions + [a])[..|actions|] == actions;
  }

  /** A node that did become ready and then stopped may still be reported as having exited before
      it was ready, with its final error: the select is free to take either closed channel. */
  lemma {:induction false} ReadyNodeMayBeReportedNeverReady(config: Config, actions: seq<Action>)
    requires Runs(config, actions)
    ensures var s := Exec(config, actions);
      (exists err :: MayReturn(s, NoFault, NodeReady) && MayReturn(s, NoFault, ExitedBeforeReady(err)))
      <==> s.done && ReadyClosed in s.log
  {
    RunInv(config, actions);
    var s := Exec(config, actions);
    if s.done {
      DoneComesLast(config, actions);
      if s.ready { assert Startup(config, 5)[|Startup(config, 5)| - 1] == ReadyClosed && Startup(config, 5) <= s.log; }
      assert MayReturn(s, NoFault, ExitedBeforeReady(s.err));
    }
  }

  /** Such a state is reached whenever start-up can succeed. */
  lemma {:induction false} ReadyThenDoneIsReachable(config: Config) returns (actions: seq<Action>)
    requires !config.http.ListenFails? && !config.callback.Fails?
    ensures Runs(config, actions) && Exec(config, actions).done && Exec(config, actions).ready
  {
    actions := Start(config);
    RunInv(config, actions);
    actions := Finishes(config, actions);
  }

  /** As far as the pod controller's readiness. */
  lemma {:induction false} StartPod(config: Config) returns (actions: seq<Action>)
    requires !config.http.ListenFails?
    ensures Runs(config, actions)
    ensures Exec(config, actions).place.AwaitingNode? && Exec(config, actions).node == IDLE.(started := true)
  {
    actions := [];
    Extend(config, actions, Begin); actions := actions + [Begin];
    Extend(config, actions, StartHttp); actions := actions + [StartHttp];
    Extend(config, actions, PodReadies); actions := actions + [PodReadies];
    Extend(config, actions, SeePodReady); actions := actions + [SeePodReady];
  }

  lemma {:induction false} Start(config: Config) returns (actions: seq<Action>)
    requires !config.http.ListenFails? && !config.callback.Fails?
    ensures Runs(config, actions) && Exec(config, actions).place.Serving?
  {
    actions := StartPod(config);
    Extend(config, actions, NodeReadies); actions := actions + [NodeReadies];
    Extend(config, actions, SeeNodeReady); actions := actions + [SeeNodeReady];
    if !config.callback.NoCallback? {
      Extend(config, actions, CallBack); actions := actions + [CallBack];
    }
    Extend(config, actions, CloseReady); actions := actions + [CloseReady];
  }

  // ---------- Termination ----------

  ghost function PlaceRank(s: State): nat {
    match s.place
    case Booting => 20
    case StartingHttp => 19
    case AwaitingPod => 18
    case AwaitingNode => 17
    case CallingBack => 16
    case ClosingReady => 15
    case Serving => 14
    case Unwinding => 3 + |s.defers|
    case Finishing => 2
    case Exited => 0
  }

  ghost function Rank(s: State): nat {
    PlaceRank(s)
    + (if s.ctx == NoFault then 1 else 0)
    + ControllerRank(s.pod) + ControllerRank(s.node)
  }

  ghost function ControllerRank(c: Controller): nat { (if c.ready then 0 else 1) + (if c.stopped then 0 else 1) }

  lemma {:induction false} PlaceRankStep(config: Config, s: State, a: Action)
    requires Enabled(s, a) && !Outside(a) && !a.DeferredCancel? && |s.defers| <= 5
    requires s.place.Finishing? ==> s.defers != []
    ensures PlaceRank(Step(config, s, a)) < PlaceRank(s)
  {
  }

  lemma {:induction false} PodRankStep(config: Config, s: State, a: Action)
    requires Enabled(s, a) && !Outside(a)
    ensures ControllerRank(Step(config, s, a).pod) == ControllerRank(s.pod)
  {
  }

  lemma {:induction false} NodeRankStep(config: Config, s: State, a: Action)
    requires Enabled(s, a) && !Outside(a)
    ensures ControllerRank(Step(config, s, a).node) == ControllerRank(s.node)
  {
  }

  lemma {:induction false} CancelledStays(config: Config, s: State, a: Action)
    requires Enabled(s, a) && Step(config, s, a).ctx == NoFault
    ensures s.ctx == NoFault
  {
  }

  lemma {:induction false} FewDeferred(config: Config, s: State)
    requires Inv(config, s)
    ensures |s.defers| <= 5
  {
    if Leaving(s) {
      RemainingLength(s.defers);
      assert |s.log| >= |Startup(config, s.stage)|;
    }
  }

  lemma {:induction false} RemainingLength(defers: seq<Deferred>)
    ensures |Remaining(defers)| == |defers|
  {
    if defers != [] { RemainingLength(defers[..|defers| - 1]); }
  }

  lemma {:induction false} OutsideRankStep(config: Config, s: State, a: Action)
    requires Enabled(s, a) && (Outside(a) || a.DeferredCancel?)
    ensures Rank(Step(config, s, a)) < Rank(s)
  {
  }

  lemma {:induction false} RankStep(config: Config, s: State, a: Action)
    requires Inv(config, s) && Enabled(s, a)
    ensures Rank(Step(config, s, a)) < Rank(s)
  {
    if Outside(a) || a.DeferredCancel? {
      OutsideRankStep(config, s, a);
    } else {
      RunRankStep(config, s, a);
    }
  }

  lemma {:induction false} RunRankStep(config: Config, s: State, a: Action)
    requires Inv(config, s) && Enabled(s, a) && !Outside(a) && !a.DeferredCancel?
    ensures Rank(Step(config, s, a)) < Rank(s)
  {
    var t := Step(config, s, a);
    assert PlaceRank(t) < PlaceRank(s) by {
      FewDeferred(config, s);
      PlaceRankStep(config, s, a);
    }
    PodRankStep(config, s, a);
    NodeRankStep(config, s, a);
    if t.ctx == NoFault { CancelledStays(config, s, a); }
  }

  /** Every run is short. */
  lemma {:induction false} RunsAreFinite(config: Config, actions: seq<Action>)
    requires Runs(config, actions)
    ensures |actions| + Rank(Exec(config, actions)) <= Rank(START)
  {
    if actions != [] {
      var before := actions[..|actions| - 1];
      RunsAreFinite(config, before);
      RunInv(config, before);
      RankStep(config, Exec(config, before), actions[|actions| - 1]);
    }
  }

  /** Once the context is cancelled or Run is on its way out, and the started controllers have stopped, Run
      itself can always move on; on its way out it cancels the context itself before it waits. */
  lemma {:induction false} NothingHoldsRunBack(config: Config, actions: seq<Action>) returns (a: Action)
    requires Runs(config, actions)
    requires var s := Exec(config, actions);
      !s.done && (s.ctx != NoFault || Leaving(s)) && !s.pod.Running() && !s.node.Running()
    ensures Enabled(Exec(config, actions), a) && !Outside(a)
  {
    RunInv(config, actions);
    var s := Exec(config, actions);
    match s.place
    case Booting => a := Begin;
    case StartingHttp => a := StartHttp;
    case AwaitingPod => a := SeeCancel;
    case AwaitingNode => a := SeeCancel;
    case CallingBack => a := CallBack;
    case ClosingReady => a := CloseReady;
    case Serving => a := SeePodStopped;
    case Unwinding =>
      a := if CancelsFirst(Top(s)) && s.ctx == NoFault then DeferredCancel else if Top(s).Finish? then WriteErr else Pop;
    case Finishing => a := CloseDone;
  }

  lemma {:induction false} Finishes(config: Config, actions: seq<Action>) returns (whole: seq<Action>)
    requires Runs(config, actions) && Exec(config, actions).ready
    ensures Runs(config, whole) && Exec(config, whole).done && Exec(config, whole).ready
    decreases Rank(Exec(config, actions))
  {
    var s := Exec(config, actions);
    RunInv(config, actions);
    if s.done {
      whole := actions;
    } else {
      var a;
      if s.ctx == NoFault { a := ParentCancels(1); }
      else if s.pod.Running() { a := PodStops(NoFault); }
      else if s.node.Running() { a := NodeStops(NoFault); }
      else { a := NothingHoldsRunBack(config, actions); }
      RankStep(config, s, a);
      Extend(config, actions, a);
      StepInv(config, s, a);
      whole := Finishes(config, actions + [a]);
    }
  }

  /** If nothing at all can happen any more, Run has returned: a cancelled context, and controllers
      that stop after cancellation, always lead to a closed done latch. */
  lemma {:induction false} StuckMeansDone(config: Config, actions: seq<Action>)
    requires Runs(config, actions) && Stuck(Exec(config, actions))
    ensures Exec(config, actions).done
  {
    var s := Exec(config, actions);
    assert !Enabled(s, ParentCancels(1)) && !Enabled(s, PodStops(NoFault)) && !Enabled(s, NodeStops(NoFault));
    if !s.done { var a := NothingHoldsRunBack(config, actions); }
  }
}
