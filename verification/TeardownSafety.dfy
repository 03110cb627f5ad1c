/**
 * What the teardown protocol guarantees in every interleaving, when it strands goroutines, and
 * exactly when it cannot.
 */
module TeardownSafety {
  import opened Collections
  import opened Teardown

  // ---------- A nil result ----------

  ghost predicate GotOnlyNils(s: State) {
    |s.got| == |s.containers| && forall p :: 0 <= p < |s.got| ==> !s.got[p].error
  }

  lemma {:induction false} OnlyNils(ms: seq<Message>)
    requires forall p :: 0 <= p < |ms| ==> !ms[p].error
    ensures SumOf(NilWeight, ms) == |ms|
  {
    SumUnit(NilWeight, ms);
  }

  /** As many nils as containers: each container sent one, and none is queued. */
  lemma {:induction false} EveryNilIsIn(s: State)
    requires Fifo(s) && Counted(s) && GotOnlyNils(s)
    ensures forall c :: 0 <= c < |s.containers| ==> s.containers[c].phase == Returned(false)
    ensures SumOf(NilWeight, s.queue) == 0
  {
    OnlyNils(s.got);
    SumAppend(NilWeight, s.got, s.queue);
    SumUnit(NilSent, s.containers);
    forall c | 0 <= c < |s.containers| ensures s.containers[c].phase == Returned(false) {
      assert NilSent(s.containers[c]) == 1;
    }
  }

  /** Nothing is queued behind the nils: an error there would come before its container's nil. */
  lemma {:induction false} NilFromEveryContainer(s: State)
    requires Inv(s) && GotOnlyNils(s)
    ensures forall c :: 0 <= c < |s.containers| ==> s.containers[c].phase == Returned(false)
    ensures s.queue == [] && s.sent == s.got
  {
    EveryNilIsIn(s);
    NothingBehindNils(s);
  }

  lemma {:induction false} NothingBehindNils(s: State)
    requires Fifo(s) && NilComesLast(s) && SumOf(NilWeight, s.queue) == 0
    requires forall c :: 0 <= c < |s.containers| ==> s.containers[c].phase == Returned(false)
    ensures s.queue == []
  {
    if s.queue != [] {
      var n := |s.got|;
      SumAtLeast(NilWeight, s.queue, 0);
      assert s.sent[n] == s.queue[0] && s.sent[n].error;
      var q :| n < q < |s.sent| && s.sent[q] == Message(s.sent[n].from, false);
      assert s.sent[q] == s.queue[q - n];
      SumAtLeast(NilWeight, s.queue, q - n);
      assert false;
    }
  }

  /** Teardown returns nil only if no goroutine of any container ever sent an error; nothing is
      then left to run, so none ever will. */
  lemma {:induction false} NilMeansNoError(plans: seq<Plan>, actions: seq<Action>)
    requires ValidPlans(plans) && Runs(Start(plans), actions)
    requires Exec(Start(plans), actions).collector == ReturnedNil
    ensures var s := Exec(Start(plans), actions);
      && (forall p :: 0 <= p < |s.sent| ==> !s.sent[p].error)
      && AllReturned(s) && Stuck(s)
  {
    RunInv(plans, actions);
    var s := Exec(Start(plans), actions);
    AllGotAreNil(s);
    NilFromEveryContainer(s);
    NothingMoves(s);
  }

  lemma {:induction false} AllGotAreNil(s: State)
    requires CollectorInv(s) && s.collector == ReturnedNil
    ensures GotOnlyNils(s)
  {
  }

  lemma {:induction false} NothingMoves(s: State)
    requires AllReturned(s) && !s.collector.Collecting?
    ensures Stuck(s)
  {
  }

  /** The channel is closed, or about to be, only when every goroutine is past its last send. */
  lemma {:induction false} NeverSendsOnClosed(plans: seq<Plan>, actions: seq<Action>)
    requires ValidPlans(plans) && Runs(Start(plans), actions)
    ensures var s := Exec(Start(plans), actions);
      s.closed || Enabled(s, Close) ==> AllReturned(s)
  {
    RunInv(plans, actions);
    var s := Exec(Start(plans), actions);
    if s.closed || Enabled(s, Close) { NilFromEveryContainer(s); }
  }

  // ---------- Progress and termination ----------

  /** A container whose goroutine has not returned can move while the channel has room. */
  lemma {:induction false} CanMove(s: State, c: nat) returns (a: Action)
    requires Inv(s) && c < |s.containers| && !s.containers[c].phase.Returned? && CanSend(s)
    ensures Enabled(s, a) && Moves(a) && a.c == c
  {
    assert ValidContainer(s.containers[c]);
    match s.containers[c].phase
    case Listing => a := List(c);
    case Removing => a := Remove(c);
    case Reporting(_) => a := Report(c);
    case Waving(_, workers) =>
      if AllFinished(workers) {
        a := Join(c);
      } else {
        var k :| 0 <= k < |workers| && !workers[k].progress.Finished?;
        a := if workers[k].progress.Ready? then Begin(c, k)
             else if workers[k].progress.Calling? then SignalReturns(c, k)
             else SendError(c, k);
      }
  }

  lemma {:induction false} ErrorsAreCounted(s: State)
    requires Inv(s)
    ensures (forall p :: 0 <= p < |s.sent| ==> !s.sent[p].error)
       <==> (forall c :: 0 <= c < |s.containers| ==> ErrorsSent(s.containers[c]) == 0)
  {
    SumUnit(NilWeight, s.sent);
    SumOrder(NilSent, s.containers, MessagesSent, s.containers);
  }

  /** With fewer nils received than there are containers and nothing queued, some container
      still owes a message. */
  lemma {:induction false} SomeoneOwesAMessage(s: State) returns (c: nat)
    requires Inv(s) && s.collector.Collecting? && s.collector.count < |s.containers| && s.queue == []
    ensures c < |s.containers| && !s.containers[c].phase.Returned?
  {
    OnlyNils(s.got);
    SumUnit(NilSent, s.containers);
    ErrorsAreCounted(s);
    assert s.sent == s.got;
    c :| 0 <= c < |s.containers| && NilSent(s.containers[c]) != 1;
    assert ErrorsSent(s.containers[c]) == 0;
  }

  lemma {:induction false} SomethingMoves(s: State) returns (a: Action)
    requires Inv(s) && s.collector.Collecting?
    ensures Enabled(s, a)
  {
    if s.collector.count == |s.containers| {
      a := Close;
    } else if s.queue != [] {
      a := Receive;
    } else {
      var c := SomeoneOwesAMessage(s);
      a := CanMove(s, c);
    }
  }

  /** While it collects, the collector is never blocked for good: something can always move. */
  lemma {:induction false} CollectorNeverDeadlocks(plans: seq<Plan>, actions: seq<Action>)
    requires ValidPlans(plans) && Runs(Start(plans), actions)
    ensures var s := Exec(Start(plans), actions); s.collector.Collecting? ==> !Stuck(s)
  {
    RunInv(plans, actions);
    var s := Exec(Start(plans), actions);
    if s.collector.Collecting? { var a := SomethingMoves(s); }
  }

  ghost function WorkerRank(w: Worker): nat {
    match w.progress case Ready => 3 case Calling => 2 case Sending => 1 case Finished => 0
  }

  ghost function ContainerRank(c: Container): nat {
    match c.phase
    case Returned(_) => 0
    case Reporting(_) => 1
    case Removing => 2
    case Waving(Kill, workers) => 3 + SumOf(WorkerRank, workers)
    case Waving(Stop, workers) => 4 + 3 * |workers| + SumOf(WorkerRank, workers)
    case Listing => if c.plan.ListFails? then 2 else 5 + 6 * |c.plan.stop|
  }

  ghost function Rank(s: State): nat {
    SumOf(ContainerRank, s.containers)
    + if s.collector.Collecting? && s.collector.count <= |s.containers| then |s.containers| - s.collector.count + 1 else 0
  }

  lemma {:induction false} SpawnRank(outcomes: seq<PidOutcome>)
    ensures SumOf(WorkerRank, Spawn(outcomes)) == 3 * |outcomes|
  {
    if outcomes != [] {
      SpawnRank(outcomes[1..]);
      assert Spawn(outcomes)[1..] == Spawn(outcomes[1..]);
    }
  }

  lemma {:induction false} WorkerRankStep(s: State, a: Action)
    requires Inv(s) && Enabled(s, a) && (a.Begin? || a.SignalReturns? || a.SendError?)
    ensures ContainerRank(Step(s, a).containers[a.c]) < ContainerRank(s.containers[a.c])
  {
    var was := s.containers[a.c];
    assert ValidContainer(was) && ValidWorker(was, a.k);
    SumUpdate(WorkerRank, was.phase.workers, a.k, Step(s, a).containers[a.c].phase.workers[a.k]);
  }

  lemma {:induction false} ContainerRankStep(s: State, a: Action)
    requires Inv(s) && Enabled(s, a) && Moves(a)
    ensures ContainerRank(Step(s, a).containers[a.c]) < ContainerRank(s.containers[a.c])
  {
    if a.Begin? || a.SignalReturns? || a.SendError? {
      WorkerRankStep(s, a);
    } else {
      var was := s.containers[a.c];
      assert ValidContainer(was);
      if a.List? {
        if was.plan.Pids? { SpawnRank(was.plan.Outcomes(Stop)); }
      } else if a.Join? && was.phase.wave.Stop? {
        SpawnRank(was.plan.Outcomes(Kill));
      }
    }
  }

  lemma {:induction false} RankStep(s: State, a: Action)
    requires Inv(s) && Enabled(s, a)
    ensures Rank(Step(s, a)) < Rank(s)
  {
    if Moves(a) {
      var now := Step(s, a).containers[a.c];
      assert Step(s, a).containers == s.containers[a.c := now];
      ContainerRankStep(s, a);
      SumUpdate(ContainerRank, s.containers, a.c, now);
    }
  }

  /** No run is longer than a bound fixed by the plans, so every schedule comes to rest. */
  lemma {:induction false} RunsAreFinite(plans: seq<Plan>, actions: seq<Action>)
    requires ValidPlans(plans) && Runs(Start(plans), actions)
    ensures |actions| + Rank(Exec(Start(plans), actions)) <= Rank(Start(plans))
  {
    if actions != [] {
      var before := actions[..|actions| - 1];
      RunsAreFinite(plans, before);
      RunInv(plans, before);
      RankStep(Exec(Start(plans), before), actions[|actions| - 1]);
    }
  }

  /** Any run can be continued until nothing can move. */
  lemma {:induction false} Continue(plans: seq<Plan>, actions: seq<Action>) returns (whole: seq<Action>)
    requires ValidPlans(plans) && Runs(Start(plans), actions)
    ensures Runs(Start(plans), whole) && Stuck(Exec(Start(plans), whole)) && actions <= whole
    decreases Rank(Exec(Start(plans), actions))
  {
    var s := Exec(Start(plans), actions);
    if Stuck(s) {
      whole := actions;
    } else {
      var a: Action :| Enabled(s, a);
      RunInv(plans, actions);
      RankStep(s, a);
      assert (actions + [a])[..|actions|] == actions;
      whole := Continue(plans, actions + [a]);
    }
  }

  // ---------- The result, decided by the plans ----------

  lemma {:induction false} SentWithinPlan(c: Container)
    requires ValidContainer(c)
    ensures MessagesSent(c) <= PlannedMessages(c.plan)
    ensures MessagesSent(c) == PlannedMessages(c.plan) <==> c.phase.Returned?
    ensures ErrorsSent(c) > 0 ==> Troubled(c.plan)
    ensures c.phase.Returned? && Troubled(c.plan) ==> ErrorsSent(c) > 0
  {
    if c.phase.Waving? {
      var outcomes := c.plan.Outcomes(c.phase.wave);
      forall k | 0 <= k < |outcomes| ensures WorkerSent(c.phase.workers[k]) <= ReportWeight(outcomes[k]) {
        assert ValidWorker(c, k);
      }
      SumOrder(WorkerSent, c.phase.workers, ReportWeight, outcomes);
    }
  }

  /** When everything has come to rest the collector has returned, and it returned nil exactly
      when no goroutine of any container met an error. */
  lemma {:induction false} ResultIsDecidedByPlans(plans: seq<Plan>, actions: seq<Action>)
    requires ValidPlans(plans) && Runs(Start(plans), actions) && Stuck(Exec(Start(plans), actions))
    ensures var s := Exec(Start(plans), actions);
      && !s.collector.Collecting?
      && (s.collector == ReturnedNil <==> forall c :: 0 <= c < |plans| ==> !Troubled(plans[c]))
  {
    RunInv(plans, actions);
    CollectorNeverDeadlocks(plans, actions);
    var s := Exec(Start(plans), actions);
    ErrorsAreCounted(s);
    forall c | 0 <= c < |plans| ensures ValidContainer(s.containers[c]) && s.containers[c].plan == plans[c] {}
    forall c | 0 <= c < |plans| ensures ErrorsSent(s.containers[c]) > 0 ==> Troubled(plans[c]) {
      SentWithinPlan(s.containers[c]);
    }
    if s.collector == ReturnedNil {
      NilFromEveryContainer(s);
      forall c | 0 <= c < |plans| ensures !Troubled(plans[c]) {
        SentWithinPlan(s.containers[c]);
        assert ErrorsSent(s.containers[c]) == 0;
      }
    } else {
      var last := |s.got| - 1;
      assert s.sent[last].error;
    }
  }

  // ---------- Stranded goroutines ----------

  ghost function PlannedTotal(plans: seq<Plan>): nat { SumOf(PlannedMessages, plans) }

  /** However the goroutines are scheduled, all of them finish. */
  ghost predicate AlwaysFinishes(plans: seq<Plan>) {
    forall actions :: Runs(Start(plans), actions) && Stuck(Exec(Start(plans), actions))
      ==> AllReturned(Exec(Start(plans), actions))
  }

  lemma {:induction false} PlannedIsSent(plans: seq<Plan>, s: State)
    requires Inv(s) && |s.containers| == |plans|
    requires forall c :: 0 <= c < |plans| ==> s.containers[c].plan == plans[c]
    ensures |s.sent| <= PlannedTotal(plans)
    ensures |s.sent| == PlannedTotal(plans) <==> AllReturned(s)
  {
    forall c | 0 <= c < |plans|
      ensures MessagesSent(s.containers[c]) <= PlannedMessages(plans[c])
      ensures MessagesSent(s.containers[c]) == PlannedMessages(plans[c]) <==> s.containers[c].phase.Returned?
    {
      assert ValidContainer(s.containers[c]);
      SentWithinPlan(s.containers[c]);
    }
    SumOrder(MessagesSent, s.containers, PlannedMessages, plans);
  }

  /** A blocked sender needs n messages queued, one received, and its own. */
  lemma {:induction false} RoomAfterEarlyReturn(plans: seq<Plan>, s: State)
    requires Inv(s) && |s.containers| == |plans| && PlannedTotal(plans) <= |plans| + 1
    requires forall c :: 0 <= c < |plans| ==> s.containers[c].plan == plans[c]
    requires s.collector == ReturnedError && !AllReturned(s)
    ensures CanSend(s)
  {
    PlannedIsSent(plans, s);
    assert |s.sent| == |s.got| + |s.queue|;
  }

  /** With at most n + 1 messages in all, an early return strands nobody. */
  lemma {:induction false} FewMessagesStrandNobody(plans: seq<Plan>, actions: seq<Action>)
    requires ValidPlans(plans) && PlannedTotal(plans) <= |plans| + 1
    requires Runs(Start(plans), actions) && Stuck(Exec(Start(plans), actions))
    ensures AllReturned(Exec(Start(plans), actions))
  {
    RunInv(plans, actions);
    CollectorNeverDeadlocks(plans, actions);
    var s := Exec(Start(plans), actions);
    if s.collector == ReturnedNil {
      NilFromEveryContainer(s);
    } else if c :| 0 <= c < |plans| && !s.containers[c].phase.Returned? {
      assert s.collector == ReturnedError;
      RoomAfterEarlyReturn(plans, s);
      var a := CanMove(s, c);
    }
  }

  /** From a silent state, a goroutine's step stays silent or is the first to be heard. */
  lemma {:induction false} FirstStep(s: State, a: Action)
    requires Enabled(s, a) && Moves(a) && Fifo(s) && s.sent == [] && s.collector == Collecting(0)
    ensures var t := Step(s, a);
      && t.collector == Collecting(0) && |t.containers| == |s.containers|
      && (if a.SendError? || a.Report? then |t.sent| == |t.queue| == 1 && t.sent[0].from == a.c
          else t.sent == [] && !t.containers[a.c].phase.Returned?)
  {
  }

  /** Only container c has moved. */
  ghost predicate OthersAlike(s: State, t: State, c: nat) {
    |s.containers| == |t.containers| && forall d :: 0 <= d < |s.containers| && d != c ==> t.containers[d] == s.containers[d]
  }

  lemma {:induction false} OnlyItsContainer(s: State, a: Action)
    requires Inv(s) && Enabled(s, a) && Moves(a)
    ensures OthersAlike(s, Step(s, a), a.c)
  {
    StepShape(s, a);
  }

  lemma {:induction false} AlikeThrough(s: State, t: State, u: State, c: nat)
    requires OthersAlike(s, t, c) && OthersAlike(t, u, c)
    ensures OthersAlike(s, u, c)
  {
  }

  /** Runs only container c, from a silent state, until it sends its first message. */
  lemma {:induction false} DriveToFirstSend(plans: seq<Plan>, actions: seq<Action>, c: nat) returns (longer: seq<Action>)
    requires ValidPlans(plans) && Runs(Start(plans), actions)
    requires var s := Exec(Start(plans), actions);
      c < |s.containers| && s.sent == [] && s.collector == Collecting(0) && !s.containers[c].phase.Returned?
    ensures Runs(Start(plans), longer)
    ensures var s := Exec(Start(plans), longer);
      && |s.sent| == |s.queue| == 1 && s.sent[0].from == c && s.collector == Collecting(0)
      && OthersAlike(Exec(Start(plans), actions), s, c)
    decreases Rank(Exec(Start(plans), actions))
  {
    RunInv(plans, actions);
    var s := Exec(Start(plans), actions);
    var a := CanMove(s, c);
    longer := actions + [a];
    assert longer[..|actions|] == actions;
    FirstStep(s, a);
    OnlyItsContainer(s, a);
    if !a.SendError? && !a.Report? {
      RankStep(s, a);
      var last := DriveToFirstSend(plans, longer, c);
      AlikeThrough(s, Exec(Start(plans), longer), Exec(Start(plans), last), c);
      longer := last;
    }
  }

  /** A container in trouble can be the first to be heard, and what is heard is an error. */
  lemma {:induction false} ErrorFirst(plans: seq<Plan>, c: nat) returns (actions: seq<Action>)
    requires ValidPlans(plans) && c < |plans| && Troubled(plans[c])
    ensures Runs(Start(plans), actions)
    ensures var s := Exec(Start(plans), actions);
      && s.collector == ReturnedError && |s.got| == |s.sent| == 1
      && OthersAlike(Start(plans), s, c)
  {
    actions := DriveToFirstSend(plans, [], c);
    var s := Exec(Start(plans), actions);
    RunInv(plans, actions);
    if !s.sent[0].error {
      ErrorsAreCounted(s);
      SentWithinPlan(s.containers[c]);
      assert false;
    }
    assert (actions + [Receive])[..|actions|] == actions;
    actions := actions + [Receive];
  }

  lemma {:induction false} ErrorStays(s: State, a: Action)
    requires s.collector == ReturnedError
    ensures Step(s, a).collector == ReturnedError && Step(s, a).got == s.got
  {
  }

  /** Once the collector has returned an error it receives nothing more. */
  lemma {:induction false} ErrorIsFinal(plans: seq<Plan>, actions: seq<Action>, more: seq<Action>)
    requires Runs(Start(plans), more) && actions <= more
    requires Exec(Start(plans), actions).collector == ReturnedError
    ensures Exec(Start(plans), more).collector == ReturnedError
    ensures Exec(Start(plans), more).got == Exec(Start(plans), actions).got
  {
    if |more| > |actions| {
      assert actions <= more[..|more| - 1];
      ErrorIsFinal(plans, actions, more[..|more| - 1]);
      ErrorStays(Exec(Start(plans), more[..|more| - 1]), more[|more| - 1]);
    } else {
      assert more == actions;
    }
  }

  /** With n + 2 or more messages planned, some schedule strands a goroutine for good. */
  lemma {:induction false} ManyMessagesStrandSomeone(plans: seq<Plan>) returns (actions: seq<Action>)
    requires ValidPlans(plans) && PlannedTotal(plans) > |plans| + 1
    ensures Runs(Start(plans), actions) && Stuck(Exec(Start(plans), actions))
    ensures !AllReturned(Exec(Start(plans), actions))
  {
    var c := TroubledContainer(plans);
    var early := ErrorFirst(plans, c);
    actions := Continue(plans, early);
    ErrorIsFinal(plans, early, actions);
    RunInv(plans, actions);
    PlannedIsSent(plans, Exec(Start(plans), actions));
  }

  lemma {:induction false} TroubledContainer(plans: seq<Plan>) returns (c: nat)
    requires PlannedTotal(plans) > |plans|
    ensures c < |plans| && Troubled(plans[c])
  {
    if forall i :: 0 <= i < |plans| ==> PlannedMessages(plans[i]) <= 1 {
      SumUnit(PlannedMessages, plans);
      assert false;
    }
    c :| 0 <= c < |plans| && PlannedMessages(plans[c]) > 1;
  }

  /** Goroutines finish in every schedule exactly when at most n + 1 messages are planned: one
      per container, and one per failing per-pid goroutine. */
  lemma {:induction false} FinishesIffFewMessages(plans: seq<Plan>)
    requires ValidPlans(plans)
    ensures AlwaysFinishes(plans) <==> PlannedTotal(plans) <= |plans| + 1
  {
    if PlannedTotal(plans) <= |plans| + 1 {
      forall actions | Runs(Start(plans), actions) && Stuck(Exec(Start(plans), actions))
        ensures AllReturned(Exec(Start(plans), actions))
      {
        FewMessagesStrandNobody(plans, actions);
      }
    } else {
      var actions := ManyMessagesStrandSomeone(plans);
    }
  }
}
