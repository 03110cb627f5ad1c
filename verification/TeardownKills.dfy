/**
 * Whether teardown kills what it has stopped: exactly when every SIGKILL of a container is
 * attempted in every schedule, and exactly when one can be attempted at all.
 */
module TeardownKills {
  import opened Collections
  import opened Teardown
  import opened TeardownSafety
  import opened TeardownSignals

  /** The messages due before the container's last SIGSTOP goroutine need be heard: all but those
      of its own SIGKILL wave and its report. */
  ghost function DueBeforeKill(plans: seq<Plan>, c: nat): int
    requires c < |plans|
  {
    PlannedTotal(plans) - WaveErrors(plans[c], Kill) - 1
  }

  /** No SIGSTOP of the container goes wrong, or the channel and the collector's one error have
      room for everything that may come before its SIGKILL wave. */
  ghost predicate KillIsCertain(plans: seq<Plan>, c: nat)
    requires c < |plans|
  {
    WaveErrors(plans[c], Stop) == 0 || DueBeforeKill(plans, c) <= |plans| + 1
  }

  ghost predicate PlansOf(plans: seq<Plan>, s: State) {
    |s.containers| == |plans| && forall c :: 0 <= c < |plans| ==> s.containers[c].plan == plans[c]
  }

  /** Every SIGKILL the container's goroutines are to attempt has been attempted. */
  ghost predicate AllKilled(plan: Plan, s: State, c: nat)
    requires plan.Pids?
  {
    forall k :: 0 <= k < |plan.kill| && plan.kill[k].Matches(plan.group) ==> Signal(c, Kill, k, false) in s.trace
  }

  ghost predicate AlwaysKills(plans: seq<Plan>, c: nat)
    requires c < |plans| && plans[c].Pids?
  {
    forall actions :: Runs(Start(plans), actions) && Stuck(Exec(Start(plans), actions))
      ==> AllKilled(plans[c], Exec(Start(plans), actions), c)
  }

  // ---------- Past the SIGSTOP wave ----------

  lemma {:induction false} PastStopHasSent(c: Container)
    requires ValidContainer(c) && PastStop(c)
    ensures MessagesSent(c) >= WaveErrors(c.plan, Stop)
  {
  }

  /** While one of the wave's goroutines has its error still to send, the wave's errors are not all sent. */
  lemma {:induction false} UnsentError(c: Container, k: nat)
    requires ValidContainer(c) && c.phase.Waving? && c.phase.wave.Stop? && k < |c.phase.workers|
    requires c.phase.workers[k].progress.Sending?
    ensures MessagesSent(c) < WaveErrors(c.plan, Stop)
  {
    var outcomes := c.plan.Outcomes(Stop);
    forall i | 0 <= i < |outcomes| ensures WorkerSent(c.phase.workers[i]) <= ReportWeight(outcomes[i]) {
      assert ValidWorker(c, i);
    }
    assert ValidWorker(c, k);
    SumOrder(WorkerSent, c.phase.workers, ReportWeight, outcomes);
  }

  /** What has been sent, when one container has sent no more than part of its plan. */
  lemma {:induction false} SentAtMost(plans: seq<Plan>, s: State, c: nat)
    requires Inv(s) && PlansOf(plans, s) && c < |plans|
    ensures |s.sent| + PlannedMessages(plans[c]) <= PlannedTotal(plans) + MessagesSent(s.containers[c])
  {
    forall d | 0 <= d < |plans| ensures MessagesSent(s.containers[d]) <= PlannedMessages(plans[d]) {
      assert ValidContainer(s.containers[d]);
      SentWithinPlan(s.containers[d]);
    }
    SumOrderBut(MessagesSent, s.containers, PlannedMessages, plans, c);
  }

  /** And when all the others have returned, exactly so much. */
  lemma {:induction false} SentAtLeast(plans: seq<Plan>, s: State, c: nat)
    requires Inv(s) && PlansOf(plans, s) && c < |plans|
    requires forall d :: 0 <= d < |plans| && d != c ==> s.containers[d].phase.Returned?
    ensures |s.sent| + PlannedMessages(plans[c]) >= PlannedTotal(plans) + MessagesSent(s.containers[c])
  {
    forall d | 0 <= d < |plans| && d != c ensures MessagesSent(s.containers[d]) >= PlannedMessages(plans[d]) {
      assert ValidContainer(s.containers[d]);
      SentWithinPlan(s.containers[d]);
    }
    SumOrderBut(PlannedMessages, plans, MessagesSent, s.containers, c);
  }

  // ---------- When every SIGKILL is attempted ----------

  /** A container that can no longer move but has not finished its SIGSTOP wave waits to send. */
  lemma {:induction false} StuckInStop(s: State, c: nat) returns (k: nat)
    requires Inv(s) && Stuck(s) && c < |s.containers| && s.containers[c].plan.Pids? && !PastStop(s.containers[c])
    ensures WorkerIs(s, c, k, Sending) && s.containers[c].phase.wave.Stop? && !CanSend(s)
  {
    var container := s.containers[c];
    assert ValidContainer(container);
    assert !Enabled(s, List(c)) && !Enabled(s, Join(c));
    k :| 0 <= k < |container.phase.workers| && !container.phase.workers[k].progress.Finished?;
    assert !Enabled(s, Begin(c, k)) && !Enabled(s, SignalReturns(c, k)) && !Enabled(s, SendError(c, k));
  }

  lemma {:induction false} StuckIsPastStop(plans: seq<Plan>, s: State, c: nat)
    requires Inv(s) && Stuck(s) && PlansOf(plans, s) && c < |plans| && plans[c].Pids? && KillIsCertain(plans, c)
    requires !s.collector.Collecting?
    ensures PastStop(s.containers[c])
  {
    if !PastStop(s.containers[c]) {
      var k := StuckInStop(s, c);
      assert ValidContainer(s.containers[c]);
      UnsentError(s.containers[c], k);
      if s.collector == ReturnedNil {
        NilFromEveryContainer(s);
      } else {
        assert |s.sent| == |s.got| + |s.queue|;
        SentAtMost(plans, s, c);
      }
    }
  }

  /** If the kill is certain, every SIGKILL of the container has been attempted when all has come
      to rest, whatever the schedule, early return or not. */
  lemma {:induction false} KillWaveCompletes(plans: seq<Plan>, actions: seq<Action>, c: nat, k: nat)
    requires ValidPlans(plans) && c < |plans| && KillIsCertain(plans, c)
    requires Runs(Start(plans), actions) && Stuck(Exec(Start(plans), actions))
    requires plans[c].Pids? && k < |plans[c].kill| && plans[c].kill[k].Matches(plans[c].group)
    ensures Signal(c, Kill, k, false) in Exec(Start(plans), actions).trace
  {
    RunInv(plans, actions);
    RunTrace(plans, actions);
    CollectorNeverDeadlocks(plans, actions);
    var s := Exec(Start(plans), actions);
    StuckIsPastStop(plans, s, c);
    assert plans[c].Valid() && ValidContainer(s.containers[c]);
    FaresAs(plans[c].kill[k], plans[c].group);
    assert !Enabled(s, Begin(c, k));
    assert Made(s, c, Kill, k);
  }

  // ---------- A schedule that leaves the container stopped ----------

  /** Container c has a SIGSTOP error still to send. */
  ghost predicate Withheld(plans: seq<Plan>, s: State, c: nat) {
    c < |plans| == |s.containers| && MessagesSent(s.containers[c]) < WaveErrors(plans[c], Stop)
  }

  /** The last error is never needed to fill the channel. */
  lemma {:induction false} LastErrorNotNeeded(plans: seq<Plan>, s: State, c: nat)
    requires Inv(s) && PlansOf(plans, s) && Withheld(plans, s, c)
    requires DueBeforeKill(plans, c) > |plans| + 1 && |s.got| == 1 && |s.queue| < |plans|
    requires forall d :: 0 <= d < |plans| && d != c ==> s.containers[d].phase.Returned?
    ensures MessagesSent(s.containers[c]) + 1 < WaveErrors(plans[c], Stop)
  {
    SentAtLeast(plans, s, c);
    assert |s.sent| == |s.got| + |s.queue|;
  }

  lemma {:induction false} WithheldStep(plans: seq<Plan>, s: State, a: Action, c: nat)
    requires Inv(s) && Withheld(plans, s, c) && Enabled(s, a) && Moves(a)
    requires a.c == c ==> MessagesSent(s.containers[c]) + 1 < WaveErrors(plans[c], Stop)
    ensures Withheld(plans, Step(s, a), c)
  {
    StepShape(s, a);
    if a.c == c { SentByStep(s, a); }
  }

  /** The container to move next: another one while there is one, and otherwise c itself. */
  lemma {:induction false} NextToMove(plans: seq<Plan>, s: State, c: nat) returns (d: nat)
    requires Inv(s) && PlansOf(plans, s) && Withheld(plans, s, c)
    requires DueBeforeKill(plans, c) > |plans| + 1 && |s.got| == 1 && |s.queue| < |plans|
    ensures d < |plans| && !s.containers[d].phase.Returned?
    ensures d == c ==> MessagesSent(s.containers[c]) + 1 < WaveErrors(plans[c], Stop)
  {
    if other :| 0 <= other < |plans| && other != c && !s.containers[other].phase.Returned? {
      d := other;
    } else {
      d := c;
      LastErrorNotNeeded(plans, s, c);
    }
  }

  /** After an early return, the channel is filled without c's last SIGSTOP error. */
  lemma {:induction false} FillChannel(plans: seq<Plan>, actions: seq<Action>, c: nat) returns (longer: seq<Action>)
    requires ValidPlans(plans) && Runs(Start(plans), actions) && c < |plans| && DueBeforeKill(plans, c) > |plans| + 1
    requires var s := Exec(Start(plans), actions); s.collector == ReturnedError && |s.got| == 1 && Withheld(plans, s, c)
    ensures Runs(Start(plans), longer)
    ensures var s := Exec(Start(plans), longer);
      s.collector == ReturnedError && |s.queue| == |plans| && Withheld(plans, s, c)
    decreases Rank(Exec(Start(plans), actions))
  {
    RunInv(plans, actions);
    var s := Exec(Start(plans), actions);
    longer := actions;
    if |s.queue| < |plans| {
      var d := NextToMove(plans, s, c);
      var a := CanMove(s, d);
      WithheldStep(plans, s, a, c);
      ErrorStays(s, a);
      RankStep(s, a);
      assert (actions + [a])[..|actions|] == actions;
      longer := FillChannel(plans, actions + [a], c);
    }
  }

  /** A full channel that nobody reads stays as it is, and nobody sends again. */
  lemma {:induction false} FullStep(plans: seq<Plan>, s: State, a: Action, c: nat)
    requires Inv(s) && Withheld(plans, s, c) && Enabled(s, a)
    requires s.collector == ReturnedError && |s.queue| == |plans|
    ensures var t := Step(s, a); t.collector == ReturnedError && t.queue == s.queue && Withheld(plans, t, c)
  {
    assert Moves(a) && Step(s, a).sent == s.sent;
    StepShape(s, a);
    if a.c == c { SentByStep(s, a); }
  }

  lemma {:induction false} FullForever(plans: seq<Plan>, actions: seq<Action>, more: seq<Action>, c: nat)
    requires ValidPlans(plans) && Runs(Start(plans), more) && actions <= more
    requires var s := Exec(Start(plans), actions);
      s.collector == ReturnedError && |s.queue| == |plans| && Withheld(plans, s, c)
    ensures var s := Exec(Start(plans), more);
      s.collector == ReturnedError && |s.queue| == |plans| && Withheld(plans, s, c)
  {
    if |more| > |actions| {
      var before := more[..|more| - 1];
      assert actions <= before;
      FullForever(plans, actions, before, c);
      RunInv(plans, before);
      FullStep(plans, Exec(Start(plans), before), more[|more| - 1], c);
    } else {
      assert more == actions;
    }
  }

  /** If c has one SIGSTOP error only, some other container has one to be heard first. */
  lemma {:induction false} TroubleElsewhere(plans: seq<Plan>, c: nat) returns (d: nat)
    requires c < |plans| && WaveErrors(plans[c], Stop) == 1 && DueBeforeKill(plans, c) > |plans| + 1
    ensures d < |plans| && d != c && Troubled(plans[d])
  {
    var rest := plans[c := ListFails];
    SumUpdate(PlannedMessages, plans, c, ListFails);
    assert PlannedMessages(ListFails) == 1;
    if forall i :: 0 <= i < |rest| ==> PlannedMessages(rest[i]) <= 1 {
      SumUnit(PlannedMessages, rest);
      assert false;
    }
    d :| 0 <= d < |rest| && PlannedMessages(rest[d]) > 1;
  }

  /** An error is heard first, and c has still one to send. */
  lemma {:induction false} FirstHeard(plans: seq<Plan>, c: nat) returns (actions: seq<Action>)
    requires ValidPlans(plans) && c < |plans| && !KillIsCertain(plans, c)
    ensures Runs(Start(plans), actions)
    ensures var s := Exec(Start(plans), actions); s.collector == ReturnedError && |s.got| == 1 && Withheld(plans, s, c)
  {
    if WaveErrors(plans[c], Stop) > 1 {
      actions := ErrorFirst(plans, c);
      RunInv(plans, actions);
      SumAtLeast(MessagesSent, Exec(Start(plans), actions).containers, c);
    } else {
      var d := TroubleElsewhere(plans, c);
      actions := ErrorFirst(plans, d);
      RunInv(plans, actions);
      assert Exec(Start(plans), actions).containers[c] == Start(plans).containers[c];
    }
  }

  /** Otherwise some schedule comes to rest with the container stopped and no SIGKILL attempted. */
  lemma {:induction false} KillWaveMayNeverStart(plans: seq<Plan>, c: nat) returns (actions: seq<Action>)
    requires ValidPlans(plans) && c < |plans| && !KillIsCertain(plans, c)
    ensures Runs(Start(plans), actions) && Stuck(Exec(Start(plans), actions))
    ensures forall e :: e in Exec(Start(plans), actions).trace && e.from == c ==> e.wave.Stop?
  {
    var early := FirstHeard(plans, c);
    var full := FillChannel(plans, early, c);
    actions := Continue(plans, full);
    FullForever(plans, full, actions, c);
    RunInv(plans, actions);
    RunTrace(plans, actions);
    var s := Exec(Start(plans), actions);
    assert ValidContainer(s.containers[c]);
    forall e | e in s.trace && e.from == c ensures e.wave.Stop? {
      assert Justified(s, e);
      if PastStop(s.containers[c]) { PastStopHasSent(s.containers[c]); }
    }
  }

  /** Every SIGKILL of a container that has any to attempt is attempted, in every schedule, exactly
      when none of its SIGSTOPs goes wrong or at most n + 1 messages are due before its SIGKILL wave. */
  lemma {:induction false} KillWaveCompletesIff(plans: seq<Plan>, c: nat, k: nat)
    requires ValidPlans(plans) && c < |plans| && plans[c].Pids?
    requires k < |plans[c].kill| && plans[c].kill[k].Matches(plans[c].group)
    ensures AlwaysKills(plans, c) <==>
      (WaveErrors(plans[c], Stop) == 0 || PlannedTotal(plans) - WaveErrors(plans[c], Kill) - 1 <= |plans| + 1)
  {
    if KillIsCertain(plans, c) {
      forall actions, j | Runs(Start(plans), actions) && Stuck(Exec(Start(plans), actions))
        && 0 <= j < |plans[c].kill| && plans[c].kill[j].Matches(plans[c].group)
        ensures Signal(c, Kill, j, false) in Exec(Start(plans), actions).trace
      {
        KillWaveCompletes(plans, actions, c, j);
      }
    } else {
      var actions := KillWaveMayNeverStart(plans, c);
      assert Signal(c, Kill, k, false) !in Exec(Start(plans), actions).trace;
    }
  }

  // ---------- When a SIGKILL can be attempted at all ----------

  /** The collector takes one error at most and the channel holds n. */
  lemma {:induction false} ErrorsHeardOrQueued(s: State)
    requires Inv(s)
    ensures |s.sent| - SumOf(NilWeight, s.sent) <= |s.containers| + 1
  {
    if s.got == [] {
      assert s.sent == s.queue;
    } else {
      var last := |s.got| - 1;
      var nils := s.got[..last];
      assert s.sent == nils + ([s.got[last]] + s.queue);
      SumUnit(NilWeight, nils);
      SumAppend(NilWeight, nils, [s.got[last]] + s.queue);
    }
  }

  /** A container more than n + 1 of whose SIGSTOP goroutines fail is never sent a SIGKILL, in any run. */
  lemma {:induction false} KillNeverStarts(plans: seq<Plan>, actions: seq<Action>, c: nat, e: Signal)
    requires ValidPlans(plans) && Runs(Start(plans), actions)
    requires c < |plans| && WaveErrors(plans[c], Stop) > |plans| + 1
    requires e in Exec(Start(plans), actions).trace && e.from == c
    ensures e.wave.Stop?
  {
    RunInv(plans, actions);
    RunTrace(plans, actions);
    var s := Exec(Start(plans), actions);
    assert Justified(s, e);
    if PastStop(s.containers[c]) {
      ErrorsHeardOrQueued(s);
      SumOrderBut(NilSent, s.containers, MessagesSent, s.containers, c);
    }
  }

  /** A container that has not finished its SIGSTOP wave can move if the channel has room or its
      errors are all sent. */
  lemma {:induction false} CanMoveInStop(s: State, c: nat) returns (a: Action)
    requires Inv(s) && c < |s.containers| && s.containers[c].plan.Pids? && !PastStop(s.containers[c])
    requires CanSend(s) || MessagesSent(s.containers[c]) >= WaveErrors(s.containers[c].plan, Stop)
    ensures Enabled(s, a) && Moves(a) && a.c == c && !a.Report?
  {
    var container := s.containers[c];
    assert ValidContainer(container);
    if container.phase.Listing? {
      a := List(c);
    } else if AllFinished(container.phase.workers) {
      a := Join(c);
    } else {
      var k :| 0 <= k < |container.phase.workers| && !container.phase.workers[k].progress.Finished?;
      if container.phase.workers[k].progress.Sending? { UnsentError(container, k); }
      a := if container.phase.workers[k].progress.Ready? then Begin(c, k)
           else if container.phase.workers[k].progress.Calling? then SignalReturns(c, k)
           else SendError(c, k);
    }
  }

  /** Only container c has sent anything, errors only, and one of them at most has been received. */
  ghost predicate Alone(plans: seq<Plan>, s: State, c: nat) {
    && c < |plans| && PlansOf(plans, s)
    && |s.sent| == MessagesSent(s.containers[c]) && (forall p :: 0 <= p < |s.sent| ==> s.sent[p].error)
    && (s.collector == Collecting(0) || (s.collector == ReturnedError && |s.got| == 1))
  }

  lemma {:induction false} AloneStep(plans: seq<Plan>, s: State, a: Action, c: nat)
    requires Inv(s) && Alone(plans, s, c) && Enabled(s, a) && Moves(a) && a.c == c && !a.Report?
    ensures Alone(plans, Step(s, a), c)
  {
    StepShape(s, a);
    SentByStep(s, a);
  }

  lemma {:induction false} AloneReceives(plans: seq<Plan>, s: State, c: nat)
    requires Inv(s) && Alone(plans, s, c) && Enabled(s, Receive)
    ensures Alone(plans, Step(s, Receive), c) && Step(s, Receive).containers == s.containers
  {
    assert s.got == [] && s.sent[0] == s.queue[0];
  }

  /** Enters the SIGKILL wave from the SIGSTOP wave, with no SIGKILL goroutine begun. */
  lemma {:induction false} EntersKill(s: State, a: Action, c: nat)
    requires Inv(s) && Enabled(s, a) && Moves(a) && a.c == c && s.containers[c].plan.Pids?
    requires !PastStop(s.containers[c]) && PastStop(Step(s, a).containers[c])
    ensures var phase := Step(s, a).containers[c].phase;
      phase.Waving? && phase.wave.Kill? && phase.workers == Spawn(s.containers[c].plan.Outcomes(Kill))
  {
    assert ValidContainer(s.containers[c]);
  }

  /** The container's goroutines alone reach the SIGKILL wave. */
  lemma {:induction false} DriveToKill(plans: seq<Plan>, actions: seq<Action>, c: nat) returns (longer: seq<Action>)
    requires ValidPlans(plans) && Runs(Start(plans), actions)
    requires var s := Exec(Start(plans), actions); Alone(plans, s, c) && plans[c].Pids? && !PastStop(s.containers[c])
    requires WaveErrors(plans[c], Stop) <= |plans| + 1
    ensures Runs(Start(plans), longer)
    ensures var s := Exec(Start(plans), longer);
      && c < |s.containers| && s.containers[c].phase.Waving? && s.containers[c].phase.wave.Kill?
      && s.containers[c].phase.workers == Spawn(plans[c].Outcomes(Kill))
    decreases Rank(Exec(Start(plans), actions))
  {
    RunInv(plans, actions);
    var s := Exec(Start(plans), actions);
    var a;
    if s.collector == Collecting(0) && !CanSend(s) {
      a := Receive;
      AloneReceives(plans, s, c);
    } else {
      a := CanMoveInStop(s, c);
      AloneStep(plans, s, a, c);
      if PastStop(Step(s, a).containers[c]) { EntersKill(s, a, c); }
    }
    RankStep(s, a);
    longer := actions + [a];
    assert longer[..|actions|] == actions;
    if !PastStop(Step(s, a).containers[c]) { longer := DriveToKill(plans, longer, c); }
  }

  lemma {:induction false} KillCanStart(plans: seq<Plan>, c: nat, k: nat) returns (actions: seq<Action>)
    requires ValidPlans(plans) && c < |plans| && plans[c].Pids? && WaveErrors(plans[c], Stop) <= |plans| + 1
    requires k < |plans[c].kill| && plans[c].kill[k].Matches(plans[c].group)
    ensures Runs(Start(plans), actions) && Signal(c, Kill, k, false) in Exec(Start(plans), actions).trace
  {
    actions := DriveToKill(plans, [], c);
    var s := Exec(Start(plans), actions);
    FaresAs(plans[c].kill[k], plans[c].group);
    assert Enabled(s, Begin(c, k));
    assert (actions + [Begin(c, k)])[..|actions|] == actions;
    assert Step(s, Begin(c, k)).trace == s.trace + [Signal(c, Kill, k, false)];
    actions := actions + [Begin(c, k)];
  }

  /** A given SIGKILL is attempted in some run exactly when at most n + 1 of the container's SIGSTOP
      goroutines fail. */
  lemma {:induction false} KillCanStartIff(plans: seq<Plan>, c: nat, k: nat)
    requires ValidPlans(plans) && c < |plans| && plans[c].Pids?
    requires k < |plans[c].kill| && plans[c].kill[k].Matches(plans[c].group)
    ensures (exists actions :: Runs(Start(plans), actions) && Signal(c, Kill, k, false) in Exec(Start(plans), actions).trace)
       <==> WaveErrors(plans[c], Stop) <= |plans| + 1
  {
    if WaveErrors(plans[c], Stop) <= |plans| + 1 {
      var actions := KillCanStart(plans, c, k);
    } else if actions :| Runs(Start(plans), actions) && Signal(c, Kill, k, false) in Exec(Start(plans), actions).trace {
      KillNeverStarts(plans, actions, c, Signal(c, Kill, k, false));
    }
  }

  // ---------- An example ----------

  /** One container, three processes that vanish between the listing and their lookup: the error
      result is delivered, a goroutine is stranded, and the container is never killed. */
  lemma {:induction false} ThreeVanishingProcessesLeaveTheContainerAlive(plan: Plan, actions: seq<Action>)
    requires plan.Pids? && plan.Valid() && |plan.stop| >= 3
    requires forall k :: 0 <= k < 3 ==> plan.stop[k].found && plan.stop[k].group.None?
    requires Runs(Start([plan]), actions) && Stuck(Exec(Start([plan]), actions))
    ensures var s := Exec(Start([plan]), actions);
      && s.collector == ReturnedError && !AllReturned(s)
      && forall e :: e in s.trace ==> e.wave.Stop?
  {
    var plans := [plan];
    var s := Exec(Start(plans), actions);
    var outcomes := plan.Outcomes(Stop);
    assert outcomes == outcomes[..3] + outcomes[3..];
    SumAppend(ReportWeight, outcomes[..3], outcomes[3..]);
    assert outcomes[..3] == [LookupFailed, LookupFailed, LookupFailed];
    assert SumOf(ReportWeight, [LookupFailed, LookupFailed, LookupFailed]) == 3;
    RunInv(plans, actions);
    forall e | e in s.trace ensures e.wave.Stop? {
      OnlyMatchedProcessesAreSignalled(plans, actions, e, 0);
      KillNeverStarts(plans, actions, 0, e);
    }
    ResultIsDecidedByPlans(plans, actions);
    assert Troubled(plans[0]);
    PlannedIsSent(plans, s);
    if AllReturned(s) { ErrorsHeardOrQueued(s); }
  }
}
