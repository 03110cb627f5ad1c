/**
 * What teardown does to each process, stated over what the system answers about it: which
 * processes are signalled, which goroutines send an error, and what result comes of it.
 */
module TeardownEffects {
  import opened Collections
  import opened Teardown
  import opened TeardownSafety
  import opened TeardownSignals
  import opened TeardownKills

  // ---------- Signals ----------

  /** The signal has been sent to the process and the call has returned. */
  ghost predicate SignalDone(s: State, c: nat, wave: Wave, k: nat) {
    Signal(c, wave, k, false) in s.trace && Signal(c, wave, k, true) in s.trace
  }

  /** At rest a call that was made has returned. */
  lemma {:induction false} CallsReturn(s: State, c: nat, wave: Wave, k: nat)
    requires TraceInv(s) && Stuck(s) && Signal(c, wave, k, false) in s.trace
    ensures SignalDone(s, c, wave, k)
  {
    assert Justified(s, Signal(c, wave, k, false));
    assert !Enabled(s, SignalReturns(c, k));
  }

  /** When all has come to rest, every matching process of every list obtained has been sent its
      SIGSTOP, whatever errors there were and whoever is left waiting. */
  lemma {:induction false} EveryMatchIsStopped(plans: seq<Plan>, actions: seq<Action>, c: nat, k: nat)
    requires ValidPlans(plans) && Runs(Start(plans), actions) && Stuck(Exec(Start(plans), actions))
    requires c < |plans| && plans[c].Pids? && k < |plans[c].stop| && plans[c].stop[k].Matches(plans[c].group)
    ensures SignalDone(Exec(Start(plans), actions), c, Stop, k)
  {
    RunInv(plans, actions);
    RunTrace(plans, actions);
    var s := Exec(Start(plans), actions);
    FaresAs(plans[c].stop[k], plans[c].group);
    assert ValidContainer(s.containers[c]) && plans[c].Valid();
    assert !Enabled(s, List(c)) && !Enabled(s, Begin(c, k));
    assert Made(s, c, Stop, k);
    CallsReturn(s, c, Stop, k);
  }

  /** Where the kill is certain, every matching process has been sent its SIGKILL too. */
  lemma {:induction false} EveryMatchIsKilled(plans: seq<Plan>, actions: seq<Action>, c: nat, k: nat)
    requires ValidPlans(plans) && c < |plans| && KillIsCertain(plans, c)
    requires Runs(Start(plans), actions) && Stuck(Exec(Start(plans), actions))
    requires plans[c].Pids? && k < |plans[c].kill| && plans[c].kill[k].Matches(plans[c].group)
    ensures SignalDone(Exec(Start(plans), actions), c, Kill, k)
  {
    KillWaveCompletes(plans, actions, c, k);
    RunTrace(plans, actions);
    CallsReturn(Exec(Start(plans), actions), c, Kill, k);
  }

  /** A nil result means that every list was obtained and every matching process of it was sent
      both signals. */
  lemma {:induction false} NilMeansEveryMatchIsKilled(plans: seq<Plan>, actions: seq<Action>, c: nat, wave: Wave, k: nat)
    requires ValidPlans(plans) && Runs(Start(plans), actions) && Exec(Start(plans), actions).collector == ReturnedNil
    requires c < |plans|
    ensures plans[c].Pids?
    ensures k < |plans[c].Processes(wave)| && plans[c].Processes(wave)[k].Matches(plans[c].group)
      ==> SignalDone(Exec(Start(plans), actions), c, wave, k)
  {
    NilMeansNoError(plans, actions);
    ResultIsDecidedByPlans(plans, actions);
    RunInv(plans, actions);
    RunTrace(plans, actions);
    var s := Exec(Start(plans), actions);
    assert !Troubled(plans[c]);
    if k < |plans[c].Processes(wave)| && plans[c].Processes(wave)[k].Matches(plans[c].group) {
      FaresAs(plans[c].Processes(wave)[k], plans[c].group);
      assert plans[c].Valid();
      assert Made(s, c, wave, k);
      CallsReturn(s, c, wave, k);
    }
  }

  // ---------- Errors ----------

  ghost function TroubleWeight(group: string): Process -> nat { (p: Process) => if p.Troubles(group) then 1 else 0 }

  /** The errors due from a wave are as many as its processes that trouble. */
  lemma {:induction false} WaveErrorsAre(plan: Plan, wave: Wave)
    requires plan.Pids?
    ensures WaveErrors(plan, wave) == SumOf(TroubleWeight(plan.group), plan.Processes(wave))
  {
    var outcomes, processes := plan.Outcomes(wave), plan.Processes(wave);
    forall k | 0 <= k < |processes| ensures ReportWeight(outcomes[k]) == TroubleWeight(plan.group)(processes[k]) {
      FaresAs(processes[k], plan.group);
    }
    SumOrder(ReportWeight, outcomes, TroubleWeight(plan.group), processes);
  }

  ghost predicate NoTrouble(processes: seq<Process>, group: string) {
    forall k :: 0 <= k < |processes| ==> !processes[k].Troubles(group)
  }

  lemma {:induction false} NoErrorsIff(plan: Plan, wave: Wave)
    requires plan.Pids?
    ensures WaveErrors(plan, wave) == 0 <==> NoTrouble(plan.Processes(wave), plan.group)
  {
    WaveErrorsAre(plan, wave);
    var processes := plan.Processes(wave);
    if NoTrouble(processes, plan.group) {
      Zeros(TroubleWeight(plan.group), processes);
    } else {
      var k :| 0 <= k < |processes| && processes[k].Troubles(plan.group);
      SumAtLeast(TroubleWeight(plan.group), processes, k);
    }
  }

  /** At rest the result is nil exactly when every list was obtained, no process troubled in either
      wave, and every directory was removed. */
  lemma {:induction false} ResultIsDecidedByProcesses(plans: seq<Plan>, actions: seq<Action>)
    requires ValidPlans(plans) && Runs(Start(plans), actions) && Stuck(Exec(Start(plans), actions))
    ensures Exec(Start(plans), actions).collector == ReturnedNil <==>
      forall c :: 0 <= c < |plans| ==>
        && plans[c].Pids? && !plans[c].removeFails
        && NoTrouble(plans[c].stop, plans[c].group) && NoTrouble(plans[c].kill, plans[c].group)
  {
    ResultIsDecidedByPlans(plans, actions);
    forall c | 0 <= c < |plans|
      ensures !Troubled(plans[c]) <==>
        (&& plans[c].Pids? && !plans[c].removeFails
         && NoTrouble(plans[c].stop, plans[c].group) && NoTrouble(plans[c].kill, plans[c].group))
    {
      if plans[c].Pids? {
        NoErrorsIff(plans[c], Stop);
        NoErrorsIff(plans[c], Kill);
      }
    }
  }

  /** The goroutine of process k in the wave has finished. */
  ghost predicate PidDone(s: State, c: nat, wave: Wave, k: nat) {
    && c < |s.containers| && s.containers[c].plan.Pids?
    && var container := s.containers[c];
    && ((if wave.Stop? then PastStop(container) else PastKill(container))
        || (container.phase.Waving? && container.phase.wave == wave && k < |container.phase.workers|
            && container.phase.workers[k].progress.Finished?))
  }

  /** The run's step at j is the error send of process k's goroutine in the wave. */
  ghost predicate SendsErrorAt(plans: seq<Plan>, actions: seq<Action>, c: nat, wave: Wave, k: nat, j: nat) {
    && j < |actions| && actions[j] == SendError(c, k)
    && var s := Exec(Start(plans), actions[..j]);
    && c < |s.containers| && s.containers[c].phase.Waving? && s.containers[c].phase.wave == wave
  }

  lemma {:induction false} RunsPrefix(plans: seq<Plan>, actions: seq<Action>, j: nat)
    requires Runs(Start(plans), actions) && j < |actions|
    ensures Runs(Start(plans), actions[..j]) && Enabled(Exec(Start(plans), actions[..j]), actions[j])
  {
    var before := actions[..|actions| - 1];
    if j < |before| {
      RunsPrefix(plans, before, j);
      assert before[..j] == actions[..j];
    }
  }

  /** Only a goroutine whose process troubles sends an error. */
  lemma {:induction false} SenderTroubles(plans: seq<Plan>, actions: seq<Action>, c: nat, wave: Wave, k: nat, j: nat)
    requires ValidPlans(plans) && Runs(Start(plans), actions) && SendsErrorAt(plans, actions, c, wave, k, j)
    ensures c < |plans| && plans[c].Pids? && k < |plans[c].Processes(wave)|
    ensures plans[c].Processes(wave)[k].Troubles(plans[c].group)
  {
    RunsPrefix(plans, actions, j);
    RunInv(plans, actions[..j]);
    var s := Exec(Start(plans), actions[..j]);
    assert ValidContainer(s.containers[c]) && ValidWorker(s.containers[c], k);
    FaresAs(plans[c].Processes(wave)[k], plans[c].group);
  }

  /** A goroutine whose process troubles finishes by sending. */
  lemma {:induction false} FinishesBySending(s: State, a: Action, c: nat, wave: Wave, k: nat)
    requires ValidContainers(s) && Enabled(s, a) && c < |s.containers| && s.containers[c].plan.Pids?
    requires k < |s.containers[c].plan.Processes(wave)|
    requires s.containers[c].plan.Processes(wave)[k].Troubles(s.containers[c].plan.group)
    requires PidDone(Step(s, a), c, wave, k) && !PidDone(s, c, wave, k)
    ensures a == SendError(c, k) && s.containers[c].phase.Waving? && s.containers[c].phase.wave == wave
  {
    var was := s.containers[c];
    assert ValidContainer(was);
    FaresAs(was.plan.Processes(wave)[k], was.plan.group);
    if Moves(a) && a.c == c && was.phase.Waving? && k < |was.phase.workers| { assert ValidWorker(was, k); }
  }

  /** A goroutine that has finished sent an error exactly when its process is there and either a
      lookup failed or it is in the group and refused the signal. */
  lemma {:induction false} ErrorIsSentIff(plans: seq<Plan>, actions: seq<Action>, c: nat, wave: Wave, k: nat)
    requires ValidPlans(plans) && Runs(Start(plans), actions)
    requires c < |plans| && plans[c].Pids? && k < |plans[c].Processes(wave)|
    requires PidDone(Exec(Start(plans), actions), c, wave, k)
    ensures (exists j :: SendsErrorAt(plans, actions, c, wave, k, j)) <==> plans[c].Processes(wave)[k].Troubles(plans[c].group)
  {
    if j :| SendsErrorAt(plans, actions, c, wave, k, j) {
      SenderTroubles(plans, actions, c, wave, k, j);
    } else if plans[c].Processes(wave)[k].Troubles(plans[c].group) {
      var j := TroubleIsSent(plans, actions, c, wave, k);
    }
  }

  lemma {:induction false} TroubleIsSent(plans: seq<Plan>, actions: seq<Action>, c: nat, wave: Wave, k: nat) returns (j: nat)
    requires ValidPlans(plans) && Runs(Start(plans), actions)
    requires c < |plans| && plans[c].Pids? && k < |plans[c].Processes(wave)|
    requires plans[c].Processes(wave)[k].Troubles(plans[c].group)
    requires PidDone(Exec(Start(plans), actions), c, wave, k)
    ensures SendsErrorAt(plans, actions, c, wave, k, j)
  {
    var n := |actions| - 1;
    RunInv(plans, actions[..n]);
    if PidDone(Exec(Start(plans), actions[..n]), c, wave, k) {
      j := TroubleIsSent(plans, actions[..n], c, wave, k);
      assert actions[..n][..j] == actions[..j];
    } else {
      FinishesBySending(Exec(Start(plans), actions[..n]), actions[n], c, wave, k);
      j := n;
    }
  }
}
