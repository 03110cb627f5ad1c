/**
 * The order of the signals teardown sends, and whether they are sent at all.
 */
module TeardownSignals {
  import opened Collections
  import PodTypes
  import opened Teardown
  import opened TeardownSafety

  /** The container's SIGSTOP wave is over. */
  ghost predicate PastStop(c: Container) {
    && c.plan.Pids?
    && match c.phase
       case Listing => false
       case Waving(wave, _) => wave.Kill?
       case _ => true
  }

  ghost predicate PastKill(c: Container) { PastStop(c) && !c.phase.Waving? }

  ghost predicate InCall(c: Container, wave: Wave, k: nat) {
    c.phase.Waving? && c.phase.wave == wave && k < |c.phase.workers| && c.phase.workers[k].progress.Calling?
  }

  /** A recorded event belongs to a wave its container has reached and to a process the plan lets it signal. */
  ghost predicate Justified(s: State, e: Signal) {
    && e.from < |s.containers|
    && var c := s.containers[e.from];
    && c.plan.Pids? && c.plan.Valid() && !c.phase.Listing?
    && e.pid < |c.plan.stop|
    && c.plan.Outcomes(e.wave)[e.pid].Attempts()
    && (e.wave.Kill? ==> PastStop(c))
    && (!e.returned && Signal(e.from, e.wave, e.pid, true) !in s.trace ==> InCall(c, e.wave, e.pid))
  }

  /** A wave in progress has signalled for every goroutine past its lookups; a wave that is over, for all. */
  ghost predicate Made(s: State, c: nat, wave: Wave, k: nat)
    requires c < |s.containers| && s.containers[c].plan.Pids? && s.containers[c].plan.Valid()
    requires k < |s.containers[c].plan.stop|
  {
    var container := s.containers[c];
    && container.plan.Outcomes(wave)[k].Attempts()
    && ((if wave.Stop? then PastStop(container) else PastKill(container))
        || (container.phase.Waving? && container.phase.wave == wave && k < |container.phase.workers|
            && !container.phase.workers[k].progress.Ready?))
  }

  ghost predicate AllMade(s: State) {
    forall c, wave, k | 0 <= c < |s.containers| && s.containers[c].plan.Pids? && s.containers[c].plan.Valid()
      && 0 <= k < |s.containers[c].plan.stop| && Made(s, c, wave, k) :: Signal(c, wave, k, false) in s.trace
  }

  ghost predicate StopsFirst(s: State) {
    forall i, j | 0 <= i < |s.trace| && 0 <= j < |s.trace| && s.trace[i].from == s.trace[j].from
      && s.trace[i].wave.Stop? && s.trace[j].wave.Kill? :: i < j
  }

  ghost predicate CallsFirst(s: State) {
    forall r :: 0 <= r < |s.trace| && s.trace[r].returned
      ==> exists i :: 0 <= i < r && s.trace[i] == s.trace[r].(returned := false)
  }

  ghost predicate TraceInv(s: State) {
    && (forall e :: e in s.trace ==> Justified(s, e))
    && AllMade(s) && StopsFirst(s) && CallsFirst(s)
  }

  lemma {:induction false} JustifiedStep(s: State, a: Action, e: Signal)
    requires ValidContainers(s) && Enabled(s, a) && e in s.trace && Justified(s, e)
    ensures Justified(Step(s, a), e)
  {
    ReachedStays(s, a, e.from);
    if !e.returned && Signal(e.from, e.wave, e.pid, true) !in Step(s, a).trace { CallStays(s, a, e); }
  }

  /** What a container has passed it stays past. */
  lemma {:induction false} ReachedStays(s: State, a: Action, c: nat)
    requires ValidContainers(s) && Enabled(s, a) && c < |s.containers|
    ensures var was, now := s.containers[c], Step(s, a).containers[c];
      && |Step(s, a).containers| == |s.containers| && now.plan == was.plan
      && (!was.phase.Listing? ==> !now.phase.Listing?)
      && (PastStop(was) ==> PastStop(now))
  {
    assert ValidContainer(s.containers[c]);
  }

  /** A call goes on until its return is recorded. */
  lemma {:induction false} CallStays(s: State, a: Action, e: Signal)
    requires ValidContainers(s) && Enabled(s, a) && e.from < |s.containers| && !e.returned
    requires Signal(e.from, e.wave, e.pid, true) !in Step(s, a).trace
    requires Signal(e.from, e.wave, e.pid, true) !in s.trace ==> InCall(s.containers[e.from], e.wave, e.pid)
    ensures InCall(Step(s, a).containers[e.from], e.wave, e.pid)
  {
    assert s.trace <= Step(s, a).trace;
    var c := s.containers[e.from];
    assert ValidContainer(c) && ValidWorker(c, e.pid);
  }

  lemma {:induction false} NewEvent(s: State, a: Action)
    requires ValidContainers(s) && TraceInv(s) && Enabled(s, a) && (a.Begin? || a.SignalReturns?)
    requires Step(s, a).trace != s.trace
    ensures var e := Signal(a.c, s.containers[a.c].phase.wave, a.k, a.SignalReturns?);
      && Step(s, a).trace == s.trace + [e] && Justified(Step(s, a), e)
      && (e.returned ==> e.(returned := false) in s.trace)
  {
    var c := s.containers[a.c];
    assert ValidContainer(c) && ValidWorker(c, a.k);
    var e := Signal(a.c, c.phase.wave, a.k, a.SignalReturns?);
    assert Step(s, a).trace == s.trace + [e];
    if a.SignalReturns? { assert Made(s, a.c, c.phase.wave, a.k); }
  }

  /** A call is made by the goroutine's own step, or was made before. */
  lemma {:induction false} MadeEarlier(s: State, a: Action, c: nat, wave: Wave, k: nat)
    requires ValidContainers(s) && Enabled(s, a) && c < |s.containers| && s.containers[c].plan.Pids?
    requires k < |s.containers[c].plan.stop| && Step(s, a).containers[c].plan == s.containers[c].plan
    requires s.containers[c].plan.Valid() && Made(Step(s, a), c, wave, k)
    ensures Made(s, c, wave, k) || Signal(c, wave, k, false) in Step(s, a).trace
  {
    var was := s.containers[c];
    assert ValidContainer(was);
    if !Moves(a) || a.c != c {
      assert Step(s, a).containers[c] == was;
    } else {
      if was.phase.Waving? && k < |was.phase.workers| { assert ValidWorker(was, k); }
      if !Made(s, c, wave, k) { assert a == Begin(c, k); }
    }
  }

  lemma {:induction false} MadeStep(s: State, a: Action)
    requires ValidContainers(s) && AllMade(s) && Enabled(s, a)
    ensures AllMade(Step(s, a))
  {
    var t := Step(s, a);
    forall c, wave, k | 0 <= c < |t.containers| && t.containers[c].plan.Pids? && t.containers[c].plan.Valid()
      && 0 <= k < |t.containers[c].plan.stop| && Made(t, c, wave, k)
      ensures Signal(c, wave, k, false) in t.trace
    {
      MadeEarlier(s, a, c, wave, k);
      if Made(s, c, wave, k) {
        assert Signal(c, wave, k, false) in s.trace;
        assert s.trace <= t.trace;
      }
    }
  }

  lemma {:induction false} TraceStep(s: State, a: Action)
    requires ValidContainers(s) && TraceInv(s) && Enabled(s, a)
    ensures TraceInv(Step(s, a))
  {
    var t := Step(s, a);
    MadeStep(s, a);
    forall e | e in s.trace ensures Justified(t, e) { JustifiedStep(s, a, e); }
    if t.trace != s.trace {
      NewEvent(s, a);
      OrderStep(s, t, t.trace[|s.trace|]);
    }
  }

  lemma {:induction false} OrderStep(s: State, t: State, e: Signal)
    requires TraceInv(s) && t.trace == s.trace + [e] && Justified(t, e)
    requires |s.containers| == |t.containers|
    requires e.wave.Stop? ==> forall f :: f in s.trace && f.from == e.from ==> f.wave.Stop?
    requires e.returned ==> e.(returned := false) in s.trace
    ensures StopsFirst(t) && CallsFirst(t)
  {
    forall r | 0 <= r < |t.trace| && t.trace[r].returned
      ensures exists i :: 0 <= i < r && t.trace[i] == t.trace[r].(returned := false)
    {
      if r < |s.trace| {
        var i :| 0 <= i < r && s.trace[i] == s.trace[r].(returned := false);
        assert t.trace[i] == s.trace[i];
      } else {
        var i :| 0 <= i < |s.trace| && s.trace[i] == e.(returned := false);
        assert t.trace[i] == s.trace[i];
      }
    }
  }

  lemma {:induction false} RunTrace(plans: seq<Plan>, actions: seq<Action>)
    requires ValidPlans(plans) && Runs(Start(plans), actions)
    ensures TraceInv(Exec(Start(plans), actions))
  {
    if actions != [] {
      var before := actions[..|actions| - 1];
      RunTrace(plans, before);
      RunInv(plans, before);
      TraceStep(Exec(Start(plans), before), actions[|actions| - 1]);
    }
  }

  /** In every run, when a container's goroutines attempt their first SIGKILL, every SIGSTOP that
      container was going to attempt has been attempted and has returned. */
  lemma {:induction false} KillAfterEveryStop(plans: seq<Plan>, actions: seq<Action>, j: nat, k: nat)
    requires ValidPlans(plans) && Runs(Start(plans), actions)
    requires var trace := Exec(Start(plans), actions).trace;
      j < |trace| && trace[j].wave.Kill? && trace[j].from < |plans|
    requires var c := Exec(Start(plans), actions).trace[j].from;
      plans[c].Pids? && k < |plans[c].stop| && plans[c].stop[k].Matches(plans[c].group)
    ensures var trace := Exec(Start(plans), actions).trace; var c := trace[j].from;
      exists i, r :: 0 <= i < r < j && trace[i] == Signal(c, Stop, k, false) && trace[r] == Signal(c, Stop, k, true)
  {
    RunInv(plans, actions);
    RunTrace(plans, actions);
    var s := Exec(Start(plans), actions);
    FaresAs(plans[s.trace[j].from].stop[k], plans[s.trace[j].from].group);
    var e := s.trace[j];
    assert Justified(s, e);
    assert Made(s, e.from, Stop, k);
    var call := Signal(e.from, Stop, k, false);
    assert call in s.trace && Justified(s, call);
    assert !InCall(s.containers[e.from], Stop, k);
    var r :| 0 <= r < |s.trace| && s.trace[r] == Signal(e.from, Stop, k, true);
    var i :| 0 <= i < r && s.trace[i] == call;
  }

  /** A signal goes only to a process for which every lookup succeeded and whose own group, or
      whose parent's group, is that of the container. */
  lemma {:induction false} OnlyMatchedProcessesAreSignalled(plans: seq<Plan>, actions: seq<Action>, e: Signal, pgid: nat)
    requires ValidPlans(plans) && Runs(Start(plans), actions)
    requires e in Exec(Start(plans), actions).trace
    ensures e.from < |plans| && plans[e.from].Pids? && e.pid < |plans[e.from].Processes(e.wave)|
    ensures var p := plans[e.from].Processes(e.wave)[e.pid];
      && p.Matches(plans[e.from].group)
      && (plans[e.from].group == PodTypes.Decimal(pgid) ==> p.group == Some(pgid) || p.parentGroup == Some(pgid))
  {
    RunInv(plans, actions);
    RunTrace(plans, actions);
    assert Justified(Exec(Start(plans), actions), e);
    var p := plans[e.from].Processes(e.wave)[e.pid];
    FaresAs(p, plans[e.from].group);
    if plans[e.from].group == PodTypes.Decimal(pgid) {
      if PodTypes.Decimal(p.group.value) == plans[e.from].group {
        PodTypes.DecimalIsInjective(p.group.value, pgid);
      } else {
        PodTypes.DecimalIsInjective(p.parentGroup.value, pgid);
      }
    }
  }
}
