/**
 * Starting a pod's containers in parallel: one goroutine per container, an error channel and a
 * status channel whose capacity is the number of containers, a closer that waits for every
 * goroutine, and one consumer that ranges over the statuses and never reads an error.
 */
module FanIn {
  import opened Collections
  import opened PodTypes

  /** What one container's goroutine sends: an error or not, then a status or not. */
  datatype Outcome = Outcome(error: bool, status: Option<ContainerStatus>)

  datatype Progress = Working | SendingError | SendingStatus | Done

  datatype Worker = Worker(outcome: Outcome, progress: Progress)

  datatype Closer = Waiting | ClosedErrors | ClosedBoth

  /** Each channel is its queue; the closer says which are closed. A worker that is Done has told
      the wait group. */
  datatype State = State(
    workers: seq<Worker>,
    errors: nat,
    statuses: seq<ContainerStatus>,
    closer: Closer,
    received: seq<ContainerStatus>,
    rangeEnded: bool)

  datatype Action =
    | Work(i: nat)
    | SendError(i: nat)
    | SendStatus(i: nat)
    | CloseErrors
    | CloseStatuses
    | Receive
    | EndRange

  ghost function Start(outcomes: seq<Outcome>): State {
    State(seq(|outcomes|, i requires 0 <= i < |outcomes| => Worker(outcomes[i], Working)),
          0, [], Waiting, [], false)
  }

  ghost predicate At(s: State, i: nat, progress: Progress) {
    i < |s.workers| && s.workers[i].progress == progress
  }

  ghost predicate Enabled(s: State, a: Action) {
    match a
    case Work(i) => At(s, i, Working)
    case SendError(i) => At(s, i, SendingError) && s.closer.Waiting? && s.errors < |s.workers|
    case SendStatus(i) => At(s, i, SendingStatus) && !s.closer.ClosedBoth? && |s.statuses| < |s.workers|
    case CloseErrors => s.closer.Waiting? && forall i :: 0 <= i < |s.workers| ==> s.workers[i].progress.Done?
    case CloseStatuses => s.closer.ClosedErrors?
    case Receive => !s.rangeEnded && s.statuses != []
    case EndRange => !s.rangeEnded && s.statuses == [] && s.closer.ClosedBoth?
  }

  ghost function Next(o: Outcome, progress: Progress): Progress {
    match progress
    case Working => if o.error then SendingError else if o.status.Some? then SendingStatus else Done
    case SendingError => if o.status.Some? then SendingStatus else Done
    case _ => Done
  }

  ghost function Advance(s: State, i: nat): State
    requires i < |s.workers|
  {
    var w := s.workers[i];
    s.(workers := s.workers[i := w.(progress := Next(w.outcome, w.progress))])
  }

  ghost function Step(s: State, a: Action): State {
    if !Enabled(s, a) then s else
    match a
    case Work(i) => Advance(s, i)
    case SendError(i) => Advance(s, i).(errors := s.errors + 1)
    case SendStatus(i) =>
      var o := s.workers[i].outcome;
      if o.status.Some? then Advance(s, i).(statuses := s.statuses + [o.status.value]) else s
    case CloseErrors => s.(closer := ClosedErrors)
    case CloseStatuses => s.(closer := ClosedBoth)
    case Receive => s.(statuses := s.statuses[1..], received := s.received + [s.statuses[0]])
    case EndRange => s.(rangeEnded := true)
  }

  ghost function Exec(s: State, actions: seq<Action>): State {
    if actions == [] then s
    else Step(Exec(s, actions[..|actions| - 1]), actions[|actions| - 1])
  }

  ghost predicate Runs(s: State, actions: seq<Action>) {
    actions != [] ==>
      var before := actions[..|actions| - 1];
      Runs(s, before) && Enabled(Exec(s, before), actions[|actions| - 1])
  }

  ghost predicate Stuck(s: State) { forall a: Action :: !Enabled(s, a) }

  // ---------- Counting what has been sent ----------

  ghost function ErrorSent(w: Worker): nat {
    if w.outcome.error && (w.progress.SendingStatus? || w.progress.Done?) then 1 else 0
  }

  ghost function StatusBag(o: Outcome): multiset<ContainerStatus> {
    if o.status.Some? then multiset{o.status.value} else multiset{}
  }

  ghost function StatusSent(w: Worker): multiset<ContainerStatus> {
    if w.progress.Done? then StatusBag(w.outcome) else multiset{}
  }

  ghost function StatusCount(w: Worker): nat {
    if w.progress.Done? && w.outcome.status.Some? then 1 else 0
  }

  /** The statuses all goroutines together send. */
  ghost function Expected(outcomes: seq<Outcome>): multiset<ContainerStatus> { BagOf(StatusBag, outcomes) }

  ghost predicate ValidWorker(w: Worker) {
    && (w.progress.SendingError? ==> w.outcome.error)
    && (w.progress.SendingStatus? ==> w.outcome.status.Some?)
  }

  ghost predicate AllDone(s: State) { forall i :: 0 <= i < |s.workers| ==> s.workers[i].progress.Done? }

  ghost predicate Inv(outcomes: seq<Outcome>, s: State) {
    && |s.workers| == |outcomes|
    && (forall i :: 0 <= i < |outcomes| ==> s.workers[i].outcome == outcomes[i] && ValidWorker(s.workers[i]))
    && s.errors == SumOf(ErrorSent, s.workers)
    && |s.received| + |s.statuses| == SumOf(StatusCount, s.workers)
    && multiset(s.received + s.statuses) == BagOf(StatusSent, s.workers)
    && (!s.closer.Waiting? ==> AllDone(s))
    && (s.rangeEnded ==> s.statuses == [] && s.closer.ClosedBoth?)
  }

  lemma {:induction false} NothingSent(workers: seq<Worker>)
    requires forall i :: 0 <= i < |workers| ==> workers[i].progress.Working?
    ensures SumOf(ErrorSent, workers) == 0 && SumOf(StatusCount, workers) == 0
    ensures BagOf(StatusSent, workers) == multiset{}
  {
    if workers != [] { NothingSent(workers[1..]); }
  }

  /** The worker's own step: its record changes, and it sends at most what its counters gain. */
  lemma {:induction false} WorkerCounts(s: State, a: Action)
    requires Enabled(s, a) && (a.Work? || a.SendError? || a.SendStatus?) && ValidWorker(s.workers[a.i])
    ensures var t := Step(s, a);
      && t.workers == s.workers[a.i := t.workers[a.i]] && ValidWorker(t.workers[a.i])
      && t.workers[a.i].outcome == s.workers[a.i].outcome
      && t.errors - s.errors == SumOf(ErrorSent, t.workers) - SumOf(ErrorSent, s.workers)
      && |t.statuses| - |s.statuses| == SumOf(StatusCount, t.workers) - SumOf(StatusCount, s.workers)
      && t.received == s.received && t.closer == s.closer && t.rangeEnded == s.rangeEnded
  {
    var v := Step(s, a).workers[a.i];
    SumUpdate(ErrorSent, s.workers, a.i, v);
    SumUpdate(StatusCount, s.workers, a.i, v);
  }

  /** The statuses a worker's step puts on the channel: its own, if it is then done. */
  ghost function Sends(v: Worker): seq<ContainerStatus> {
    if v.progress.Done? && v.outcome.status.Some? then [v.outcome.status.value] else []
  }

  lemma {:induction false} SendsItsBag(v: Worker)
    ensures multiset(Sends(v)) == StatusSent(v)
  {
  }

  lemma {:induction false} BagGrows<T>(was: seq<T>, more: seq<T>, old_bag: multiset<T>, gone: multiset<T>, new_bag: multiset<T>)
    requires multiset(was) == old_bag && gone == multiset{} && new_bag + gone == old_bag + multiset(more)
    ensures multiset(was + more) == new_bag
  {
    assert multiset(was + more) == multiset(was) + multiset(more);
  }

  lemma {:induction false} WorkerBag(s: State, t: State, i: nat)
    requires i < |s.workers| == |t.workers| && !s.workers[i].progress.Done?
    requires t.workers == s.workers[i := t.workers[i]] && t.received == s.received
    requires t.statuses == s.statuses + Sends(t.workers[i])
    requires multiset(s.received + s.statuses) == BagOf(StatusSent, s.workers)
    ensures multiset(t.received + t.statuses) == BagOf(StatusSent, t.workers)
  {
    var v := t.workers[i];
    BagUpdate(StatusSent, s.workers, i, v);
    SendsItsBag(v);
    assert t.received + t.statuses == s.received + s.statuses + Sends(v);
    BagGrows(s.received + s.statuses, Sends(v), BagOf(StatusSent, s.workers), StatusSent(s.workers[i]), BagOf(StatusSent, t.workers));
  }

  lemma {:induction false} InvKept(outcomes: seq<Outcome>, s: State, t: State, i: nat)
    requires Inv(outcomes, s) && i < |s.workers| == |t.workers| && !s.workers[i].progress.Done?
    requires t.workers == s.workers[i := t.workers[i]] && ValidWorker(t.workers[i])
    requires t.workers[i].outcome == s.workers[i].outcome
    requires t.errors - s.errors == SumOf(ErrorSent, t.workers) - SumOf(ErrorSent, s.workers)
    requires |t.statuses| - |s.statuses| == SumOf(StatusCount, t.workers) - SumOf(StatusCount, s.workers)
    requires t.received == s.received && t.closer == s.closer && t.rangeEnded == s.rangeEnded
    requires multiset(t.received + t.statuses) == BagOf(StatusSent, t.workers)
    ensures Inv(outcomes, t)
  {
    assert s.closer.Waiting?;
  }

  lemma {:induction false} WorkerStep(outcomes: seq<Outcome>, s: State, a: Action)
    requires Inv(outcomes, s) && Enabled(s, a) && (a.Work? || a.SendError? || a.SendStatus?)
    ensures Inv(outcomes, Step(s, a))
  {
    var t := Step(s, a);
    assert ValidWorker(s.workers[a.i]);
    WorkerCounts(s, a);
    WorkerBag(s, t, a.i);
    InvKept(outcomes, s, t, a.i);
  }

  lemma {:induction false} ChannelStep(outcomes: seq<Outcome>, s: State, a: Action)
    requires Inv(outcomes, s) && Enabled(s, a) && (a.CloseErrors? || a.CloseStatuses? || a.Receive? || a.EndRange?)
    ensures Inv(outcomes, Step(s, a))
  {
    var t := Step(s, a);
    assert t.workers == s.workers && t.errors == s.errors;
    if a.Receive? { assert t.received + t.statuses == s.received + s.statuses; }
  }

  lemma {:induction false} StepInv(outcomes: seq<Outcome>, s: State, a: Action)
    requires Inv(outcomes, s) && Enabled(s, a)
    ensures Inv(outcomes, Step(s, a))
  {
    if a.Work? || a.SendError? || a.SendStatus? {
      WorkerStep(outcomes, s, a);
    } else {
      ChannelStep(outcomes, s, a);
    }
  }

  lemma {:induction false} RunInv(outcomes: seq<Outcome>, actions: seq<Action>)
    requires Runs(Start(outcomes), actions)
    ensures Inv(outcomes, Exec(Start(outcomes), actions))
  {
    if actions == [] {
      NothingSent(Start(outcomes).workers);
    } else {
      var before := actions[..|actions| - 1];
      RunInv(outcomes, before);
      StepInv(outcomes, Exec(Start(outcomes), before), actions[|actions| - 1]);
    }
  }

  // ---------- Safety ----------

  lemma {:induction false} RoomFor(f: Worker -> nat, workers: seq<Worker>, i: nat)
    requires forall j :: 0 <= j < |workers| ==> f(workers[j]) <= 1
    requires i < |workers| && f(workers[i]) == 0
    ensures SumOf(f, workers) < |workers|
  {
    SumUnit(f, workers);
  }

  /** No send ever waits, though nobody reads the error channel, and none meets a closed channel. */
  lemma {:induction false} SendsNeverBlock(outcomes: seq<Outcome>, actions: seq<Action>, i: nat)
    requires Runs(Start(outcomes), actions)
    ensures var s := Exec(Start(outcomes), actions);
      && (At(s, i, SendingError) ==> Enabled(s, SendError(i)))
      && (At(s, i, SendingStatus) ==> Enabled(s, SendStatus(i)))
  {
    RunInv(outcomes, actions);
    var s := Exec(Start(outcomes), actions);
    if At(s, i, SendingError) {
      RoomFor(ErrorSent, s.workers, i);
    } else if At(s, i, SendingStatus) {
      RoomFor(StatusCount, s.workers, i);
    }
  }

  /** Each channel is closed at most once, the error channel first, and only when every goroutine
      is past its last send; nobody can send afterwards. */
  lemma {:induction false} ClosedOnceAndLate(outcomes: seq<Outcome>, actions: seq<Action>)
    requires Runs(Start(outcomes), actions)
    ensures var s := Exec(Start(outcomes), actions);
      && (Enabled(s, CloseErrors) || !s.closer.Waiting? ==> AllDone(s))
      && (!s.closer.Waiting? ==> forall a :: Enabled(s, a) ==> !a.Work? && !a.SendError? && !a.SendStatus? && !a.CloseErrors?)
      && (s.closer.ClosedBoth? ==> !Enabled(s, CloseStatuses))
  {
    RunInv(outcomes, actions);
  }

  ghost function WorkerRank(w: Worker): nat {
    match w.progress case Working => 4 case SendingError => 3 case SendingStatus => 2 case Done => 0
  }

  ghost function Rank(s: State): nat {
    SumOf(WorkerRank, s.workers) + |s.statuses|
    + (match s.closer case Waiting => 2 case ClosedErrors => 1 case ClosedBoth => 0)
    + if s.rangeEnded then 0 else 1
  }

  lemma {:induction false} RankStep(s: State, a: Action)
    requires Enabled(s, a) && forall i :: 0 <= i < |s.workers| ==> ValidWorker(s.workers[i])
    ensures Rank(Step(s, a)) < Rank(s)
  {
    if a.Work? || a.SendError? || a.SendStatus? {
      assert ValidWorker(s.workers[a.i]);
      SumUpdate(WorkerRank, s.workers, a.i, Step(s, a).workers[a.i]);
    }
  }

  /** Every step is progress, so every schedule comes to rest. */
  lemma {:induction false} RunsAreFinite(outcomes: seq<Outcome>, actions: seq<Action>)
    requires Runs(Start(outcomes), actions)
    ensures |actions| + Rank(Exec(Start(outcomes), actions)) <= Rank(Start(outcomes))
  {
    if actions != [] {
      var before := actions[..|actions| - 1];
      RunsAreFinite(outcomes, before);
      RunInv(outcomes, before);
      RankStep(Exec(Start(outcomes), before), actions[|actions| - 1]);
    }
  }

  lemma {:induction false} BagWhenDone(workers: seq<Worker>, outcomes: seq<Outcome>)
    requires |workers| == |outcomes|
    requires forall i :: 0 <= i < |workers| ==> workers[i].progress.Done? && workers[i].outcome == outcomes[i]
    ensures BagOf(StatusSent, workers) == Expected(outcomes)
  {
    if workers != [] {
      assert forall i :: 0 <= i < |workers[1..]| ==> workers[1..][i] == workers[i + 1] && outcomes[1..][i] == outcomes[i + 1];
      BagWhenDone(workers[1..], outcomes[1..]);
    }
  }

  lemma {:induction false} StuckWorkersAreDone(outcomes: seq<Outcome>, actions: seq<Action>)
    requires Runs(Start(outcomes), actions) && Stuck(Exec(Start(outcomes), actions))
    ensures AllDone(Exec(Start(outcomes), actions))
  {
    var s := Exec(Start(outcomes), actions);
    forall i | 0 <= i < |s.workers| ensures s.workers[i].progress.Done? {
      SendsNeverBlock(outcomes, actions, i);
      assert !Enabled(s, Work(i)) && !Enabled(s, SendError(i)) && !Enabled(s, SendStatus(i));
    }
  }

  lemma {:induction false} StuckRangeHasEnded(s: State)
    requires Stuck(s) && AllDone(s)
    ensures s.rangeEnded || s.statuses != []
    ensures s.rangeEnded || s.statuses == []
  {
    assert !Enabled(s, CloseErrors) && !Enabled(s, CloseStatuses) && !Enabled(s, Receive) && !Enabled(s, EndRange);
  }

  /** When nothing can move, the consumer's loop has ended, and what it received is, in some order,
      exactly the statuses the goroutines had to send. */
  lemma {:induction false} ConsumerGetsEveryStatus(outcomes: seq<Outcome>, actions: seq<Action>)
    requires Runs(Start(outcomes), actions) && Stuck(Exec(Start(outcomes), actions))
    ensures var s := Exec(Start(outcomes), actions);
      s.rangeEnded && AllDone(s) && multiset(s.received) == Expected(outcomes)
  {
    var s := Exec(Start(outcomes), actions);
    RunInv(outcomes, actions);
    StuckWorkersAreDone(outcomes, actions);
    StuckRangeHasEnded(s);
    assert s.received + s.statuses == s.received;
    BagWhenDone(s.workers, outcomes);
  }

  ghost function ErrorDue(o: Outcome): nat { if o.error then 1 else 0 }

  /** And every error has been put on the channel that nobody reads. */
  lemma {:induction false} EveryErrorIsQueued(outcomes: seq<Outcome>, actions: seq<Action>)
    requires Runs(Start(outcomes), actions) && Stuck(Exec(Start(outcomes), actions))
    ensures Exec(Start(outcomes), actions).errors == SumOf(ErrorDue, outcomes)
  {
    var s := Exec(Start(outcomes), actions);
    RunInv(outcomes, actions);
    StuckWorkersAreDone(outcomes, actions);
    SumOrder(ErrorSent, s.workers, ErrorDue, outcomes);
  }

  // ---------- The pod's phase ----------

  /** The phase decided from the arrivals, in whatever order they came, is decided by the
      outcomes: start-up fails exactly when every status sent reports a failure. */
  lemma {:induction false} PhaseIgnoresArrivalOrder(outcomes: seq<Outcome>, actions: seq<Action>)
    requires Runs(Start(outcomes), actions) && Stuck(Exec(Start(outcomes), actions))
    ensures AllBad(Exec(Start(outcomes), actions).received)
       <==> forall i :: 0 <= i < |outcomes| && outcomes[i].status.Some? ==> Bad(outcomes[i].status.value)
  {
    ConsumerGetsEveryStatus(outcomes, actions);
    var received := Exec(Start(outcomes), actions).received;
    forall st ensures st in received <==> exists i :: 0 <= i < |outcomes| && st in StatusBag(outcomes[i]) {
      BagMembers(StatusBag, outcomes, st);
      assert st in received <==> st in multiset(received);
    }
    if AllBad(received) {
      forall i | 0 <= i < |outcomes| && outcomes[i].status.Some? ensures Bad(outcomes[i].status.value) {
        var st := outcomes[i].status.value;
        assert st in StatusBag(outcomes[i]);
        assert st in received;
      }
    } else {
      var k :| 0 <= k < |received| && !Bad(received[k]);
      assert received[k] in received;
      var i :| 0 <= i < |outcomes| && received[k] in StatusBag(outcomes[i]);
    }
  }

  /** With distinct container names, exactly one status arrives for each container that sends one,
      and none for a container that does not. */
  lemma {:induction false} OneStatusPerName(outcomes: seq<Outcome>, names: seq<string>, st: ContainerStatus, i: nat)
    requires |names| == |outcomes| && i < |names|
    requires forall j, k :: 0 <= j < k < |names| ==> names[j] != names[k]
    requires forall j :: 0 <= j < |names| && outcomes[j].status.Some? ==> outcomes[j].status.value.name == names[j]
    requires st.name == names[i]
    ensures Expected(outcomes)[st] == if outcomes[i].status == Some(st) then 1 else 0
  {
    if i == 0 {
      BagMembers(StatusBag, outcomes[1..], st);
      forall j | 0 <= j < |outcomes[1..]| ensures st !in StatusBag(outcomes[1..][j]) {
        assert names[0] != names[j + 1];
      }
    } else {
      assert names[0] != names[i];
      OneStatusPerName(outcomes[1..], names[1..], st, i - 1);
    }
  }
}
