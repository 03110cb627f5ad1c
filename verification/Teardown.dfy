/**
 * The concurrent teardown of a pod: one goroutine per container status, two waves of
 * per-pid goroutines inside each, a channel whose capacity is the number of containers, and
 * a collector that returns on the first error it receives.
 *
 * What the operating system answers is fixed per container by a Plan; every theorem is about
 * every plan and every interleaving.
 */
module Teardown {
  import opened Collections
  import PodTypes

  /** What the system answers about one process: whether it is found, its group, its parent, the
      parent's group (None for a lookup that fails), and whether it refuses the signal. */
  datatype Process = Process(found: bool, group: Option<nat>, parent: Option<nat>, parentGroup: Option<nat>, refuses: bool)
  {
    /** All lookups succeed, and the process or its parent is in the group, compared as text. */
    predicate Matches(group: string) {
      && this.found && this.group.Some? && this.parent.Some? && this.parentGroup.Some?
      && (PodTypes.Decimal(this.group.value) == group || PodTypes.Decimal(this.parentGroup.value) == group)
    }

    /** The process is there, and a lookup fails or it is in the group and refuses the signal. */
    predicate Troubles(group: string) {
      && this.found
      && (this.group.None? || this.parent.None? || this.parentGroup.None? || (Matches(group) && this.refuses))
    }
  }

  /** How one per-pid goroutine fares. The three failing lookups all end in the same send. */
  datatype PidOutcome = Vanished | LookupFailed | OtherGroup | Signalled | SignalFailed
  {
    predicate Reports() { LookupFailed? || SignalFailed? }
    predicate Attempts() { Signalled? || SignalFailed? }
  }

  /** The body of a per-pid goroutine, for a container of the given group. */
  function Fares(p: Process, group: string): PidOutcome {
    if !p.found then Vanished
    else if p.group.None? then LookupFailed
    else if p.parent.None? then LookupFailed
    else if p.parentGroup.None? then LookupFailed
    else if PodTypes.Decimal(p.group.value) != group && PodTypes.Decimal(p.parentGroup.value) != group then OtherGroup
    else if p.refuses then SignalFailed
    else Signalled
  }

  /** A signal is attempted exactly for a matching process, and an error is sent exactly for one
      that troubles. */
  lemma {:induction false} FaresAs(p: Process, group: string)
    ensures Fares(p, group).Attempts() <==> p.Matches(group)
    ensures Fares(p, group).Reports() <==> p.Troubles(group)
  {
  }

  datatype Wave = Stop | Kill

  /** What the system answers to one container's goroutine. */
  datatype Plan =
    | ListFails
    | Pids(group: string, stop: seq<Process>, kill: seq<Process>, removeFails: bool)
  {
    /** Both waves range over the same list of pids. */
    predicate Valid() { Pids? ==> |stop| == |kill| }

    /** The processes as a wave finds them. */
    function Processes(wave: Wave): seq<Process>
      requires Pids?
    {
      if wave.Stop? then stop else kill
    }

    function Outcomes(wave: Wave): seq<PidOutcome>
      requires Pids?
    {
      var processes := Processes(wave);
      seq(|processes|, k requires 0 <= k < |processes| => Fares(processes[k], group))
    }

    predicate FinallyFails() { ListFails? || removeFails }
  }

  datatype Progress = Ready | Calling | Sending | Finished

  datatype Worker = Worker(outcome: PidOutcome, progress: Progress)

  datatype Phase =
    | Listing
    | Waving(wave: Wave, workers: seq<Worker>)
    | Removing
    | Reporting(failed: bool)
    | Returned(failed: bool)

  datatype Container = Container(plan: Plan, phase: Phase)

  /** A channel element; the sender is bookkeeping the collector never looks at. */
  datatype Message = Message(from: nat, error: bool)

  /** A signal call, or its return. */
  datatype Signal = Signal(from: nat, wave: Wave, pid: nat, returned: bool)

  datatype Collector = Collecting(count: nat) | ReturnedError | ReturnedNil

  /** The queue and its closed flag are the channel; sent, got and trace are history. */
  datatype State = State(
    containers: seq<Container>,
    queue: seq<Message>,
    closed: bool,
    collector: Collector,
    sent: seq<Message>,
    got: seq<Message>,
    trace: seq<Signal>)

  datatype Action =
    | List(c: nat)
    | Begin(c: nat, k: nat)
    | SignalReturns(c: nat, k: nat)
    | SendError(c: nat, k: nat)
    | Join(c: nat)
    | Remove(c: nat)
    | Report(c: nat)
    | Receive
    | Close

  ghost predicate ValidPlans(plans: seq<Plan>) { forall c :: 0 <= c < |plans| ==> plans[c].Valid() }

  ghost function Start(plans: seq<Plan>): State {
    State(seq(|plans|, c requires 0 <= c < |plans| => Container(plans[c], Listing)),
          [], false, Collecting(0), [], [], [])
  }

  ghost function Spawn(outcomes: seq<PidOutcome>): seq<Worker> {
    seq(|outcomes|, k requires 0 <= k < |outcomes| => Worker(outcomes[k], Ready))
  }

  // ---------- Steps ----------

  ghost predicate WorkerIs(s: State, c: nat, k: nat, progress: Progress) {
    && c < |s.containers| && s.containers[c].phase.Waving?
    && k < |s.containers[c].phase.workers|
    && s.containers[c].phase.workers[k].progress == progress
  }

  /** A send proceeds only on an open channel with a free slot. */
  ghost predicate CanSend(s: State) { !s.closed && |s.queue| < |s.containers| }

  ghost predicate AllFinished(workers: seq<Worker>) {
    forall k :: 0 <= k < |workers| ==> workers[k].progress.Finished?
  }

  ghost predicate Enabled(s: State, a: Action) {
    match a
    case List(c) => c < |s.containers| && s.containers[c].phase.Listing?
    case Begin(c, k) => WorkerIs(s, c, k, Ready)
    case SignalReturns(c, k) => WorkerIs(s, c, k, Calling)
    case SendError(c, k) => WorkerIs(s, c, k, Sending) && CanSend(s)
    case Join(c) => c < |s.containers| && s.containers[c].phase.Waving? && AllFinished(s.containers[c].phase.workers)
    case Remove(c) => c < |s.containers| && s.containers[c].phase.Removing?
    case Report(c) => c < |s.containers| && s.containers[c].phase.Reporting? && CanSend(s)
    case Receive => s.collector.Collecting? && s.collector.count < |s.containers| && s.queue != []
    case Close => s.collector.Collecting? && s.collector.count == |s.containers|
  }

  ghost function Enter(s: State, c: nat, phase: Phase): State
    requires c < |s.containers|
  {
    s.(containers := s.containers[c := s.containers[c].(phase := phase)])
  }

  ghost function Advance(s: State, c: nat, k: nat, progress: Progress): State
    requires c < |s.containers| && s.containers[c].phase.Waving?
    requires k < |s.containers[c].phase.workers|
  {
    var phase := s.containers[c].phase;
    Enter(s, c, phase.(workers := phase.workers[k := phase.workers[k].(progress := progress)]))
  }

  ghost function Send(s: State, m: Message): State {
    s.(queue := s.queue + [m], sent := s.sent + [m])
  }

  ghost function Traced(s: State, e: Signal): State { s.(trace := s.trace + [e]) }

  /** The effect of an action; nothing happens when it is not enabled. */
  ghost function Step(s: State, a: Action): State {
    if !Enabled(s, a) then s else
    match a
    case List(c) =>
      var plan := s.containers[c].plan;
      Enter(s, c, if plan.ListFails? then Reporting(true) else Waving(Stop, Spawn(plan.Outcomes(Stop))))
    case Begin(c, k) =>
      var o := s.containers[c].phase.workers[k].outcome;
      if o.Attempts() then Traced(Advance(s, c, k, Calling), Signal(c, s.containers[c].phase.wave, k, false))
      else Advance(s, c, k, if o.Reports() then Sending else Finished)
    case SignalReturns(c, k) =>
      var o := s.containers[c].phase.workers[k].outcome;
      Traced(Advance(s, c, k, if o.Reports() then Sending else Finished),
             Signal(c, s.containers[c].phase.wave, k, true))
    case SendError(c, k) => Send(Advance(s, c, k, Finished), Message(c, true))
    case Join(c) =>
      var plan := s.containers[c].plan;
      Enter(s, c, if s.containers[c].phase.wave.Kill? || plan.ListFails? then Removing
                  else Waving(Kill, Spawn(plan.Outcomes(Kill))))
    case Remove(c) => Enter(s, c, Reporting(s.containers[c].plan.FinallyFails()))
    case Report(c) =>
      var failed := s.containers[c].phase.failed;
      Send(Enter(s, c, Returned(failed)), Message(c, failed))
    case Receive =>
      var m := s.queue[0];
      s.(queue := s.queue[1..], got := s.got + [m],
         collector := if m.error then ReturnedError else Collecting(s.collector.count + 1))
    case Close => s.(closed := true, collector := ReturnedNil)
  }

  ghost function Exec(s: State, actions: seq<Action>): State {
    if actions == [] then s
    else Step(Exec(s, actions[..|actions| - 1]), actions[|actions| - 1])
  }

  /** Every action of the run is enabled when it is taken. */
  ghost predicate Runs(s: State, actions: seq<Action>) {
    actions != [] ==>
      var before := actions[..|actions| - 1];
      Runs(s, before) && Enabled(Exec(s, before), actions[|actions| - 1])
  }

  /** No goroutine, and not the collector, can make a step. */
  ghost predicate Stuck(s: State) { forall a: Action :: !Enabled(s, a) }

  ghost predicate AllReturned(s: State) {
    forall c :: 0 <= c < |s.containers| ==> s.containers[c].phase.Returned?
  }

  // ---------- What has been sent, counted ----------

  ghost function ReportWeight(o: PidOutcome): nat { if o.Reports() then 1 else 0 }

  ghost function WorkerSent(w: Worker): nat { if w.progress.Finished? then ReportWeight(w.outcome) else 0 }

  ghost function WaveErrors(plan: Plan, wave: Wave): nat {
    if plan.ListFails? then 0 else SumOf(ReportWeight, plan.Outcomes(wave))
  }

  /** The errors a container's goroutines have sent so far. */
  ghost function ErrorsSent(c: Container): nat {
    match c.phase
    case Listing => 0
    case Waving(Stop, workers) => SumOf(WorkerSent, workers)
    case Waving(Kill, workers) => WaveErrors(c.plan, Stop) + SumOf(WorkerSent, workers)
    case Removing => WaveErrors(c.plan, Stop) + WaveErrors(c.plan, Kill)
    case Reporting(_) => WaveErrors(c.plan, Stop) + WaveErrors(c.plan, Kill)
    case Returned(failed) =>
      WaveErrors(c.plan, Stop) + WaveErrors(c.plan, Kill) + (if failed then 1 else 0)
  }

  ghost function NilSent(c: Container): nat { if c.phase == Returned(false) then 1 else 0 }

  ghost function MessagesSent(c: Container): nat { ErrorsSent(c) + NilSent(c) }

  /** The messages a container sends if all of its goroutines finish. */
  ghost function PlannedMessages(plan: Plan): nat {
    WaveErrors(plan, Stop) + WaveErrors(plan, Kill) + 1
  }

  /** Some goroutine of the container meets an error. */
  ghost predicate Troubled(plan: Plan) {
    plan.FinallyFails() || WaveErrors(plan, Stop) + WaveErrors(plan, Kill) > 0
  }

  ghost function NilWeight(m: Message): nat { if m.error then 0 else 1 }

  // ---------- Invariant ----------

  ghost predicate ValidContainer(c: Container) {
    && c.plan.Valid()
    && (c.phase.Waving? ==>
        && c.plan.Pids?
        && |c.phase.workers| == |c.plan.Outcomes(c.phase.wave)|
        && forall k :: 0 <= k < |c.phase.workers| ==> ValidWorker(c, k))
    && (c.phase.Removing? ==> c.plan.Pids?)
    && (c.phase.Reporting? || c.phase.Returned? ==> c.phase.failed == c.plan.FinallyFails())
  }

  ghost predicate ValidWorker(c: Container, k: nat)
    requires c.phase.Waving? && c.plan.Pids? && k < |c.phase.workers| == |c.plan.Outcomes(c.phase.wave)|
  {
    var w := c.phase.workers[k];
    && w.outcome == c.plan.Outcomes(c.phase.wave)[k]
    && (w.progress.Calling? ==> w.outcome.Attempts())
    && (w.progress.Sending? ==> w.outcome.Reports())
  }

  ghost predicate ValidContainers(s: State) {
    forall c :: 0 <= c < |s.containers| ==> ValidContainer(s.containers[c])
  }

  /** The channel is a bounded FIFO queue: what was received and what is queued is what was sent. */
  ghost predicate Fifo(s: State) {
    && s.sent == s.got + s.queue
    && |s.queue| <= |s.containers|
    && forall p :: 0 <= p < |s.sent| ==> s.sent[p].from < |s.containers|
  }

  ghost predicate Counted(s: State) {
    && |s.sent| == SumOf(MessagesSent, s.containers)
    && SumOf(NilWeight, s.sent) == SumOf(NilSent, s.containers)
  }

  /** Only a container that reported success sent a nil, and it did so after all of its errors. */
  ghost predicate NilComesLast(s: State)
    requires Fifo(s)
  {
    && (forall p :: 0 <= p < |s.sent| && !s.sent[p].error
         ==> s.containers[s.sent[p].from].phase == Returned(false))
    && (forall p :: 0 <= p < |s.sent| && s.sent[p].error && s.containers[s.sent[p].from].phase == Returned(false)
         ==> exists q :: p < q < |s.sent| && s.sent[q] == Message(s.sent[p].from, false))
  }

  ghost predicate CollectorInv(s: State) {
    && (forall p :: 0 <= p < |s.got| - 1 ==> !s.got[p].error)
    && match s.collector
       case Collecting(r) => |s.got| == r <= |s.containers| && !s.closed && (r > 0 ==> !s.got[r - 1].error)
       case ReturnedError => 0 < |s.got| <= |s.containers| && !s.closed && s.got[|s.got| - 1].error
       case ReturnedNil => |s.got| == |s.containers| && s.closed && (s.got != [] ==> !s.got[|s.got| - 1].error)
  }

  ghost predicate Inv(s: State)
  {
    ValidContainers(s) && Fifo(s) && Counted(s) && NilComesLast(s) && CollectorInv(s)
  }

  lemma {:induction false} StartInv(plans: seq<Plan>)
    requires ValidPlans(plans)
    ensures Inv(Start(plans))
  {
    var s := Start(plans);
    Zeros(MessagesSent, s.containers);
    Zeros(NilSent, s.containers);
  }

  lemma {:induction false} Zeros<T(!new)>(f: T -> nat, xs: seq<T>)
    requires forall i :: 0 <= i < |xs| ==> f(xs[i]) == 0
    ensures SumOf(f, xs) == 0
  {
    if xs != [] { Zeros(f, xs[1..]); }
  }

  /** The container an action moves, if any. */
  ghost predicate Moves(a: Action) { !a.Receive? && !a.Close? }

  /** A step changes at most its own container, keeps every plan, and sends at most one message. */
  lemma {:induction false} StepShape(s: State, a: Action)
    requires Inv(s) && Enabled(s, a)
    ensures |Step(s, a).containers| == |s.containers|
    ensures Moves(a) ==> forall c :: 0 <= c < |s.containers| && c != a.c ==> Step(s, a).containers[c] == s.containers[c]
    ensures forall c :: 0 <= c < |s.containers| ==> Step(s, a).containers[c].plan == s.containers[c].plan
    ensures ValidContainers(Step(s, a))
  {
    if Moves(a) { ValidStep(s, a); }
  }

  lemma {:induction false} ValidStep(s: State, a: Action)
    requires Enabled(s, a) && Moves(a) && ValidContainer(s.containers[a.c])
    ensures ValidContainer(Step(s, a).containers[a.c])
  {
    var was, now := s.containers[a.c], Step(s, a).containers[a.c];
    if now.phase.Waving? {
      forall k | 0 <= k < |now.phase.workers| ensures ValidWorker(now, k) {
        if !a.List? && !a.Join? { assert ValidWorker(was, k); }
      }
    }
  }

  /** The errors of a wave whose goroutines have all finished are the errors planned for it. */
  lemma {:induction false} WaveDone(c: Container)
    requires ValidContainer(c) && c.phase.Waving? && AllFinished(c.phase.workers)
    ensures SumOf(WorkerSent, c.phase.workers) == WaveErrors(c.plan, c.phase.wave)
  {
    var outcomes := c.plan.Outcomes(c.phase.wave);
    forall k | 0 <= k < |outcomes| ensures WorkerSent(c.phase.workers[k]) == ReportWeight(outcomes[k]) {
      assert ValidWorker(c, k);
    }
    SumOrder(WorkerSent, c.phase.workers, ReportWeight, outcomes);
  }

  lemma {:induction false} SpawnSum(outcomes: seq<PidOutcome>)
    ensures SumOf(WorkerSent, Spawn(outcomes)) == 0
  {
    Zeros(WorkerSent, Spawn(outcomes));
  }

  /** One container's own step sends exactly the message that its counters record. */
  lemma {:induction false} SentByStep(s: State, a: Action)
    requires Inv(s) && Enabled(s, a) && Moves(a)
    ensures MessagesSent(Step(s, a).containers[a.c])
         == MessagesSent(s.containers[a.c]) + |Step(s, a).sent| - |s.sent|
    ensures NilSent(Step(s, a).containers[a.c])
         == NilSent(s.containers[a.c]) + SumOf(NilWeight, Step(s, a).sent) - SumOf(NilWeight, s.sent)
  {
    if a.Begin? || a.SignalReturns? || a.SendError? {
      SentByWorker(s, a);
    } else {
      SentByContainer(s, a);
    }
  }

  lemma {:induction false} SentByWorker(s: State, a: Action)
    requires Inv(s) && Enabled(s, a) && (a.Begin? || a.SignalReturns? || a.SendError?)
    ensures MessagesSent(Step(s, a).containers[a.c])
         == MessagesSent(s.containers[a.c]) + |Step(s, a).sent| - |s.sent|
    ensures NilSent(Step(s, a).containers[a.c]) == NilSent(s.containers[a.c])
    ensures SumOf(NilWeight, Step(s, a).sent) == SumOf(NilWeight, s.sent)
  {
    WorkerStep(s, a);
    if a.SendError? { SumAppend(NilWeight, s.sent, [Message(a.c, true)]); }
  }

  lemma {:induction false} SentByContainer(s: State, a: Action)
    requires Inv(s) && Enabled(s, a) && (a.List? || a.Join? || a.Remove? || a.Report?)
    ensures MessagesSent(Step(s, a).containers[a.c])
         == MessagesSent(s.containers[a.c]) + |Step(s, a).sent| - |s.sent|
    ensures NilSent(Step(s, a).containers[a.c])
         == NilSent(s.containers[a.c]) + SumOf(NilWeight, Step(s, a).sent) - SumOf(NilWeight, s.sent)
  {
    if a.Report? {
      SumAppend(NilWeight, s.sent, [Message(a.c, s.containers[a.c].phase.failed)]);
    } else {
      SilentStep(s, a);
    }
  }

  lemma {:induction false} SilentStep(s: State, a: Action)
    requires Inv(s) && Enabled(s, a) && (a.List? || a.Join? || a.Remove?)
    ensures Step(s, a).sent == s.sent && NilSent(Step(s, a).containers[a.c]) == NilSent(s.containers[a.c]) == 0
    ensures ErrorsSent(Step(s, a).containers[a.c]) == ErrorsSent(s.containers[a.c])
  {
    var c := s.containers[a.c];
    assert ValidContainer(c);
    match a
    case List(_) => if c.plan.Pids? { SpawnSum(c.plan.Outcomes(Stop)); }
    case Join(_) => WaveDone(c); SpawnSum(c.plan.Outcomes(Kill));
    case Remove(_) =>
  }

  lemma {:induction false} WorkerStep(s: State, a: Action)
    requires Inv(s) && Enabled(s, a) && (a.Begin? || a.SignalReturns? || a.SendError?)
    ensures ErrorsSent(Step(s, a).containers[a.c])
         == ErrorsSent(s.containers[a.c]) + if a.SendError? then 1 else 0
  {
    var c := s.containers[a.c];
    assert ValidContainer(c) && ValidWorker(c, a.k);
    var workers := c.phase.workers;
    SumUpdate(WorkerSent, workers, a.k, Step(s, a).containers[a.c].phase.workers[a.k]);
  }

  lemma {:induction false} OneContainerMoves(s: State, t: State, c: nat)
    requires Counted(s) && c < |s.containers| == |t.containers|
    requires t.containers == s.containers[c := t.containers[c]]
    requires MessagesSent(t.containers[c]) == MessagesSent(s.containers[c]) + |t.sent| - |s.sent|
    requires NilSent(t.containers[c]) == NilSent(s.containers[c]) + SumOf(NilWeight, t.sent) - SumOf(NilWeight, s.sent)
    ensures Counted(t)
  {
    SumUpdate(MessagesSent, s.containers, c, t.containers[c]);
    SumUpdate(NilSent, s.containers, c, t.containers[c]);
  }

  lemma {:induction false} CountedStep(s: State, a: Action)
    requires Inv(s) && Enabled(s, a)
    ensures Counted(Step(s, a))
  {
    if Moves(a) {
      SentByStep(s, a);
      StepShape(s, a);
      assert Step(s, a).containers == s.containers[a.c := Step(s, a).containers[a.c]];
      OneContainerMoves(s, Step(s, a), a.c);
    }
  }

  /** Order survives a change that sends at most one message, the nil of a container exactly
      when that container reports success. */
  lemma {:induction false} OrderKept(s: State, t: State, m: Option<Message>)
    requires Fifo(s) && Fifo(t) && NilComesLast(s) && |s.containers| == |t.containers|
    requires t.sent == s.sent + (if m.Some? then [m.value] else [])
    requires forall c :: 0 <= c < |s.containers| && s.containers[c].phase.Returned? ==> t.containers[c] == s.containers[c]
    requires forall c :: 0 <= c < |s.containers| && t.containers[c].phase == Returned(false) ==>
      s.containers[c] == t.containers[c] || m == Some(Message(c, false))
    requires m.Some? ==> (t.containers[t.sent[|s.sent|].from].phase == Returned(false) <==> !m.value.error)
    ensures NilComesLast(t)
  {
    forall p | 0 <= p < |t.sent| && t.sent[p].error && t.containers[t.sent[p].from].phase == Returned(false)
      ensures exists q :: p < q < |t.sent| && t.sent[q] == Message(t.sent[p].from, false)
    {
      assert p < |s.sent| && s.sent[p] == t.sent[p];
      if s.containers[s.sent[p].from] == t.containers[s.sent[p].from] {
        var q :| p < q < |s.sent| && s.sent[q] == Message(s.sent[p].from, false);
        assert t.sent[q] == s.sent[q];
      } else {
        assert t.sent[|s.sent|] == Message(t.sent[p].from, false);
      }
    }
    forall p | 0 <= p < |t.sent| && !t.sent[p].error
      ensures t.containers[t.sent[p].from].phase == Returned(false)
    {
      if p < |s.sent| { assert s.sent[p] == t.sent[p]; }
    }
  }

  lemma {:induction false} NilComesLastStep(s: State, a: Action)
    requires Fifo(s) && NilComesLast(s) && Enabled(s, a) && Fifo(Step(s, a))
    ensures NilComesLast(Step(s, a))
  {
    match a
    case SendError(c, _) => OrderKept(s, Step(s, a), Some(Message(c, true)));
    case Report(c) => OrderKept(s, Step(s, a), Some(Message(c, s.containers[c].phase.failed)));
    case _ => OrderKept(s, Step(s, a), None);
  }

  lemma {:induction false} ReceiveStep(s: State)
    requires Fifo(s) && CollectorInv(s) && Enabled(s, Receive)
    ensures Fifo(Step(s, Receive)) && CollectorInv(Step(s, Receive))
  {
    var t := Step(s, Receive);
    assert s.queue == [s.queue[0]] + s.queue[1..];
    assert t.sent == t.got + t.queue;
  }

  lemma {:induction false} SendStep(s: State, a: Action)
    requires Fifo(s) && Enabled(s, a) && (a.SendError? || a.Report?)
    ensures Fifo(Step(s, a))
  {
    var t := Step(s, a);
    assert |t.containers| == |s.containers|;
    assert t.sent == t.got + t.queue;
  }

  lemma {:induction false} FifoStep(s: State, a: Action)
    requires Fifo(s) && CollectorInv(s) && Enabled(s, a)
    ensures Fifo(Step(s, a)) && CollectorInv(Step(s, a))
  {
    if a.Receive? {
      ReceiveStep(s);
    } else {
      if a.SendError? || a.Report? { SendStep(s, a); }
      var t := Step(s, a);
      assert t.got == s.got && |t.containers| == |s.containers|;
    }
  }

  lemma {:induction false} StepInv(s: State, a: Action)
    requires Inv(s) && Enabled(s, a)
    ensures Inv(Step(s, a))
  {
    StepShape(s, a);
    FifoStep(s, a);
    CountedStep(s, a);
    NilComesLastStep(s, a);
  }

  lemma {:induction false} RunInv(plans: seq<Plan>, actions: seq<Action>)
    requires ValidPlans(plans) && Runs(Start(plans), actions)
    ensures var s := Exec(Start(plans), actions);
      && Inv(s) && |s.containers| == |plans|
      && forall c :: 0 <= c < |plans| ==> s.containers[c].plan == plans[c]
  {
    if actions == [] {
      StartInv(plans);
    } else {
      var before := actions[..|actions| - 1];
      RunInv(plans, before);
      StepInv(Exec(Start(plans), before), actions[|actions| - 1]);
      StepShape(Exec(Start(plans), before), actions[|actions| - 1]);
    }
  }
}
