/**
 * The start and stop protocol of a node: Run starts the HTTP server, the pod controller and then
 * the node controller, closes the ready latch, and on the way out runs its deferred calls, the
 * last of which publishes the error and closes the done latch. Run is called once.
 */
module NodeProtocol {

  /** An error value, or nil. */
  datatype Fault = NoFault | Fault(code: nat)

  /** The error of a context cancelled by its own cancel function. */
  const CANCELED := Fault(0)

  datatype Http = NoServer | ListenFails(fault: Fault) | Serves

  datatype Callback = NoCallback | Succeeds | Fails(fault: Fault)

  datatype Config = Config(broadcaster: bool, http: Http, callback: Callback)

  datatype Controller = Controller(started: bool, ready: bool, stopped: bool, err: Fault)
  {
    predicate Running() { started && !stopped }
  }

  datatype Place =
    | Booting | StartingHttp | AwaitingPod | AwaitingNode | CallingBack | ClosingReady | Serving
    | Unwinding | Finishing | Exited

  /** Deferred calls; the last of the list runs first. */
  datatype Deferred = Finish | ShutdownBroadcaster | CloseHttp | AwaitPodDone | AwaitNodeDone

  datatype Event =
    | PodSeenReady | NodeSeenReady | CallbackSucceeded | ReadyClosed
    | NodeAwaited | PodAwaited | HttpClosed | BroadcasterShut | DoneClosed

  /** How Run left its start-up sequence. */
  datatype Exit = NotLeft | OnListenError | OnCancel | OnPodStopped | OnNodeStopped | OnCallbackError

  /** err is the field Run writes; ret is the pending return value; ctx is the context's error.
      stage counts the start-up milestones: 1 pod controller started, 2 node controller started,
      3 node controller seen ready, 4 callback passed, 5 ready latch closed. */
  datatype State = State(
    place: Place, defers: seq<Deferred>, stage: nat, exit: Exit,
    ret: Fault, err: Fault, ctx: Fault,
    ready: bool, done: bool,
    pod: Controller, node: Controller,
    serverOpen: bool, broadcasterOn: bool,
    log: seq<Event>)

  datatype Action =
    | Begin | StartHttp
    | SeeCancel | SeePodReady | SeePodStopped | SeeNodeReady | SeeNodeStopped
    | CallBack | CloseReady
    | DeferredCancel | Pop | WriteErr | CloseDone
    | ParentCancels(code: nat) | PodReadies | PodStops(err: Fault) | NodeReadies | NodeStops(err: Fault)

  const IDLE := Controller(false, false, false, NoFault)

  const START := State(Booting, [], 0, NotLeft, NoFault, NoFault, NoFault, false, false, IDLE, IDLE, false, false, [])

  function Top(s: State): Deferred
    requires s.defers != []
  {
    s.defers[|s.defers| - 1]
  }

  /** The deferred calls that first cancel the context. */
  predicate CancelsFirst(d: Deferred) { d.Finish? || d.AwaitPodDone? || d.AwaitNodeDone? }

  predicate Enabled(s: State, a: Action) {
    match a
    case Begin => s.place.Booting?
    case StartHttp => s.place.StartingHttp?
    case SeeCancel => (s.place.AwaitingPod? || s.place.AwaitingNode?) && s.ctx != NoFault
    case SeePodReady => s.place.AwaitingPod? && s.pod.ready
    case SeePodStopped => (s.place.AwaitingPod? || s.place.Serving?) && s.pod.stopped
    case SeeNodeReady => s.place.AwaitingNode? && s.node.ready
    case SeeNodeStopped => (s.place.AwaitingNode? || s.place.Serving?) && s.node.stopped
    case CallBack => s.place.CallingBack?
    case CloseReady => s.place.ClosingReady?
    case DeferredCancel => s.place.Unwinding? && s.defers != [] && CancelsFirst(Top(s)) && s.ctx == NoFault
    case Pop =>
      && s.place.Unwinding? && s.defers != []
      && (match Top(s)
          case Finish => false
          case AwaitPodDone => s.ctx != NoFault && s.pod.stopped
          case AwaitNodeDone => s.ctx != NoFault && s.node.stopped
          case _ => true)
    case WriteErr => s.place.Unwinding? && s.defers != [] && Top(s).Finish? && s.ctx != NoFault
    case CloseDone => s.place.Finishing?
    case ParentCancels(code) => s.ctx == NoFault
    case PodReadies => s.pod.Running() && !s.pod.ready
    case PodStops(_) => s.pod.Running()
    case NodeReadies => s.node.Running() && !s.node.ready
    case NodeStops(_) => s.node.Running()
  }

  function Leave(s: State, exit: Exit, ret: Fault): State {
    s.(place := Unwinding, exit := exit, ret := ret)
  }

  function Cancelled(s: State): State { if s.ctx == NoFault then s.(ctx := CANCELED) else s }

  function EventOf(d: Deferred): Event {
    match d
    case Finish => DoneClosed
    case ShutdownBroadcaster => BroadcasterShut
    case CloseHttp => HttpClosed
    case AwaitPodDone => PodAwaited
    case AwaitNodeDone => NodeAwaited
  }

  function Popped(s: State): State
    requires s.defers != []
  {
    var d := Top(s);
    s.(defers := s.defers[..|s.defers| - 1], log := s.log + [EventOf(d)],
       serverOpen := s.serverOpen && !d.CloseHttp?,
       broadcasterOn := s.broadcasterOn && !d.ShutdownBroadcaster?)
  }

  function Step(config: Config, s: State, a: Action): State {
    if !Enabled(s, a) then s else
    match a
    case Begin =>
      s.(place := StartingHttp, broadcasterOn := config.broadcaster,
         defers := [Finish] + if config.broadcaster then [ShutdownBroadcaster] else [])
    case StartHttp =>
      if config.http.ListenFails? then Leave(s, OnListenError, config.http.fault)
      else s.(place := AwaitingPod, stage := 1, serverOpen := config.http.Serves?,
              pod := s.pod.(started := true), defers := s.defers + [CloseHttp, AwaitPodDone])
    case SeeCancel =>
      if s.place.AwaitingPod? then Leave(s, OnCancel, s.err)
      else Leave(s.(err := s.ctx), OnCancel, s.ctx)
    case SeePodReady =>
      s.(place := AwaitingNode, stage := 2, node := s.node.(started := true),
         defers := s.defers + [AwaitNodeDone], log := s.log + [PodSeenReady])
    case SeePodStopped =>
      if s.place.AwaitingPod? then Leave(s, OnPodStopped, s.pod.err) else Leave(Cancelled(s), OnPodStopped, s.pod.err)
    case SeeNodeReady =>
      s.(place := if config.callback.NoCallback? then ClosingReady else CallingBack,
         stage := if config.callback.NoCallback? then 4 else 3, log := s.log + [NodeSeenReady])
    case SeeNodeStopped =>
      if s.place.AwaitingNode? then Leave(s, OnNodeStopped, s.node.err) else Leave(Cancelled(s), OnNodeStopped, s.node.err)
    case CallBack =>
      if config.callback.Fails? then Leave(s, OnCallbackError, config.callback.fault)
      else s.(place := ClosingReady, stage := 4, log := s.log + [CallbackSucceeded])
    case CloseReady => s.(place := Serving, stage := 5, ready := true, log := s.log + [ReadyClosed])
    case DeferredCancel => Cancelled(s)
    case Pop => Popped(s)
    case WriteErr => s.(err := s.ret, place := Finishing)
    case CloseDone => if s.defers == [] then s else Popped(s).(done := true, place := Exited)
    case ParentCancels(code) => s.(ctx := Fault(code))
    case PodReadies => s.(pod := s.pod.(ready := true))
    case PodStops(err) => s.(pod := s.pod.(stopped := true, err := err))
    case NodeReadies => s.(node := s.node.(ready := true))
    case NodeStops(err) => s.(node := s.node.(stopped := true, err := err))
  }

  ghost function Exec(config: Config, actions: seq<Action>): State {
    if actions == [] then START
    else Step(config, Exec(config, actions[..|actions| - 1]), actions[|actions| - 1])
  }

  ghost predicate Runs(config: Config, actions: seq<Action>) {
    actions != [] ==>
      var before := actions[..|actions| - 1];
      Runs(config, before) && Enabled(Exec(config, before), actions[|actions| - 1])
  }

  ghost predicate Stuck(s: State) { forall a: Action :: !Enabled(s, a) }

  // ---------- The order of events ----------

  /** What start-up records on its way to a stage. */
  function Startup(config: Config, stage: nat): seq<Event> {
    (if stage >= 2 then [PodSeenReady] else [])
    + (if stage >= 3 then [NodeSeenReady] else [])
    + (if stage >= 4 && !config.callback.NoCallback? then [CallbackSucceeded] else [])
    + (if stage >= 5 then [ReadyClosed] else [])
  }

  /** What shutting down records from a stage: the node controller before the pod controller, then
      the HTTP server, then the event broadcaster, and the done latch last of all. */
  function Shutdown(config: Config, stage: nat): seq<Event> {
    var last := if config.broadcaster then [BroadcasterShut, DoneClosed] else [DoneClosed];
    if stage == 0 then last
    else if stage == 1 then [PodAwaited, HttpClosed] + last
    else [NodeAwaited, PodAwaited, HttpClosed] + last
  }

  /** The deferred calls registered by the time a stage is reached. */
  ghost function Registered(config: Config, stage: nat): seq<Deferred> {
    var base := if config.broadcaster then [Finish, ShutdownBroadcaster] else [Finish];
    if stage == 0 then base
    else if stage == 1 then base + [CloseHttp, AwaitPodDone]
    else base + [CloseHttp, AwaitPodDone] + [AwaitNodeDone]
  }

  /** The events that popping a list of deferred calls records. */
  ghost function Remaining(defers: seq<Deferred>): seq<Event> {
    if defers == [] then [] else [EventOf(defers[|defers| - 1])] + Remaining(defers[..|defers| - 1])
  }

  lemma {:induction false} RemainingPush(defers: seq<Deferred>, d: Deferred)
    ensures Remaining(defers + [d]) == [EventOf(d)] + Remaining(defers)
  {
    assert (defers + [d])[..|defers|] == defers;
  }

  lemma {:induction false} BaseShutsDown(config: Config)
    ensures Remaining(Registered(config, 0)) == Shutdown(config, 0)
  {
    assert [Finish][..0] == [];
    assert Remaining([Finish]) == [DoneClosed];
    RemainingPush([Finish], ShutdownBroadcaster);
    assert [Finish] + [ShutdownBroadcaster] == [Finish, ShutdownBroadcaster];
  }

  lemma {:induction false} RegisteredShutsDown(config: Config, stage: nat)
    ensures Remaining(Registered(config, stage)) == Shutdown(config, stage)
  {
    BaseShutsDown(config);
    if stage > 0 {
      var base := Registered(config, 0);
      var one := base + [CloseHttp, AwaitPodDone];
      RemainingPush(base, CloseHttp);
      RemainingPush(base + [CloseHttp], AwaitPodDone);
      assert one == base + [CloseHttp] + [AwaitPodDone];
      assert Remaining(one) == [PodAwaited, HttpClosed] + Shutdown(config, 0);
      RemainingPush(one, AwaitNodeDone);
    }
  }

  // ---------- Invariant ----------

  ghost predicate StageOfPlace(config: Config, s: State) {
    match s.place
    case Booting => s.stage == 0
    case StartingHttp => s.stage == 0
    case AwaitingPod => s.stage == 1
    case AwaitingNode => s.stage == 2
    case CallingBack => s.stage == 3 && !config.callback.NoCallback?
    case ClosingReady => s.stage == 4
    case Serving => s.stage == 5
    case _ => s.stage != 4 && s.stage <= 5
  }

  ghost predicate Leaving(s: State) { s.place.Unwinding? || s.place.Finishing? || s.place.Exited? }

  /** Before it leaves, Run has registered exactly the stage's deferred calls; afterwards what is
      recorded and what is still deferred add up to the stage's whole record. */
  ghost predicate LogInv(config: Config, s: State) {
    if s.place.Booting? then s.log == [] && s.defers == []
    else if !Leaving(s) then s.log == Startup(config, s.stage) && s.defers == Registered(config, s.stage)
    else
      && Startup(config, s.stage) <= s.log
      && s.log + Remaining(s.defers) == Startup(config, s.stage) + Shutdown(config, s.stage)
      && (s.place.Exited? <==> s.defers == [])
      && (s.place.Finishing? ==> s.defers == [Finish])
  }

  ghost predicate FinishFirst(s: State) {
    && (s.defers != [] ==> s.defers[0] == Finish)
    && forall i :: 0 < i < |s.defers| ==> s.defers[i] != Finish
  }

  ghost predicate ControllersInv(s: State) {
    && (s.pod.started <==> s.stage >= 1)
    && (s.node.started <==> s.stage >= 2)
    && (s.pod.ready || s.pod.stopped ==> s.pod.started)
    && (s.node.ready || s.node.stopped ==> s.node.started)
    && (AwaitPodDone in s.defers ==> s.pod.started)
    && (AwaitNodeDone in s.defers ==> s.node.started)
    && (PodAwaited in s.log ==> s.pod.stopped)
    && (NodeAwaited in s.log ==> s.node.stopped)
    && (s.serverOpen ==> HttpClosed !in s.log && s.stage >= 1)
    && (s.broadcasterOn ==> BroadcasterShut !in s.log)
  }

  /** Where the pending result comes from. */
  ghost predicate Explained(config: Config, s: State) {
    (s.exit.NotLeft? <==> !Leaving(s)) &&
    match s.exit
    case NotLeft => true
    case OnListenError => s.stage == 0 && config.http.ListenFails? && s.ret == config.http.fault
    case OnCancel => s.ctx != NoFault && (s.stage == 1 || s.stage == 2) && s.ret == (if s.stage == 1 then NoFault else s.ctx)
    case OnPodStopped => (s.stage == 1 || s.stage == 5) && s.pod.stopped && s.ret == s.pod.err
    case OnNodeStopped => (s.stage == 2 || s.stage == 5) && s.node.stopped && s.ret == s.node.err
    case OnCallbackError => s.stage == 3 && config.callback.Fails? && s.ret == config.callback.fault
  }

  ghost predicate ResultInv(config: Config, s: State) {
    && Explained(config, s)
    && (s.ready <==> s.stage == 5)
    && (s.done <==> s.place.Exited?)
    && (s.err != NoFault ==> Leaving(s) && s.err == s.ret)
    && (s.place.Finishing? || s.done ==> s.err == s.ret && s.ctx != NoFault)
  }

  ghost predicate Inv(config: Config, s: State) {
    && StageOfPlace(config, s) && LogInv(config, s) && FinishFirst(s) && ControllersInv(s) && ResultInv(config, s)
    && (s.broadcasterOn ==> config.broadcaster)
  }

  /** Something the controllers or the caller do, not Run. */
  predicate Outside(a: Action) {
    a.ParentCancels? || a.PodReadies? || a.PodStops? || a.NodeReadies? || a.NodeStops?
  }

  /** Run's own part of the state is as it was; the context stays cancelled if it is, and a
      controller keeps its flags and, once stopped, its error. */
  lemma {:induction false} OutsideKept(config: Config, s: State, t: State)
    requires Inv(config, s)
    requires t == s.(ctx := t.ctx, pod := t.pod, node := t.node)
    requires s.ctx != NoFault ==> t.ctx == s.ctx
    requires t.pod.started == s.pod.started && (t.pod.ready || t.pod.stopped ==> t.pod.started)
    requires t.node.started == s.node.started && (t.node.ready || t.node.stopped ==> t.node.started)
    requires s.pod.stopped ==> t.pod.stopped && t.pod.err == s.pod.err
    requires s.node.stopped ==> t.node.stopped && t.node.err == s.node.err
    ensures Inv(config, t)
  {
    assert StageOfPlace(config, t) && LogInv(config, t) && FinishFirst(t);
    assert ControllersInv(t);
    assert ResultInv(config, t);
  }

  lemma {:induction false} OutsideStep(config: Config, s: State, a: Action)
    requires Inv(config, s) && Enabled(s, a) && Outside(a)
    ensures Inv(config, Step(config, s, a))
  {
    OutsideKept(config, s, Step(config, s, a));
  }

  lemma {:induction false} StartStepRecord(config: Config, s: State, a: Action)
    requires LogInv(config, s) && StageOfPlace(config, s)
    requires Enabled(s, a) && !Leaving(s) && !Outside(a) && !Leaving(Step(config, s, a))
    ensures var t := Step(config, s, a);
      && StageOfPlace(config, t)
      && t.log == Startup(config, t.stage) && t.defers == Registered(config, t.stage)
  {
  }

  lemma {:induction false} StartStep(config: Config, s: State, a: Action)
    requires Inv(config, s) && Enabled(s, a) && !Leaving(s) && !Outside(a) && !Leaving(Step(config, s, a))
    ensures Inv(config, Step(config, s, a))
  {
    StartStepRecord(config, s, a);
    StartStepRest(config, s, a);
  }

  lemma {:induction false} StartStepRest(config: Config, s: State, a: Action)
    requires StageOfPlace(config, s) && ControllersInv(s) && ResultInv(config, s) && (s.broadcasterOn ==> config.broadcaster)
    requires Enabled(s, a) && !Leaving(s) && !Outside(a) && !Leaving(Step(config, s, a))
    requires Step(config, s, a).log == Startup(config, Step(config, s, a).stage)
    ensures var t := Step(config, s, a);
      ControllersInv(t) && ResultInv(config, t) && (t.broadcasterOn ==> config.broadcaster)
  {
  }

  /** Leaving changes only the place, the result, and perhaps the context and the error field. */
  lemma {:induction false} Left(config: Config, s: State, t: State)
    requires Inv(config, s) && !Leaving(s)
    requires t == s.(place := Unwinding, exit := t.exit, ret := t.ret, err := t.err, ctx := t.ctx)
    requires s.stage != 4 && !s.place.Booting? && !t.exit.NotLeft? && Explained(config, t)
    requires t.err == NoFault || t.err == t.ret
    ensures Inv(config, t)
  {
    RegisteredShutsDown(config, s.stage);
  }

  lemma {:induction false} LeaveFacts(config: Config, s: State, a: Action)
    requires StageOfPlace(config, s) && ResultInv(config, s)
    requires Enabled(s, a) && !Leaving(s) && Leaving(Step(config, s, a))
    ensures var t := Step(config, s, a);
      && t == s.(place := Unwinding, exit := t.exit, ret := t.ret, err := t.err, ctx := t.ctx)
      && s.stage != 4 && !s.place.Booting? && !t.exit.NotLeft?
      && (t.err == NoFault || t.err == t.ret)
      && Explained(config, t)
  {
  }

  lemma {:induction false} LeaveStep(config: Config, s: State, a: Action)
    requires Inv(config, s) && Enabled(s, a) && !Leaving(s) && Leaving(Step(config, s, a))
    ensures Inv(config, Step(config, s, a))
  {
    LeaveFacts(config, s, a);
    Left(config, s, Step(config, s, a));
  }

  lemma {:induction false} PopRecord(config: Config, s: State)
    requires Leaving(s) && LogInv(config, s) && FinishFirst(s) && s.defers != []
    ensures FinishFirst(Popped(s)) && Startup(config, s.stage) <= Popped(s).log
    ensures Popped(s).log + Remaining(Popped(s).defers) == Startup(config, s.stage) + Shutdown(config, s.stage)
    ensures Popped(s).defers == [] <==> Top(s).Finish?
  {
    var rest := Remaining(Popped(s).defers);
    assert s.log + ([EventOf(Top(s))] + rest) == Popped(s).log + rest;
  }

  lemma {:induction false} PopControllers(s: State)
    requires ControllersInv(s) && s.defers != []
    requires Top(s).AwaitPodDone? ==> s.pod.stopped
    requires Top(s).AwaitNodeDone? ==> s.node.stopped
    ensures ControllersInv(Popped(s))
  {
    assert forall d :: d in Popped(s).defers ==> d in s.defers;
  }

  lemma {:induction false} PopStep(config: Config, s: State, a: Action)
    requires Inv(config, s) && Enabled(s, a) && (a.Pop? || a.CloseDone?)
    ensures Inv(config, Step(config, s, a))
  {
    PopRecord(config, s);
    PopControllers(s);
  }

  lemma {:induction false} UnwindStep(config: Config, s: State, a: Action)
    requires Inv(config, s) && Enabled(s, a) && (a.DeferredCancel? || a.WriteErr?)
    ensures Inv(config, Step(config, s, a))
  {
  }

  lemma {:induction false} StepInv(config: Config, s: State, a: Action)
    requires Inv(config, s) && Enabled(s, a)
    ensures Inv(config, Step(config, s, a))
  {
    if Outside(a) {
      OutsideStep(config, s, a);
    } else if a.Pop? || a.CloseDone? {
      PopStep(config, s, a);
    } else if a.DeferredCancel? || a.WriteErr? {
      UnwindStep(config, s, a);
    } else if Leaving(Step(config, s, a)) {
      LeaveStep(config, s, a);
    } else {
      StartStep(config, s, a);
    }
  }

  lemma {:induction false} RunInv(config: Config, actions: seq<Action>)
    requires Runs(config, actions)
    ensures Inv(config, Exec(config, actions))
  {
    if actions != [] {
      RunInv(config, actions[..|actions| - 1]);
      StepInv(config, Exec(config, actions[..|actions| - 1]), actions[|actions| - 1]);
    }
  }
}
