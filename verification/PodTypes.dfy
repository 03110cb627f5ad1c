/** The parts of a pod and its status that the provider reads and writes. */
module PodTypes {
  import opened Collections

  /** Instants; the zero instant is the zero value of a timestamp. */
  type Time = int

  const ZERO_TIME: Time := 0

  /** At most one of the state pointers is ever set; Unset is the zero value, where none is. */
  datatype ContainerState =
    | Unset
    | Running(startedAt: Time)
    | Terminated(startedAt: Time, finishedAt: Time, exitCode: int, reason: string, message: string)

  datatype ContainerStatus = ContainerStatus(
    name: string, state: ContainerState, ready: bool, image: string, imageID: string, containerID: string)

  const ZERO_STATUS := ContainerStatus("", Unset, false, "", "", "")

  datatype Phase = Pending | PhaseRunning | Succeeded | Failed | Unknown

  datatype ConditionType = PodScheduled | PodInitialized | PodReady

  datatype Condition = Condition(kind: ConditionType, holds: bool, lastTransition: Time)

  datatype PodStatus = PodStatus(
    phase: Phase,
    reason: string,
    message: string,
    startTime: Option<Time>,
    podIP: string,
    conditions: seq<Condition>,
    containers: seq<ContainerStatus>)

  /** What a pod's specification says of one container: name, and the volume its script comes from. */
  datatype ContainerSpec = ContainerSpec(name: string, image: string)

  function Digit(n: nat): char
    requires n < 10
  {
    "0123456789"[n]
  }

  /** A process group as container ids write it. */
  function Decimal(n: nat): string { if n < 10 then [Digit(n)] else Decimal(n / 10) + [Digit(n % 10)] }

  /** The number a text of digits stands for. */
  function Number(text: string): nat {
    if text == [] then 0
    else
      var d := text[|text| - 1];
      10 * Number(text[..|text| - 1]) + if '0' <= d <= '9' then (d as int) - ('0' as int) else 0
  }

  lemma {:induction false} DecimalReadsBack(n: nat)
    ensures Number(Decimal(n)) == n
    ensures forall k :: 0 <= k < |Decimal(n)| ==> '0' <= Decimal(n)[k] <= '9'
  {
    var text := Decimal(n);
    assert text[|text| - 1] == Digit(n % 10);
    assert (Digit(n % 10) as int) - ('0' as int) == n % 10;
    if n < 10 {
      assert text[..0] == [] && Number(text[..0]) == 0;
    } else {
      DecimalReadsBack(n / 10);
      assert text[..|text| - 1] == Decimal(n / 10);
    }
  }

  lemma {:induction false} DecimalIsInjective(m: nat, n: nat)
    requires Decimal(m) == Decimal(n)
    ensures m == n
  {
    DecimalReadsBack(m);
    DecimalReadsBack(n);
  }

  predicate Bad(status: ContainerStatus) { status.state.Terminated? && status.state.exitCode != 0 }

  /** Every status reports a failure (vacuously, if there is none). */
  predicate AllBad(statuses: seq<ContainerStatus>) { forall k :: 0 <= k < |statuses| ==> Bad(statuses[k]) }

  /** The first status of that name, as a scan of the list finds it. */
  function Find(statuses: seq<ContainerStatus>, name: string): (r: Option<ContainerStatus>)
    ensures r.Some? ==> r.value in statuses && r.value.name == name
    ensures r.None? <==> forall s :: s in statuses ==> s.name != name
  {
    if statuses == [] then None
    else if statuses[0].name == name then Some(statuses[0])
    else Find(statuses[1..], name)
  }

  /** The status of the pod's condition of that kind. */
  predicate ConditionTrue(status: PodStatus, kind: ConditionType) {
    exists c :: c in status.conditions && c.kind == kind && c.holds
  }
}
