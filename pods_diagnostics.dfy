/**
 * The pods check: one pass over the listed pods that reports a phase other than
 * Running, conditions whose status is "False", restarted, waiting and terminated
 * containers, and, for pods that have container statuses, the host and start time.
 */
module PodsDiagnostic {
  import opened Wrappers
  import opened Kube
  import opened Report
  import opened Seqs
  import opened Decimal

  datatype Pod = Pod(metadata: ObjectMeta, status: Option<PodStatus>)

  datatype PodStatus = PodStatus(
    phase: Option<string>,
    conditions: Option<seq<PodCondition>>,
    containerStatuses: Option<seq<ContainerStatus>>,
    hostIp: Option<string>,
    startTime: Option<Time>)

  datatype PodCondition = PodCondition(conditionType: string, status: string, message: Option<string>)

  datatype ContainerStatus = ContainerStatus(restartCount: i32, state: Option<ContainerState>)

  datatype ContainerState = ContainerState(
    waiting: Option<ContainerStateWaiting>,
    terminated: Option<ContainerStateTerminated>)

  datatype ContainerStateWaiting = ContainerStateWaiting(reason: Option<string>, message: Option<string>)

  datatype ContainerStateTerminated = ContainerStateTerminated(reason: Option<string>, exitCode: i32)

  /** The resource of every issue about a pod: its name, or "" when it has none. */
  function PodName(pod: Pod): string {
    pod.metadata.name.GetOr("")
  }

  // ---------------------------------------------------------------------------
  // Messages, as the `format!` calls write them

  function PhaseMessage(phase: string): string {
    "Phase: " + phase
  }

  function ConditionMessage(condition: PodCondition): string {
    condition.conditionType + ": " + condition.message.GetOr("")
  }

  function RestartMessage(restartCount: i32): string {
    "Restart Count: " + IntToString(restartCount)
  }

  function WaitingMessage(waiting: ContainerStateWaiting): string {
    "Waiting: " + waiting.reason.GetOr("<no reason>") + " " + waiting.message.GetOr("<no message>")
  }

  function TerminatedMessage(terminated: ContainerStateTerminated): string {
    "Terminated: " + terminated.reason.GetOr("<no reason>") + " (exit " + IntToString(terminated.exitCode) + ")"
  }

  /** The placement message says "Terminated: " although it names the host. */
  function HostMessage(status: PodStatus): string {
    "Terminated: " + status.hostIp.GetOr("<no node>")
  }

  function StartMessage(startTime: Time, rfc3339: DateTime -> string): string {
    "Started at: " + rfc3339(startTime.instant)
  }

  // ---------------------------------------------------------------------------
  // The issues of one pod, rule by rule, in the order the check emits them

  function PhaseIssues(name: string, status: PodStatus): seq<DiagnosticIssue> {
    match status.phase
    case Some(phase) => if phase != "Running" then [NewIssue(name, PhaseMessage(phase), Warning)] else []
    case None => []
  }

  predicate IsFalse(condition: PodCondition) {
    condition.status == "False"
  }

  function ConditionIssue(name: string, condition: PodCondition): DiagnosticIssue {
    NewIssue(name, ConditionMessage(condition), Error)
  }

  function ConditionIssues(name: string, condition: PodCondition): seq<DiagnosticIssue> {
    if IsFalse(condition) then [ConditionIssue(name, condition)] else []
  }

  function ConditionsIssues(name: string, conditions: seq<PodCondition>): seq<DiagnosticIssue> {
    ConcatMap(conditions, condition => ConditionIssues(name, condition))
  }

  function RestartIssues(name: string, cs: ContainerStatus): seq<DiagnosticIssue> {
    if cs.restartCount > 0 then [NewIssue(name, RestartMessage(cs.restartCount), Error)] else []
  }

  function WaitingIssues(name: string, state: ContainerState): seq<DiagnosticIssue> {
    match state.waiting
    case Some(waiting) => [NewIssue(name, WaitingMessage(waiting), Error)]
    case None => []
  }

  function TerminatedIssues(name: string, state: ContainerState): seq<DiagnosticIssue> {
    match state.terminated
    case Some(terminated) => [NewIssue(name, TerminatedMessage(terminated), Error)]
    case None => []
  }

  /** The state issues of a container: its waiting issue, then its terminated issue. */
  function StateIssues(name: string, cs: ContainerStatus): seq<DiagnosticIssue> {
    match cs.state
    case Some(state) => WaitingIssues(name, state) + TerminatedIssues(name, state)
    case None => []
  }

  function ContainerIssues(name: string, cs: ContainerStatus): seq<DiagnosticIssue> {
    RestartIssues(name, cs) + StateIssues(name, cs)
  }

  function ContainersIssues(name: string, containerStatuses: seq<ContainerStatus>): seq<DiagnosticIssue> {
    ConcatMap(containerStatuses, cs => ContainerIssues(name, cs))
  }

  function StartIssues(name: string, status: PodStatus, rfc3339: DateTime -> string): seq<DiagnosticIssue> {
    match status.startTime
    case Some(startTime) => [NewIssue(name, StartMessage(startTime, rfc3339), Info)]
    case None => []
  }

  /** Host and start time are reported only inside the container-statuses branch. */
  function PlacementIssues(name: string, status: PodStatus, rfc3339: DateTime -> string): seq<DiagnosticIssue> {
    match status.containerStatuses
    case Some(_) => [NewIssue(name, HostMessage(status), Info)] + StartIssues(name, status, rfc3339)
    case None => []
  }

  function ContainerPartIssues(name: string, status: PodStatus): seq<DiagnosticIssue> {
    match status.containerStatuses
    case Some(containerStatuses) => ContainersIssues(name, containerStatuses)
    case None => []
  }

  function StatusIssues(name: string, status: PodStatus, rfc3339: DateTime -> string): seq<DiagnosticIssue> {
    PhaseIssues(name, status)
    + ConditionsIssues(name, status.conditions.GetOr([]))
    + ContainerPartIssues(name, status)
    + PlacementIssues(name, status, rfc3339)
  }

  /** A pod without a status contributes nothing. */
  function PodIssues(pod: Pod, rfc3339: DateTime -> string): seq<DiagnosticIssue> {
    match pod.status
    case Some(status) => StatusIssues(PodName(pod), status, rfc3339)
    case None => []
  }

  /** The issues of a pod list: each pod's issues, pod after pod in list order. */
  function PodsIssues(pods: seq<Pod>, rfc3339: DateTime -> string): seq<DiagnosticIssue> {
    ConcatMap(pods, pod => PodIssues(pod, rfc3339))
  }

  // ---------------------------------------------------------------------------
  // The check

  /**
   * `PodsDiagnostic::run` after the list call: `listed` is what the call returned
   * and `rfc3339` is chrono's `to_rfc3339`.
   */
  method Run(listed: Listing<Pod>, rfc3339: DateTime -> string) returns (r: Outcome)
    ensures listed.Failure? ==> r == Failure(ListFailed(listed.error))
    ensures listed.Success? ==>
      r == Success(DiagnosticReport(Summary(|listed.value|, "pods"), PodsIssues(listed.value, rfc3339)))
  {
    if listed.Failure? {
      return Failure(ListFailed(listed.error));
    }
    var items := listed.value;
    var count := |items|;
    var issues: seq<DiagnosticIssue> := [];

    for i := 0 to |items|
      invariant issues == PodsIssues(items[..i], rfc3339)
    {
      var pod := items[i];
      issues := CheckPod(issues, pod, rfc3339);
      assert items[..i + 1] == items[..i] + [pod];
      PodsIssuesSnoc(items[..i], pod, rfc3339);
    }

    assert items[..|items|] == items;
    return Success(DiagnosticReport(Summary(count, "pods"), issues));
  }

  /** The body of the loop over pods: pushes the issues of `pod` onto `issues`. */
  method CheckPod(issues: seq<DiagnosticIssue>, pod: Pod, rfc3339: DateTime -> string)
    returns (pushed: seq<DiagnosticIssue>)
    ensures pushed == issues + PodIssues(pod, rfc3339)
  {
    pushed := issues;
    var name := pod.metadata.name.GetOr("");
    if pod.status.Some? {
      var status := pod.status.value;
      if status.phase.Some? {
        var phase := status.phase.value;
        if phase != "Running" {
          pushed := pushed + [NewIssue(name, PhaseMessage(phase), Warning)];
        }
      }
      ghost var afterPhase := pushed;
      assert afterPhase == issues + PhaseIssues(name, status);

      if status.conditions.Some? {
        pushed := CheckConditions(pushed, name, status.conditions.value);
      }
      ghost var afterConditions := pushed;
      assert afterConditions == afterPhase + ConditionsIssues(name, status.conditions.GetOr([]));

      if status.containerStatuses.Some? {
        pushed := CheckContainers(pushed, name, status.containerStatuses.value);
        ghost var afterContainers := pushed;

        // show which node the pod is running on
        var nodeName := status.hostIp.GetOr("<no node>");
        pushed := pushed + [NewIssue(name, "Terminated: " + nodeName, Info)];

        // show when the pod started
        if status.startTime.Some? {
          pushed := pushed + [NewIssue(name, StartMessage(status.startTime.value, rfc3339), Info)];
        }
        assert pushed == afterContainers + PlacementIssues(name, status, rfc3339);
      }
      assert pushed == afterConditions + ContainerPartIssues(name, status) + PlacementIssues(name, status, rfc3339);

      ghost var phase, conditions := PhaseIssues(name, status), ConditionsIssues(name, status.conditions.GetOr([]));
      ghost var containers, placement := ContainerPartIssues(name, status), PlacementIssues(name, status, rfc3339);
      AppendAssoc(afterConditions, containers, placement);
      AppendAssoc(issues, phase, conditions);
      AppendAssoc(issues, phase + conditions, containers + placement);
      AppendAssoc(phase + conditions, containers, placement);
      assert pushed == issues + StatusIssues(name, status, rfc3339);
    } else {
      assert issues + [] == issues;
    }
  }

  /** The loop over a pod's conditions. */
  method CheckConditions(issues: seq<DiagnosticIssue>, name: string, conditions: seq<PodCondition>)
    returns (pushed: seq<DiagnosticIssue>)
    ensures pushed == issues + ConditionsIssues(name, conditions)
  {
    pushed := issues;
    for j := 0 to |conditions|
      invariant pushed == issues + ConditionsIssues(name, conditions[..j])
    {
      var condition := conditions[j];
      if condition.status == "False" {
        pushed := pushed + [NewIssue(name, ConditionMessage(condition), Error)];
      }
      assert conditions[..j + 1] == conditions[..j] + [condition];
      ConcatMapSnoc(conditions[..j], condition, c => ConditionIssues(name, c));
      AppendAssoc(issues, ConditionsIssues(name, conditions[..j]), ConditionIssues(name, condition));
    }
    assert conditions[..|conditions|] == conditions;
  }

  /** One more container status processed appends that container's issues. */
  lemma ContainersIssuesPrefix(name: string, containerStatuses: seq<ContainerStatus>, j: nat)
    requires j < |containerStatuses|
    ensures ContainersIssues(name, containerStatuses[..j + 1])
      == ContainersIssues(name, containerStatuses[..j]) + ContainerIssues(name, containerStatuses[j])
  {
    assert containerStatuses[..j + 1] == containerStatuses[..j] + [containerStatuses[j]];
    ConcatMapSnoc(containerStatuses[..j], containerStatuses[j], c => ContainerIssues(name, c));
  }

  /** The loop over a pod's container statuses. */
  method CheckContainers(issues: seq<DiagnosticIssue>, name: string, containerStatuses: seq<ContainerStatus>)
    returns (pushed: seq<DiagnosticIssue>)
    ensures pushed == issues + ContainersIssues(name, containerStatuses)
  {
    pushed := issues;
    for j := 0 to |containerStatuses|
      invariant pushed == issues + ContainersIssues(name, containerStatuses[..j])
    {
      var cs := containerStatuses[j];
      pushed := CheckContainer(pushed, name, cs);
      ContainersIssuesPrefix(name, containerStatuses, j);
      AppendAssoc(issues, ContainersIssues(name, containerStatuses[..j]), ContainerIssues(name, cs));
    }
    assert containerStatuses[..|containerStatuses|] == containerStatuses;
  }

  /** The body of the loop over container statuses. */
  method CheckContainer(issues: seq<DiagnosticIssue>, name: string, cs: ContainerStatus)
    returns (pushed: seq<DiagnosticIssue>)
    ensures pushed == issues + ContainerIssues(name, cs)
  {
    pushed := issues;
    if cs.restartCount > 0 {
      pushed := pushed + [NewIssue(name, RestartMessage(cs.restartCount), Error)];
    }
    if cs.state.Some? {
      var state := cs.state.value;
      if state.waiting.Some? {
        pushed := pushed + [NewIssue(name, WaitingMessage(state.waiting.value), Error)];
      }
      if state.terminated.Some? {
        pushed := pushed + [NewIssue(name, TerminatedMessage(state.terminated.value), Error)];
      }
    }
  }

  // ---------------------------------------------------------------------------
  // What the check promises

  lemma ConditionsIssuesAreAbout(name: string, conditions: seq<PodCondition>)
    ensures forall issue :: issue in ConditionsIssues(name, conditions) ==> issue.resource == name
  {
    ConcatMapAll(conditions, c => ConditionIssues(name, c), (issue: DiagnosticIssue) => issue.resource == name);
  }

  lemma ContainersIssuesAreAbout(name: string, containerStatuses: seq<ContainerStatus>)
    ensures forall issue :: issue in ContainersIssues(name, containerStatuses) ==> issue.resource == name
  {
    ConcatMapAll(containerStatuses, cs => ContainerIssues(name, cs), (issue: DiagnosticIssue) => issue.resource == name);
  }

  /** Every issue about a pod carries the pod's name, or "" when it has none. */
  lemma PodIssuesNamePod(pod: Pod, rfc3339: DateTime -> string)
    ensures forall issue :: issue in PodIssues(pod, rfc3339) ==> issue.resource == PodName(pod)
  {
    if pod.status.Some? {
      var status := pod.status.value;
      ConditionsIssuesAreAbout(PodName(pod), status.conditions.GetOr([]));
      if status.containerStatuses.Some? {
        ContainersIssuesAreAbout(PodName(pod), status.containerStatuses.value);
      }
    }
  }

  // Severity, rule by rule

  lemma PhaseIssuesOfSeverity(name: string, status: PodStatus, severity: Severity)
    ensures OfSeverity(PhaseIssues(name, status), severity) == if severity == Warning then PhaseIssues(name, status) else []
  {
    if PhaseIssues(name, status) != [] {
      OfSeveritySingleton(PhaseIssues(name, status)[0], severity);
    }
  }

  lemma {:induction false} ConditionsIssuesOfSeverity(name: string, conditions: seq<PodCondition>, severity: Severity)
    ensures OfSeverity(ConditionsIssues(name, conditions), severity) ==
      if severity == Error then ConditionsIssues(name, conditions) else []
  {
    if conditions != [] {
      var init, last := conditions[..|conditions| - 1], conditions[|conditions| - 1];
      assert conditions == init + [last];
      ConcatMapSnoc(init, last, c => ConditionIssues(name, c));
      ConditionsIssuesOfSeverity(name, init, severity);
      OfSeverityAppend(ConditionsIssues(name, init), ConditionIssues(name, last), severity);
      if IsFalse(last) {
        OfSeveritySingleton(ConditionIssue(name, last), severity);
      }
    }
  }

  lemma {:induction false} StateIssuesOfSeverity(name: string, cs: ContainerStatus, severity: Severity)
    ensures OfSeverity(StateIssues(name, cs), severity) == if severity == Error then StateIssues(name, cs) else []
  {
    assert AllOfSeverity(StateIssues(name, cs), Error) by {
      if cs.state.Some? {
        var waiting, terminated := WaitingIssues(name, cs.state.value), TerminatedIssues(name, cs.state.value);
        assert AllOfSeverity(waiting, Error) && AllOfSeverity(terminated, Error);
        AllOfSeverityAppend(waiting, terminated, Error);
      }
    }
    OfSeverityUniform(StateIssues(name, cs), Error, severity);
  }

  lemma ContainerIssuesOfSeverity(name: string, cs: ContainerStatus, severity: Severity)
    ensures OfSeverity(ContainerIssues(name, cs), severity) == if severity == Error then ContainerIssues(name, cs) else []
  {
    var restart := RestartIssues(name, cs);
    if restart != [] {
      OfSeveritySingleton(restart[0], severity);
    }
    StateIssuesOfSeverity(name, cs, severity);
    OfSeverityAppend(restart, StateIssues(name, cs), severity);
  }

  lemma {:induction false} ContainersIssuesOfSeverity(name: string, containerStatuses: seq<ContainerStatus>, severity: Severity)
    ensures OfSeverity(ContainersIssues(name, containerStatuses), severity) ==
      if severity == Error then ContainersIssues(name, containerStatuses) else []
  {
    if containerStatuses != [] {
      var init, last := containerStatuses[..|containerStatuses| - 1], containerStatuses[|containerStatuses| - 1];
      assert containerStatuses == init + [last];
      ConcatMapSnoc(init, last, c => ContainerIssues(name, c));
      ContainersIssuesOfSeverity(name, init, severity);
      OfSeverityAppend(ContainersIssues(name, init), ContainerIssues(name, last), severity);
      ContainerIssuesOfSeverity(name, last, severity);
    }
  }

  lemma {:induction false} PlacementIssuesOfSeverity(name: string, status: PodStatus, rfc3339: DateTime -> string, severity: Severity)
    ensures OfSeverity(PlacementIssues(name, status, rfc3339), severity) ==
      if severity == Info then PlacementIssues(name, status, rfc3339) else []
  {
    assert AllOfSeverity(PlacementIssues(name, status, rfc3339), Info) by {
      if status.containerStatuses.Some? {
        var host, start := [NewIssue(name, HostMessage(status), Info)], StartIssues(name, status, rfc3339);
        assert AllOfSeverity(host, Info) && AllOfSeverity(start, Info);
        AllOfSeverityAppend(host, start, Info);
      }
    }
    OfSeverityUniform(PlacementIssues(name, status, rfc3339), Info, severity);
  }

  /** The issues of one severity about a pod with a status, split rule by rule. */
  lemma StatusIssuesSplit(name: string, status: PodStatus, rfc3339: DateTime -> string, severity: Severity)
    ensures OfSeverity(StatusIssues(name, status, rfc3339), severity) ==
      OfSeverity(PhaseIssues(name, status), severity)
      + OfSeverity(ConditionsIssues(name, status.conditions.GetOr([])), severity)
      + OfSeverity(ContainerPartIssues(name, status), severity)
      + OfSeverity(PlacementIssues(name, status, rfc3339), severity)
  {
    var phase, conditions := PhaseIssues(name, status), ConditionsIssues(name, status.conditions.GetOr([]));
    var containers, placement := ContainerPartIssues(name, status), PlacementIssues(name, status, rfc3339);
    OfSeverityAppend(phase + conditions + containers, placement, severity);
    OfSeverityAppend(phase + conditions, containers, severity);
    OfSeverityAppend(phase, conditions, severity);
  }

  lemma ContainerPartIssuesOfSeverity(name: string, status: PodStatus, severity: Severity)
    ensures OfSeverity(ContainerPartIssues(name, status), severity) ==
      if severity == Error then ContainerPartIssues(name, status) else []
  {
    if status.containerStatuses.Some? {
      ContainersIssuesOfSeverity(name, status.containerStatuses.value, severity);
    }
  }

  lemma StatusWarnings(name: string, status: PodStatus, rfc3339: DateTime -> string)
    ensures OfSeverity(StatusIssues(name, status, rfc3339), Warning) == PhaseIssues(name, status)
  {
    var phase, conditions := PhaseIssues(name, status), ConditionsIssues(name, status.conditions.GetOr([]));
    var containers, placement := ContainerPartIssues(name, status), PlacementIssues(name, status, rfc3339);
    StatusIssuesSplit(name, status, rfc3339, Warning);
    assert OfSeverity(phase, Warning) == phase by { PhaseIssuesOfSeverity(name, status, Warning); }
    assert OfSeverity(conditions, Warning) == [] by { ConditionsIssuesOfSeverity(name, status.conditions.GetOr([]), Warning); }
    assert OfSeverity(containers, Warning) == [] by { ContainerPartIssuesOfSeverity(name, status, Warning); }
    assert OfSeverity(placement, Warning) == [] by { PlacementIssuesOfSeverity(name, status, rfc3339, Warning); }
    JoinWithEmpty(phase, [], [], []);
  }

  lemma StatusErrors(name: string, status: PodStatus, rfc3339: DateTime -> string)
    ensures OfSeverity(StatusIssues(name, status, rfc3339), Error) ==
      ConditionsIssues(name, status.conditions.GetOr([])) + ContainerPartIssues(name, status)
  {
    var phase, conditions := PhaseIssues(name, status), ConditionsIssues(name, status.conditions.GetOr([]));
    var containers, placement := ContainerPartIssues(name, status), PlacementIssues(name, status, rfc3339);
    StatusIssuesSplit(name, status, rfc3339, Error);
    assert OfSeverity(phase, Error) == [] by { PhaseIssuesOfSeverity(name, status, Error); }
    assert OfSeverity(conditions, Error) == conditions by { ConditionsIssuesOfSeverity(name, status.conditions.GetOr([]), Error); }
    assert OfSeverity(containers, Error) == containers by { ContainerPartIssuesOfSeverity(name, status, Error); }
    assert OfSeverity(placement, Error) == [] by { PlacementIssuesOfSeverity(name, status, rfc3339, Error); }
    JoinWithEmpty([], conditions, containers, []);
  }

  lemma StatusInfos(name: string, status: PodStatus, rfc3339: DateTime -> string)
    ensures OfSeverity(StatusIssues(name, status, rfc3339), Info) == PlacementIssues(name, status, rfc3339)
  {
    var phase, conditions := PhaseIssues(name, status), ConditionsIssues(name, status.conditions.GetOr([]));
    var containers, placement := ContainerPartIssues(name, status), PlacementIssues(name, status, rfc3339);
    StatusIssuesSplit(name, status, rfc3339, Info);
    assert OfSeverity(phase, Info) == [] by { PhaseIssuesOfSeverity(name, status, Info); }
    assert OfSeverity(conditions, Info) == [] by { ConditionsIssuesOfSeverity(name, status.conditions.GetOr([]), Info); }
    assert OfSeverity(containers, Info) == [] by { ContainerPartIssuesOfSeverity(name, status, Info); }
    assert OfSeverity(placement, Info) == placement by { PlacementIssuesOfSeverity(name, status, rfc3339, Info); }
    JoinWithEmpty([], [], [], placement);
  }

  /**
   * The only warning about a pod is its phase: one issue "Phase: <phase>" when the
   * phase is present and is not "Running", and none otherwise.
   */
  lemma PodWarnings(pod: Pod, rfc3339: DateTime -> string)
    ensures OfSeverity(PodIssues(pod, rfc3339), Warning) ==
      if pod.status.Some? && pod.status.value.phase.Some? && pod.status.value.phase.value != "Running"
      then [NewIssue(PodName(pod), "Phase: " + pod.status.value.phase.value, Warning)]
      else []
  {
    if pod.status.Some? {
      StatusWarnings(PodName(pod), pod.status.value, rfc3339);
    }
  }

  /**
   * The errors about a pod are its "False" conditions' issues followed by its
   * containers' issues; a pod without a status has none.
   */
  lemma PodErrors(pod: Pod, rfc3339: DateTime -> string)
    ensures OfSeverity(PodIssues(pod, rfc3339), Error) ==
      match pod.status
      case Some(status) =>
        ConditionsIssues(PodName(pod), status.conditions.GetOr([])) + ContainerPartIssues(PodName(pod), status)
      case None => []
  {
    if pod.status.Some? {
      StatusErrors(PodName(pod), pod.status.value, rfc3339);
    }
  }

  /**
   * The informational issues about a pod are the host issue and, when there is a
   * start time, the start issue, and only when its container statuses are present
   * (an empty list included).
   */
  lemma PodInfos(pod: Pod, rfc3339: DateTime -> string)
    ensures OfSeverity(PodIssues(pod, rfc3339), Info) ==
      if pod.status.Some? && pod.status.value.containerStatuses.Some? then
        [NewIssue(PodName(pod), "Terminated: " + pod.status.value.hostIp.GetOr("<no node>"), Info)]
        + match pod.status.value.startTime
          case Some(startTime) => [NewIssue(PodName(pod), "Started at: " + rfc3339(startTime.instant), Info)]
          case None => []
      else []
  {
    if pod.status.Some? {
      StatusInfos(PodName(pod), pod.status.value, rfc3339);
    }
  }

  /** Each condition whose status is "False" gives one error, in condition order. */
  lemma {:induction false} ConditionsIssuesInOrder(name: string, conditions: seq<PodCondition>)
    ensures |ConditionsIssues(name, conditions)| == |Filter(conditions, IsFalse)|
    ensures forall k :: 0 <= k < |Filter(conditions, IsFalse)| ==>
      var condition := Filter(conditions, IsFalse)[k];
      ConditionsIssues(name, conditions)[k] ==
        NewIssue(name, condition.conditionType + ": " + condition.message.GetOr(""), Error)
  {
    ConcatMapOfOptional(conditions, c => ConditionIssues(name, c), IsFalse, c => ConditionIssue(name, c));
  }

  // Container issues, kind by kind

  predicate IsRestartIssue(issue: DiagnosticIssue) {
    "Restart Count: " <= issue.message
  }

  predicate IsWaitingIssue(issue: DiagnosticIssue) {
    "Waiting: " <= issue.message
  }

  predicate IsTerminatedIssue(issue: DiagnosticIssue) {
    "Terminated: " <= issue.message
  }

  predicate Restarted(cs: ContainerStatus) {
    cs.restartCount > 0
  }

  predicate IsWaiting(cs: ContainerStatus) {
    cs.state.Some? && cs.state.value.waiting.Some?
  }

  predicate IsTerminated(cs: ContainerStatus) {
    cs.state.Some? && cs.state.value.terminated.Some?
  }

  lemma RestartIssuesKinds(name: string, cs: ContainerStatus)
    ensures Filter(RestartIssues(name, cs), IsRestartIssue) == RestartIssues(name, cs)
    ensures Filter(RestartIssues(name, cs), IsWaitingIssue) == []
    ensures Filter(RestartIssues(name, cs), IsTerminatedIssue) == []
  {
    if Restarted(cs) {
      var issue := NewIssue(name, RestartMessage(cs.restartCount), Error);
      assert issue.message[0] == 'R';
      FilterSingleton(issue, IsRestartIssue);
      FilterSingleton(issue, IsWaitingIssue);
      FilterSingleton(issue, IsTerminatedIssue);
    }
  }

  lemma WaitingIssuesKinds(name: string, state: ContainerState)
    ensures Filter(WaitingIssues(name, state), IsRestartIssue) == []
    ensures Filter(WaitingIssues(name, state), IsWaitingIssue) == WaitingIssues(name, state)
    ensures Filter(WaitingIssues(name, state), IsTerminatedIssue) == []
  {
    if state.waiting.Some? {
      var issue := NewIssue(name, WaitingMessage(state.waiting.value), Error);
      assert issue.message[0] == 'W';
      FilterSingleton(issue, IsRestartIssue);
      FilterSingleton(issue, IsWaitingIssue);
      FilterSingleton(issue, IsTerminatedIssue);
    }
  }

  lemma TerminatedMessageStart(terminated: ContainerStateTerminated)
    ensures "Terminated: " <= TerminatedMessage(terminated)
    ensures TerminatedMessage(terminated)[0] == 'T'
  {
  }

  lemma TerminatedIssuesKinds(name: string, state: ContainerState)
    ensures Filter(TerminatedIssues(name, state), IsRestartIssue) == []
    ensures Filter(TerminatedIssues(name, state), IsWaitingIssue) == []
    ensures Filter(TerminatedIssues(name, state), IsTerminatedIssue) == TerminatedIssues(name, state)
  {
    if state.terminated.Some? {
      var issue := NewIssue(name, TerminatedMessage(state.terminated.value), Error);
      TerminatedMessageStart(state.terminated.value);
      FilterSingleton(issue, IsRestartIssue);
      FilterSingleton(issue, IsWaitingIssue);
      FilterSingleton(issue, IsTerminatedIssue);
    }
  }

  /** Of one container's issues, the restart issues are its restart issue if it has restarted. */
  lemma ContainerRestartIssues(name: string, cs: ContainerStatus)
    ensures Filter(ContainerIssues(name, cs), IsRestartIssue) ==
      if Restarted(cs) then [NewIssue(name, RestartMessage(cs.restartCount), Error)] else []
  {
    RestartIssuesKinds(name, cs);
    FilterAppend(RestartIssues(name, cs), StateIssues(name, cs), IsRestartIssue);
    if cs.state.Some? {
      var state := cs.state.value;
      WaitingIssuesKinds(name, state);
      TerminatedIssuesKinds(name, state);
      FilterAppend(WaitingIssues(name, state), TerminatedIssues(name, state), IsRestartIssue);
    }
  }

  /** Of one container's issues, the waiting issues are its waiting issue if its state has a waiting part. */
  lemma ContainerWaitingIssues(name: string, cs: ContainerStatus)
    ensures Filter(ContainerIssues(name, cs), IsWaitingIssue) ==
      if IsWaiting(cs) then [NewIssue(name, WaitingMessage(cs.state.value.waiting.value), Error)] else []
  {
    RestartIssuesKinds(name, cs);
    FilterAppend(RestartIssues(name, cs), StateIssues(name, cs), IsWaitingIssue);
    if cs.state.Some? {
      var state := cs.state.value;
      WaitingIssuesKinds(name, state);
      TerminatedIssuesKinds(name, state);
      FilterAppend(WaitingIssues(name, state), TerminatedIssues(name, state), IsWaitingIssue);
    }
  }

  /** Of one container's issues, the terminated issues are its terminated issue if its state has a terminated part. */
  lemma ContainerTerminatedIssues(name: string, cs: ContainerStatus)
    ensures Filter(ContainerIssues(name, cs), IsTerminatedIssue) ==
      if IsTerminated(cs) then [NewIssue(name, TerminatedMessage(cs.state.value.terminated.value), Error)] else []
  {
    RestartIssuesKinds(name, cs);
    FilterAppend(RestartIssues(name, cs), StateIssues(name, cs), IsTerminatedIssue);
    if cs.state.Some? {
      var state := cs.state.value;
      WaitingIssuesKinds(name, state);
      TerminatedIssuesKinds(name, state);
      FilterAppend(WaitingIssues(name, state), TerminatedIssues(name, state), IsTerminatedIssue);
    }
  }

  /**
   * One "Restart Count: <n>" issue per container with a positive restart count,
   * in list order: the k-th carries the k-th restarted container's count. So
   * there are never more of them than container statuses.
   */
  lemma RestartIssuesInOrder(name: string, containerStatuses: seq<ContainerStatus>)
    ensures |Filter(ContainersIssues(name, containerStatuses), IsRestartIssue)| == |Filter(containerStatuses, Restarted)|
    ensures |Filter(ContainersIssues(name, containerStatuses), IsRestartIssue)| <= |containerStatuses|
    ensures forall k :: 0 <= k < |Filter(containerStatuses, Restarted)| ==>
      Filter(ContainersIssues(name, containerStatuses), IsRestartIssue)[k] ==
        NewIssue(name, RestartMessage(Filter(containerStatuses, Restarted)[k].restartCount), Error)
  {
    var g := (c: ContainerStatus) => NewIssue(name, RestartMessage(c.restartCount), Error);
    forall cs | cs in containerStatuses
      ensures Filter(ContainerIssues(name, cs), IsRestartIssue) == if Restarted(cs) then [g(cs)] else []
    {
      ContainerRestartIssues(name, cs);
    }
    FilterConcatMapOfOptional(containerStatuses, c => ContainerIssues(name, c), Restarted, IsRestartIssue, g);
  }

  /**
   * One "Waiting: <reason> <message>" issue per container in a waiting state, in
   * list order: the k-th is made from the k-th waiting container's waiting part.
   */
  lemma WaitingIssuesInOrder(name: string, containerStatuses: seq<ContainerStatus>)
    ensures |Filter(ContainersIssues(name, containerStatuses), IsWaitingIssue)| == |Filter(containerStatuses, IsWaiting)|
    ensures forall k :: 0 <= k < |Filter(containerStatuses, IsWaiting)| ==>
      var cs := Filter(containerStatuses, IsWaiting)[k];
      IsWaiting(cs) &&
      Filter(ContainersIssues(name, containerStatuses), IsWaitingIssue)[k] ==
        NewIssue(name, WaitingMessage(cs.state.value.waiting.value), Error)
  {
    var g := (c: ContainerStatus) =>
      if IsWaiting(c) then NewIssue(name, WaitingMessage(c.state.value.waiting.value), Error) else NewIssue(name, "", Error);
    forall cs | cs in containerStatuses
      ensures Filter(ContainerIssues(name, cs), IsWaitingIssue) == if IsWaiting(cs) then [g(cs)] else []
    {
      ContainerWaitingIssues(name, cs);
    }
    FilterConcatMapOfOptional(containerStatuses, c => ContainerIssues(name, c), IsWaiting, IsWaitingIssue, g);
    FilterKeeps(containerStatuses, IsWaiting);
  }

  /**
   * One "Terminated: <reason> (exit <code>)" issue per container in a terminated
   * state, in list order: the k-th is made from the k-th terminated container's
   * terminated part.
   */
  lemma TerminatedIssuesInOrder(name: string, containerStatuses: seq<ContainerStatus>)
    ensures |Filter(ContainersIssues(name, containerStatuses), IsTerminatedIssue)| == |Filter(containerStatuses, IsTerminated)|
    ensures forall k :: 0 <= k < |Filter(containerStatuses, IsTerminated)| ==>
      var cs := Filter(containerStatuses, IsTerminated)[k];
      IsTerminated(cs) &&
      Filter(ContainersIssues(name, containerStatuses), IsTerminatedIssue)[k] ==
        NewIssue(name, TerminatedMessage(cs.state.value.terminated.value), Error)
  {
    var g := (c: ContainerStatus) =>
      if IsTerminated(c) then NewIssue(name, TerminatedMessage(c.state.value.terminated.value), Error) else NewIssue(name, "", Error);
    forall cs | cs in containerStatuses
      ensures Filter(ContainerIssues(name, cs), IsTerminatedIssue) == if IsTerminated(cs) then [g(cs)] else []
    {
      ContainerTerminatedIssues(name, cs);
    }
    FilterConcatMapOfOptional(containerStatuses, c => ContainerIssues(name, c), IsTerminated, IsTerminatedIssue, g);
    FilterKeeps(containerStatuses, IsTerminated);
  }

  /**
   * The waiting message holds the reason (or "<no reason>") right after its
   * prefix, then one space, then the message (or "<no message>") to the end.
   */
  lemma WaitingMessageReadsBack(waiting: ContainerStateWaiting)
    ensures var m, reason := WaitingMessage(waiting), waiting.reason.GetOr("<no reason>");
      var at := |"Waiting: "| + |reason|;
      at < |m| && m[|"Waiting: "|..at] == reason && m[at] == ' ' &&
      m[at + 1..] == waiting.message.GetOr("<no message>")
  {
    var reason, message := waiting.reason.GetOr("<no reason>"), waiting.message.GetOr("<no message>");
    var m := WaitingMessage(waiting);
    assert m == "Waiting: " + reason + " " + message;
  }

  /**
   * The terminated message holds the reason (or "<no reason>") right after its
   * prefix, and the number between " (exit " and the closing parenthesis reads
   * back as the container's exit code.
   */
  lemma TerminatedMessageReadsBack(terminated: ContainerStateTerminated)
    ensures var m, reason := TerminatedMessage(terminated), terminated.reason.GetOr("<no reason>");
      var from := |"Terminated: "| + |reason| + |" (exit "|;
      from < |m| && m[|"Terminated: "|..|"Terminated: "| + |reason|] == reason && m[|m| - 1] == ')' &&
      ParseInt(m[from..|m| - 1]) == Some(terminated.exitCode as int)
  {
    var reason := terminated.reason.GetOr("<no reason>");
    var m := TerminatedMessage(terminated);
    var from := |"Terminated: "| + |reason| + |" (exit "|;
    assert m == "Terminated: " + reason + " (exit " + IntToString(terminated.exitCode) + ")";
    assert m[from..|m| - 1] == IntToString(terminated.exitCode);
    IntToStringRoundTrip(terminated.exitCode);
  }

  /** The number in a restart issue reads back as the container's restart count. */
  lemma RestartMessageReadsBack(restartCount: i32)
    ensures ParseInt(RestartMessage(restartCount)[|"Restart Count: "|..]) == Some(restartCount as int)
  {
    assert RestartMessage(restartCount)[|"Restart Count: "|..] == IntToString(restartCount);
    IntToStringRoundTrip(restartCount);
  }

  /** One more pod processed appends that pod's issues. */
  lemma PodsIssuesSnoc(pods: seq<Pod>, pod: Pod, rfc3339: DateTime -> string)
    ensures PodsIssues(pods + [pod], rfc3339) == PodsIssues(pods, rfc3339) + PodIssues(pod, rfc3339)
  {
    ConcatMapSnoc(pods, pod, p => PodIssues(p, rfc3339));
  }

  /** The issues of two lists of pods, one after the other, are those of the joined list. */
  lemma PodsIssuesAppend(a: seq<Pod>, b: seq<Pod>, rfc3339: DateTime -> string)
    ensures PodsIssues(a + b, rfc3339) == PodsIssues(a, rfc3339) + PodsIssues(b, rfc3339)
  {
    ConcatMapAppend(a, b, pod => PodIssues(pod, rfc3339));
  }

  /** Every issue of the check comes from one listed pod and carries that pod's name. */
  lemma PodsIssuesProvenance(pods: seq<Pod>, rfc3339: DateTime -> string)
    ensures forall issue :: issue in PodsIssues(pods, rfc3339) ==>
      exists pod :: pod in pods && issue in PodIssues(pod, rfc3339) && issue.resource == PodName(pod)
  {
    forall issue | issue in PodsIssues(pods, rfc3339)
      ensures exists pod :: pod in pods && issue in PodIssues(pod, rfc3339) && issue.resource == PodName(pod)
    {
      ConcatMapMember(pods, p => PodIssues(p, rfc3339), issue);
      var pod :| pod in pods && issue in PodIssues(pod, rfc3339);
      PodIssuesNamePod(pod, rfc3339);
    }
  }

  lemma PendingPodIssues(name: string, rfc3339: DateTime -> string)
    ensures PodIssues(Pod(ObjectMeta(Some(name)), Some(PodStatus(Some("Pending"), None, None, None, None))), rfc3339)
      == [NewIssue(name, "Phase: Pending", Warning)]
  {
    assert PhaseMessage("Pending") == "Phase: Pending";
    assert ConditionsIssues(name, []) == [];
  }

  lemma RestartedPodIssues(name: string, rfc3339: DateTime -> string)
    ensures PodIssues(Pod(ObjectMeta(Some(name)), Some(PodStatus(Some("Running"), None, Some([ContainerStatus(2, None)]), None, None))), rfc3339)
      == [NewIssue(name, "Restart Count: 2", Error), NewIssue(name, "Terminated: <no node>", Info)]
  {
    var cs := ContainerStatus(2, None);
    assert RestartMessage(2) == "Restart Count: 2" by {
      assert IntToString(2) == "2";
    }
    assert ContainersIssues(name, [cs]) == [NewIssue(name, "Restart Count: 2", Error)] by {
      ConcatMapSnoc([], cs, c => ContainerIssues(name, c));
      assert [] + [cs] == [cs];
      assert ContainerIssues(name, cs) == [NewIssue(name, "Restart Count: 2", Error)] + [];
    }
    var status := PodStatus(Some("Running"), None, Some([cs]), None, None);
    assert HostMessage(status) == "Terminated: <no node>";
    assert PlacementIssues(name, status, rfc3339) == [NewIssue(name, "Terminated: <no node>", Info)] + [];
    assert ConditionsIssues(name, []) == [];
  }

  lemma QuietRunningPodIssues(name: string, rfc3339: DateTime -> string)
    ensures PodIssues(Pod(ObjectMeta(Some(name)), Some(PodStatus(Some("Running"), None, None, None, None))), rfc3339) == []
  {
    assert ConditionsIssues(name, []) == [];
  }

  /**
   * Three pods: one Pending, one Running whose single container has restarted
   * twice, one Running with no container statuses. The report counts three pods
   * and holds three issues: the restarted pod has container statuses, so it also
   * gets the host issue, with "<no node>" since it has no host IP.
   */
  lemma ThreePodsScenario(rfc3339: DateTime -> string)
    ensures var pending := Pod(ObjectMeta(Some("pending")), Some(PodStatus(Some("Pending"), None, None, None, None)));
      var restarting := Pod(ObjectMeta(Some("restarting")),
        Some(PodStatus(Some("Running"), None, Some([ContainerStatus(2, None)]), None, None)));
      var running := Pod(ObjectMeta(Some("running")), Some(PodStatus(Some("Running"), None, None, None, None)));
      PodsIssues([pending, restarting, running], rfc3339) == [
        NewIssue("pending", "Phase: Pending", Warning),
        NewIssue("restarting", "Restart Count: 2", Error),
        NewIssue("restarting", "Terminated: <no node>", Info)]
  {
    var pending := Pod(ObjectMeta(Some("pending")), Some(PodStatus(Some("Pending"), None, None, None, None)));
    var restarting := Pod(ObjectMeta(Some("restarting")),
      Some(PodStatus(Some("Running"), None, Some([ContainerStatus(2, None)]), None, None)));
    var running := Pod(ObjectMeta(Some("running")), Some(PodStatus(Some("Running"), None, None, None, None)));
    PendingPodIssues("pending", rfc3339);
    RestartedPodIssues("restarting", rfc3339);
    QuietRunningPodIssues("running", rfc3339);
    PodsIssuesOfThree(pending, restarting, running, rfc3339);
    assert [NewIssue("pending", "Phase: Pending", Warning)]
      + [NewIssue("restarting", "Restart Count: 2", Error), NewIssue("restarting", "Terminated: <no node>", Info)]
      + [] == [
        NewIssue("pending", "Phase: Pending", Warning),
        NewIssue("restarting", "Restart Count: 2", Error),
        NewIssue("restarting", "Terminated: <no node>", Info)];
  }

  /** The issues of three listed pods are the first's, then the second's, then the third's. */
  lemma PodsIssuesOfThree(a: Pod, b: Pod, c: Pod, rfc3339: DateTime -> string)
    ensures PodsIssues([a, b, c], rfc3339) == PodIssues(a, rfc3339) + PodIssues(b, rfc3339) + PodIssues(c, rfc3339)
  {
    ConcatMapOfThree(a, b, c, p => PodIssues(p, rfc3339));
  }
}
