/** The startup phases of a run. Each counting loop of the source is a method proved
    against a phase function stated without counters; only statuses are modelled. */
module RunPhases {
  import opened GoText
  import opened Wrappers
  import opened RunSnapshot

  datatype PhaseStatus = PhasePending | PhaseActive | PhaseDone | PhaseWarning | PhaseSkipped

  predicate Settled(status: PhaseStatus) {
    status == PhaseDone || status == PhaseSkipped
  }

  // ------------------------------------------------------------- small predicates

  predicate IsContainerFailure(reason: string) {
    reason == "CrashLoopBackOff" || reason == "CreateContainerConfigError" || reason == "CreateContainerError"
    || reason == "RunContainerError" || reason == "Error"
  }

  predicate IsImagePullFailure(reason: string) {
    reason == "ErrImagePull" || reason == "ImagePullBackOff" || reason == "InvalidImageName"
  }

  predicate ExitedCleanly(c: Container) {
    c.state == "terminated" && c.exitCode == Some(0)
  }

  predicate ExitedBadly(c: Container) {
    c.state == "terminated" && c.exitCode.Some? && c.exitCode.value != 0
  }

  predicate Stuck(c: Container) {
    c.state == "waiting" && (IsContainerFailure(c.reason) || IsImagePullFailure(c.reason))
  }

  predicate Started(c: Container) {
    c.state == "running" || ExitedCleanly(c)
  }

  predicate Troubled(c: Container) {
    (c.state == "terminated" && !ExitedCleanly(c)) || (c.state == "waiting" && IsContainerFailure(c.reason))
  }

  function AllContainers(p: Pod): seq<Container> {
    p.initContainers + p.containers
  }

  predicate PodReady(p: Pod) {
    || p.phase == "Succeeded"
    || HasCondition(p.conditions, "Ready")
    || (p.containers != [] && forall c | c in p.containers :: c.ready)
  }

  predicate PodFailed(p: Pod) {
    p.phase == "Failed" || exists c | c in AllContainers(p) :: ExitedBadly(c) || Stuck(c)
  }

  predicate EventIs(text: Text, e: Event, reasons: seq<string>) {
    exists reason | reason in reasons :: text.SameFold(e.reason, reason)
  }

  predicate AnyEventIs(text: Text, s: Snapshot, reasons: seq<string>) {
    exists e | e in s.events :: EventIs(text, e, reasons)
  }

  predicate Finished(text: Text, w: Workload) {
    text.SameFold(w.phase, "Finished")
  }

  // --------------------------------------------------------------- phases, declared

  function SubmittedPhase(s: Snapshot): PhaseStatus {
    if RunFound(s) then PhaseDone else PhasePending
  }

  function KueuePhase(text: Text, s: Snapshot): PhaseStatus {
    if s.workloads == [] then (if RunFound(s) then PhaseActive else PhasePending)
    else if forall w | w in s.workloads :: Finished(text, w) || w.admitted then PhaseDone
    else if (forall w | w in s.workloads :: !Finished(text, w) && !w.admitted)
         && AnyEventIs(text, s, ["Evicted", "Preempted"]) then PhaseWarning
    else PhaseActive
  }

  function RayClusterPhase(text: Text, s: Snapshot): PhaseStatus {
    var rj := SnapshotRayJob(s);
    if rj.clusterName == "" then PhaseActive
    else if RayJobFailed(text, rj) then PhaseWarning
    else PhaseDone
  }

  /** The first condition in pod order that says a pod is not scheduled. */
  function FirstUnscheduled(conditions: seq<Condition>): Option<Condition> {
    if conditions == [] then None
    else if conditions[0].kind == "PodScheduled" && conditions[0].status == "False" then Some(conditions[0])
    else FirstUnscheduled(conditions[1..])
  }

  function UnscheduledReason(pods: seq<Pod>): Option<string> {
    if pods == [] then None
    else match FirstUnscheduled(pods[0].conditions)
      case Some(c) => Some(FirstNonEmpty(c.reason, c.message))
      case None => UnscheduledReason(pods[1..])
  }

  function FirstEvent(text: Text, events: seq<Event>, reasons: seq<string>): Option<Event> {
    if events == [] then None
    else if EventIs(text, events[0], reasons) then Some(events[0])
    else FirstEvent(text, events[1..], reasons)
  }

  function SchedulingBlockReason(text: Text, s: Snapshot): string {
    match UnscheduledReason(s.pods)
    case Some(reason) => reason
    case None =>
      match FirstEvent(text, s.events, ["FailedScheduling", "SchedulingFailed"])
      case Some(e) => FirstNonEmpty(e.reason, e.message)
      case None => ""
  }

  function SchedulingPhase(text: Text, s: Snapshot): PhaseStatus {
    if s.pods == [] then PhasePending
    else if forall p | p in s.pods :: p.node != "" then PhaseDone
    else if SchedulingBlockReason(text, s) != "" then PhaseWarning
    else PhaseActive
  }

  /** The claim recorded under a name: a later one replaces an earlier one. */
  function ClaimNamed(claims: seq<ResourceClaim>, name: string): Option<ResourceClaim> {
    if claims == [] then None
    else if claims[|claims| - 1].name == name then Some(claims[|claims| - 1])
    else ClaimNamed(claims[..|claims| - 1], name)
  }

  predicate Referenced(s: Snapshot, name: string) {
    name != "" && exists p | p in s.pods :: name in p.claims
  }

  predicate Granted(s: Snapshot, name: string) {
    ClaimNamed(s.claims, name).Some? && ClaimNamed(s.claims, name).value.granted
  }

  function ConditionReason(conditions: seq<Condition>): string {
    if conditions == [] then ""
    else if conditions[0].status == "False" || conditions[0].status == "Unknown" then
      FirstNonEmpty(conditions[0].reason, FirstNonEmpty(conditions[0].message, conditions[0].kind))
    else ConditionReason(conditions[1..])
  }

  predicate IsAllocationFailure(text: Text, reason: string) {
    Contains(text.lower(reason), "failed") || Contains(text.lower(reason), "unschedulable")
  }

  predicate HasClaimFailure(text: Text, s: Snapshot) {
    || (exists c | c in s.claims :: !c.granted
          && (IsAllocationFailure(text, c.lastReason) || IsAllocationFailure(text, ConditionReason(c.conditions))))
    || (exists e | e in s.events ::
          IsAllocationFailure(text, e.reason) || Contains(text.lower(e.message), "no suitable devices"))
  }

  function ClaimsPhase(text: Text, s: Snapshot): PhaseStatus {
    if forall p, name | p in s.pods && name in p.claims :: !Referenced(s, name) then PhaseSkipped
    else if s.claims == [] then PhaseActive
    else if forall p, name | p in s.pods && name in p.claims :: Referenced(s, name) ==> Granted(s, name) then PhaseDone
    else if HasClaimFailure(text, s) then PhaseWarning
    else PhaseActive
  }

  function FirstPullEvent(events: seq<Event>): Option<Event> {
    if events == [] then None
    else if IsImagePullFailure(events[0].reason) then Some(events[0])
    else FirstPullEvent(events[1..])
  }

  predicate PullFails(text: Text, s: Snapshot) {
    if exists p | p in s.pods :: exists c | c in AllContainers(p) :: c.state == "waiting" && IsImagePullFailure(c.reason)
    then true
    else match FirstPullEvent(s.events)
      case Some(e) => text.line(FirstNonEmpty(e.message, e.reason)) != ""
      case None => false
  }

  predicate PastPull(p: Pod) {
    && !(p.phase == "Pending" && p.containerReason == "" && p.containers == [])
    && forall c | c in AllContainers(p) && c.state == "waiting" ::
         c.reason != "ContainerCreating" && c.reason != "PodInitializing" && !IsImagePullFailure(c.reason)
  }

  function PullPhase(text: Text, s: Snapshot): PhaseStatus {
    if s.pods == [] then PhasePending
    else if PullFails(text, s) then PhaseWarning
    else if forall p | p in s.pods :: PastPull(p) then PhaseDone
    else PhaseActive
  }

  predicate InitsEmpty(pods: seq<Pod>) {
    forall p | p in pods :: p.initContainers == []
  }

  predicate InitsClean(pods: seq<Pod>) {
    forall p | p in pods :: forall c | c in p.initContainers :: ExitedCleanly(c)
  }

  function InitPhase(s: Snapshot): PhaseStatus {
    if InitsEmpty(s.pods) then PhaseSkipped
    else if InitsClean(s.pods) then PhaseDone
    else PhaseActive
  }

  predicate NoContainers(pods: seq<Pod>) {
    forall p | p in pods :: p.containers == []
  }

  predicate AllStarted(pods: seq<Pod>) {
    forall p | p in pods :: forall c | c in p.containers :: Started(c)
  }

  predicate SomeTroubled(pods: seq<Pod>) {
    exists p | p in pods :: exists c | c in p.containers :: Troubled(c)
  }

  function StartPhase(s: Snapshot): PhaseStatus {
    if NoContainers(s.pods) then PhasePending
    else if AllStarted(s.pods) then PhaseDone
    else if SomeTroubled(s.pods) then PhaseWarning
    else PhaseActive
  }

  function ReadyPhase(s: Snapshot): PhaseStatus {
    if s.pods == [] then PhasePending
    else if forall p | p in s.pods :: PodReady(p) then PhaseDone
    else if exists p | p in s.pods :: PodFailed(p) && (p.containerReason != "" || p.phase != "") then PhaseWarning
    else PhaseActive
  }

  function RayJobPhase(text: Text, s: Snapshot): PhaseStatus {
    var rj := SnapshotRayJob(s);
    var detail := FirstNonEmpty(rj.deploymentStatus, FirstNonEmpty(rj.jobStatus, "waiting for RayJob status"));
    var status := text.lower(FirstNonEmpty(rj.deploymentStatus, rj.jobStatus));
    if RayJobFailed(text, rj) then PhaseWarning
    else if Contains(status, "succeed") || Contains(status, "complete") || Contains(status, "running") then PhaseDone
    else if text.SameFold(detail, "waiting for RayJob status") then PhasePending
    else PhaseActive
  }

  function ReleasePhase(text: Text, s: Snapshot): PhaseStatus {
    var rj := SnapshotRayJob(s);
    if !RayJobSucceeded(text, rj) && !RayJobFailed(text, rj) then PhasePending
    else if ManagerOnlyView(text, s) then PhaseSkipped
    else if !s.podsObserved && s.pods == [] then PhaseWarning
    else if exists p | p in s.pods :: p.phase != "Succeeded" && p.phase != "Failed" then PhaseActive
    else if s.workloads != [] && !(forall w | w in s.workloads :: Finished(text, w)) then PhaseActive
    else PhaseDone
  }

  /** What a finished RayJob makes of a pod phase. */
  function Overridden(text: Text, s: Snapshot, status: PhaseStatus): PhaseStatus {
    var rj := PrimaryRayJob(s);
    if RayJobFailed(text, rj) && s.pods == [] then (if status == PhaseWarning then PhaseWarning else PhaseSkipped)
    else if !RayJobSucceeded(text, rj) then status
    else if Settled(status) then status
    else PhaseDone
  }

  function RawPodPhases(text: Text, s: Snapshot): seq<PhaseStatus> {
    [SchedulingPhase(text, s), ClaimsPhase(text, s), PullPhase(text, s), InitPhase(s), StartPhase(s), ReadyPhase(s)]
  }

  function PodPhases(text: Text, s: Snapshot): (r: seq<PhaseStatus>)
    ensures |r| == 6
    ensures forall i | 0 <= i < 6 :: r[i] == Overridden(text, s, RawPodPhases(text, s)[i])
  {
    seq(6, i requires 0 <= i < 6 => Overridden(text, s, RawPodPhases(text, s)[i]))
  }

  const MANAGER_POD_PHASES := [PhaseSkipped, PhaseSkipped, PhaseSkipped, PhaseSkipped, PhaseSkipped, PhaseSkipped]

  /** `multiKueuePlacementPhase`, where the manager shows it. */
  ghost function PlacementPhase(text: Text, s: Snapshot): PhaseStatus {
    match TerminalState(text, s)
    case Some(state) => if state == "Failed" then PhaseWarning else PhaseDone
    case None =>
      match PlacementOf(text, s)
      case Rejected => PhaseWarning
      case Ready => PhaseDone
      case _ => PhaseActive
  }

  /** `multiKueueTerminalState`. */
  function TerminalState(text: Text, s: Snapshot): Option<string> {
    if HasCondition(s.jobConditions, "Failed") then Some("Failed")
    else if RayJobFailed(text, PrimaryRayJob(s)) then Some("Failed")
    else if HasCondition(s.jobConditions, "Complete") then Some("Complete")
    else if RayJobSucceeded(text, PrimaryRayJob(s)) then Some("Complete")
    else None
  }

  /** `startupPhasesAt`, statuses only. */
  ghost function StartupPhases(text: Text, s: Snapshot): seq<PhaseStatus> {
    var rayFound := PrimaryRayJob(s).found;
    [SubmittedPhase(s), KueuePhase(text, s)]
    + (if ManagerOnlyView(text, s) then [PlacementPhase(text, s)] else [])
    + (if rayFound then [RayClusterPhase(text, s)] else [])
    + (if ManagerOnlyView(text, s) then MANAGER_POD_PHASES else PodPhases(text, s))
    + (if rayFound then [RayJobPhase(text, s), ReleasePhase(text, s)] else [])
  }

  // --------------------------------------------------------------- phases, counted

  method CountKueue(text: Text, s: Snapshot) returns (status: PhaseStatus)
    ensures status == KueuePhase(text, s)
  {
    if |s.workloads| == 0 {
      return if RunFound(s) then PhaseActive else PhasePending;
    }
    var admitted, finished, pending := 0, 0, 0;
    for i := 0 to |s.workloads|
      invariant admitted + finished + pending == i && admitted >= 0 && finished >= 0 && pending >= 0
      invariant pending == 0 <==> forall w | w in s.workloads[..i] :: Finished(text, w) || w.admitted
      invariant pending == i <==> forall w | w in s.workloads[..i] :: !Finished(text, w) && !w.admitted
    {
      hide Finished;
      var w := s.workloads[i];
      assert s.workloads[..i + 1] == s.workloads[..i] + [w];
      if Finished(text, w) {
        finished := finished + 1;
        continue;
      }
      if w.admitted {
        admitted := admitted + 1;
        continue;
      }
      pending := pending + 1;
    }
    assert s.workloads[..|s.workloads|] == s.workloads;
    if admitted + finished == |s.workloads| {
      return PhaseDone;
    }
    status := PhaseActive;
    if pending == |s.workloads| && AnyEventIs(text, s, ["Evicted", "Preempted"]) {
      status := PhaseWarning;
    }
  }

  method CountScheduling(text: Text, s: Snapshot) returns (status: PhaseStatus)
    ensures status == SchedulingPhase(text, s)
  {
    if |s.pods| == 0 {
      return PhasePending;
    }
    var placed := 0;
    for i := 0 to |s.pods|
      invariant 0 <= placed <= i
      invariant placed == i <==> forall p | p in s.pods[..i] :: p.node != ""
    {
      assert s.pods[..i + 1] == s.pods[..i] + [s.pods[i]];
      if s.pods[i].node != "" {
        placed := placed + 1;
      }
    }
    assert s.pods[..|s.pods|] == s.pods;
    if placed == |s.pods| {
      return PhaseDone;
    }
    status := if SchedulingBlockReason(text, s) != "" then PhaseWarning else PhaseActive;
  }

  method CountInits(s: Snapshot) returns (status: PhaseStatus)
    ensures status == InitPhase(s)
  {
    var total, done := 0, 0;
    for i := 0 to |s.pods|
      invariant 0 <= done <= total
      invariant total == 0 <==> InitsEmpty(s.pods[..i])
      invariant done == total <==> InitsClean(s.pods[..i])
    {
      var p := s.pods[i];
      assert s.pods[..i + 1] == s.pods[..i] + [p];
      total := total + |p.initContainers|;
      ghost var before := done;
      for k := 0 to |p.initContainers|
        invariant before <= done <= before + k
        invariant done == before + k <==> forall c | c in p.initContainers[..k] :: ExitedCleanly(c)
      {
        assert p.initContainers[..k + 1] == p.initContainers[..k] + [p.initContainers[k]];
        if ExitedCleanly(p.initContainers[k]) {
          done := done + 1;
        }
      }
      assert p.initContainers[..|p.initContainers|] == p.initContainers;
    }
    assert s.pods[..|s.pods|] == s.pods;
    status := if total == 0 then PhaseSkipped else if done == total then PhaseDone else PhaseActive;
  }

  lemma StateDecides(c: Container)
    ensures c.state == "running" ==> Started(c) && !Troubled(c)
    ensures c.state == "terminated" ==> Started(c) == (c.exitCode == Some(0)) && Troubled(c) == (c.exitCode != Some(0))
    ensures c.state == "waiting" ==> !Started(c) && Troubled(c) == IsContainerFailure(c.reason)
    ensures c.state != "running" && c.state != "terminated" && c.state != "waiting" ==> !Started(c) && !Troubled(c)
  {
    hide IsContainerFailure;
    assert |"running"| == 7 && |"terminated"| == 10;
    assert "waiting"[0] == 'w' && "running"[0] == 'r';
  }

  /** The inner loop: the started containers of one pod. */
  method StartedIn(containers: seq<Container>, before: PhaseStatus) returns (started: nat, status: PhaseStatus)
    ensures started <= |containers|
    ensures started == |containers| <==> forall c | c in containers :: Started(c)
    ensures status == if exists c | c in containers :: Troubled(c) then PhaseWarning else before
  {
    started, status := 0, before;
    for k := 0 to |containers|
      invariant started <= k
      invariant started == k <==> forall c | c in containers[..k] :: Started(c)
      invariant status == if exists c | c in containers[..k] :: Troubled(c) then PhaseWarning else before
    {
      hide IsContainerFailure, Started, Troubled;
      var c := containers[k];
      StateDecides(c);
      assert containers[..k + 1] == containers[..k] + [c];
      if c.state == "running" {
        started := started + 1;
      } else if c.state == "terminated" {
        if c.exitCode == Some(0) {
          started := started + 1;
        } else {
          status := PhaseWarning;
        }
      } else if c.state == "waiting" {
        if IsContainerFailure(c.reason) {
          status := PhaseWarning;
        }
      }
    }
    assert containers[..|containers|] == containers;
  }

  method CountStarted(s: Snapshot) returns (status: PhaseStatus)
    ensures status == StartPhase(s)
  {
    if |s.pods| == 0 {
      return PhasePending;
    }
    var started, total := 0, 0;
    status := PhaseActive;
    for i := 0 to |s.pods|
      invariant 0 <= started <= total
      invariant total == 0 <==> NoContainers(s.pods[..i])
      invariant started == total <==> AllStarted(s.pods[..i])
      invariant status == if SomeTroubled(s.pods[..i]) then PhaseWarning else PhaseActive
    {
      hide NoContainers, AllStarted, SomeTroubled, Started, Troubled;
      OneMorePod(s.pods, i);
      var more: nat;
      more, status := StartedIn(s.pods[i].containers, status);
      total := total + |s.pods[i].containers|;
      started := started + more;
    }
    assert s.pods[..|s.pods|] == s.pods;
    if total == 0 {
      return PhasePending;
    }
    if started == total {
      return PhaseDone;
    }
  }

  lemma OneMorePod(pods: seq<Pod>, i: nat)
    requires i < |pods|
    ensures NoContainers(pods[..i + 1]) <==> NoContainers(pods[..i]) && pods[i].containers == []
    ensures AllStarted(pods[..i + 1]) <==> AllStarted(pods[..i]) && forall c | c in pods[i].containers :: Started(c)
    ensures SomeTroubled(pods[..i + 1]) <==> SomeTroubled(pods[..i]) || exists c | c in pods[i].containers :: Troubled(c)
  {
    hide Started, Troubled;
    assert pods[..i + 1] == pods[..i] + [pods[i]];
  }

  method CountReady(s: Snapshot) returns (status: PhaseStatus)
    ensures status == ReadyPhase(s)
  {
    if |s.pods| == 0 {
      return PhasePending;
    }
    var readyPods := 0;
    var failed := "";
    for i := 0 to |s.pods|
      invariant 0 <= readyPods <= i
      invariant readyPods == i <==> forall p | p in s.pods[..i] :: PodReady(p)
      invariant failed != "" <==> exists p | p in s.pods[..i] :: PodFailed(p) && (p.containerReason != "" || p.phase != "")
    {
      hide PodReady, PodFailed;
      var p := s.pods[i];
      assert s.pods[..i + 1] == s.pods[..i] + [p];
      if PodReady(p) {
        readyPods := readyPods + 1;
      }
      if failed == "" && PodFailed(p) {
        failed := FirstNonEmpty(p.containerReason, p.phase);
      }
    }
    assert s.pods[..|s.pods|] == s.pods;
    if readyPods == |s.pods| {
      return PhaseDone;
    }
    status := if failed != "" then PhaseWarning else PhaseActive;
  }

  /** `podLifecyclePhases`. */
  method PodLifecyclePhases(text: Text, s: Snapshot) returns (phases: array<PhaseStatus>)
    ensures fresh(phases) && phases[..] == PodPhases(text, s)
  {
    var scheduling := CountScheduling(text, s);
    var inits := CountInits(s);
    var started := CountStarted(s);
    var ready := CountReady(s);
    phases := new PhaseStatus[] [scheduling, ClaimsPhase(text, s), PullPhase(text, s), inits, started, ready];
    ghost var raw := RawPodPhases(text, s);
    assert phases[..] == raw;
    RewriteWhenOver(text, s, phases);
    PodPhasesAre(text, s, phases[..]);
  }

  lemma PodPhasesAre(text: Text, s: Snapshot, phases: seq<PhaseStatus>)
    requires |phases| == 6
    requires forall k | 0 <= k < 6 :: phases[k] == Overridden(text, s, RawPodPhases(text, s)[k])
    ensures phases == PodPhases(text, s)
  {
  }

  lemma OverrideCases(text: Text, s: Snapshot, status: PhaseStatus)
    ensures RayJobFailed(text, PrimaryRayJob(s)) && s.pods == [] ==>
              Overridden(text, s, status) == if status == PhaseWarning then PhaseWarning else PhaseSkipped
    ensures !(RayJobFailed(text, PrimaryRayJob(s)) && s.pods == [])
            ==> (Overridden(text, s, status)
                 == if RayJobSucceeded(text, PrimaryRayJob(s)) && !Settled(status) then PhaseDone else status)
  {
  }

  /** The rewriting of the phases in place once the RayJob is over. */
  method RewriteWhenOver(text: Text, s: Snapshot, phases: array<PhaseStatus>)
    requires phases.Length == 6
    modifies phases
    ensures forall k | 0 <= k < 6 :: phases[k] == Overridden(text, s, old(phases[k]))
  {
    hide RayJobFailed, RayJobSucceeded, PrimaryRayJob, Overridden;
    var rj := PrimaryRayJob(s);
    if RayJobFailed(text, rj) && |s.pods| == 0 {
      for i := 0 to 6
        invariant forall k | 0 <= k < i :: phases[k] == Overridden(text, s, old(phases[k]))
        invariant forall k | i <= k < 6 :: phases[k] == old(phases[k])
      {
        OverrideCases(text, s, phases[i]);
        if phases[i] == PhaseWarning {
          continue;
        }
        phases[i] := PhaseSkipped;
      }
      return;
    }
    if !RayJobSucceeded(text, rj) {
      forall k | 0 <= k < 6 ensures phases[k] == Overridden(text, s, old(phases[k])) {
        OverrideCases(text, s, phases[k]);
      }
      return;
    }
    for i := 0 to 6
      invariant forall k | 0 <= k < i :: phases[k] == Overridden(text, s, old(phases[k]))
      invariant forall k | i <= k < 6 :: phases[k] == old(phases[k])
    {
      OverrideCases(text, s, phases[i]);
      if Settled(phases[i]) {
        continue;
      }
      phases[i] := PhaseDone;
    }
  }
}
