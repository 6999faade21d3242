/** What a status query observes about one run, and what it says about the workload
    itself: terminal states, MultiKueue placement and admission checks. */
module RunSnapshot {
  import opened GoText
  import opened Wrappers

  datatype Condition = Condition(kind: string, status: string, reason: string, message: string)

  datatype Container = Container(state: string, reason: string, message: string, exitCode: Option<int>, ready: bool)

  datatype Pod = Pod(phase: string, node: string, claims: seq<string>, containerReason: string,
                     conditions: seq<Condition>, initContainers: seq<Container>, containers: seq<Container>)

  datatype ResourceClaim = ResourceClaim(name: string, granted: bool, lastReason: string, conditions: seq<Condition>)

  datatype Event = Event(reason: string, message: string)

  datatype AdmissionCheck = AdmissionCheck(name: string, state: string, controller: string, lookupFailed: bool)

  datatype Workload = Workload(admitted: bool, phase: string, clusterName: string, nominated: seq<string>,
                               checks: seq<AdmissionCheck>)

  datatype RayJob = RayJob(found: bool, clusterName: string, deploymentStatus: string, jobStatus: string,
                           reason: string, managedBy: string)

  datatype Snapshot = Snapshot(
    jobFound: bool, jobSuspended: bool, jobActive: int, jobConditions: seq<Condition>, jobManagedBy: string,
    rayJob: RayJob, rayJobFound: bool, rayJobStatus: string, rayJobReason: string, rayClusterName: string,
    workloads: seq<Workload>, pods: seq<Pod>, podsObserved: bool, claims: seq<ResourceClaim>, events: seq<Event>)

  const NO_RAY_JOB := RayJob(false, "", "", "", "", "")

  /** `snapshotRayJob`. */
  function SnapshotRayJob(s: Snapshot): RayJob {
    if s.rayJob.found then s.rayJob
    else if !s.rayJobFound then NO_RAY_JOB
    else RayJob(true, s.rayClusterName, s.rayJobStatus, "", s.rayJobReason, "")
  }

  /** `primaryRayJob`: a batch Job hides the RayJob. */
  function PrimaryRayJob(s: Snapshot): RayJob {
    if s.jobFound then NO_RAY_JOB else SnapshotRayJob(s)
  }

  predicate RunFound(s: Snapshot) {
    s.jobFound || SnapshotRayJob(s).found
  }

  // -------------------------------------------------------------- terminal states

  predicate HasCondition(conditions: seq<Condition>, kind: string) {
    exists c | c in conditions :: c.kind == kind && c.status == "True"
  }

  predicate SaysFailed(text: Text, value: string) {
    var v := text.lower(text.trim(value));
    Contains(v, "fail") || Contains(v, "error") || Contains(v, "stop") || Contains(v, "cancel")
  }

  predicate SaysSucceeded(text: Text, value: string) {
    var v := text.lower(text.trim(value));
    Contains(v, "succeed") || Contains(v, "complete")
  }

  predicate RayJobFailed(text: Text, rj: RayJob) {
    SaysFailed(text, rj.jobStatus) || SaysFailed(text, rj.deploymentStatus) || SaysFailed(text, rj.reason)
  }

  predicate RayJobSucceeded(text: Text, rj: RayJob) {
    !RayJobFailed(text, rj) && (SaysSucceeded(text, rj.jobStatus) || SaysSucceeded(text, rj.deploymentStatus))
  }

  predicate PrimaryFailed(text: Text, s: Snapshot) {
    if s.jobFound then HasCondition(s.jobConditions, "Failed") else RayJobFailed(text, SnapshotRayJob(s))
  }

  predicate PrimarySucceeded(text: Text, s: Snapshot) {
    if s.jobFound then HasCondition(s.jobConditions, "Complete") else RayJobSucceeded(text, SnapshotRayJob(s))
  }

  lemma NoRayJobSaysNothing(text: Text)
    requires text.GoLike()
    ensures !RayJobFailed(text, NO_RAY_JOB) && !RayJobSucceeded(text, NO_RAY_JOB)
  {
  }

  // ------------------------------------------------------------------- MultiKueue

  const MULTI_KUEUE := "kueue.x-k8s.io/multikueue"

  predicate IsMultiKueueCheck(text: Text, check: AdmissionCheck) {
    var controller := text.trim(check.controller);
    if controller != "" then controller == MULTI_KUEUE else check.lookupFailed && check.name == "multikueue"
  }

  predicate IsMultiKueue(text: Text, s: Snapshot) {
    || (if s.jobFound then s.jobManagedBy == MULTI_KUEUE
        else PrimaryRayJob(s).managedBy == MULTI_KUEUE || s.jobManagedBy == MULTI_KUEUE)
    || (exists w | w in s.workloads ::
          (exists c | c in w.checks :: IsMultiKueueCheck(text, c)) || w.clusterName != "" || w.nominated != [])
  }

  /** A view from the manager cluster that shows no pods. */
  predicate ManagerOnlyView(text: Text, s: Snapshot) {
    IsMultiKueue(text, s) && s.pods == []
  }

  predicate AllChecksReady(w: Workload) {
    w.checks != [] && forall c | c in w.checks :: c.state == "Ready"
  }

  predicate AllAdmissionChecksReady(s: Snapshot) {
    s.workloads != [] && forall w | w in s.workloads :: AllChecksReady(w)
  }

  predicate AnyAdmissionCheckRejected(s: Snapshot) {
    exists w | w in s.workloads :: exists c | c in w.checks :: c.state == "Rejected"
  }

  lemma ReadyChecksAreNotRejected(s: Snapshot)
    requires AllAdmissionChecksReady(s)
    ensures !AnyAdmissionCheckRejected(s)
  {
    forall w, c | w in s.workloads && c in w.checks ensures c.state != "Rejected" {
      assert AllChecksReady(w);
    }
  }

  datatype Placement = Unplaced | Pending | Nominated | Selected | Ready | Retry | Rejected

  /** Some MultiKueue check of the workload is in the given state. */
  predicate AnyCheckIs(text: Text, w: Workload, state: string) {
    exists c | c in w.checks :: IsMultiKueueCheck(text, c) && c.state == state
  }

  predicate PlacedReady(text: Text, w: Workload) {
    && (exists c | c in w.checks :: IsMultiKueueCheck(text, c))
    && (forall c | c in w.checks && IsMultiKueueCheck(text, c) :: c.state == "Ready")
  }

  ghost predicate SomeCheckIs(text: Text, ws: seq<Workload>, state: string) {
    exists w | w in ws :: AnyCheckIs(text, w, state)
  }

  ghost predicate EveryoneReady(text: Text, ws: seq<Workload>) {
    forall w | w in ws :: PlacedReady(text, w)
  }

  ghost predicate SomeSelected(text: Text, ws: seq<Workload>) {
    exists w | w in ws :: !PlacedReady(text, w) && w.clusterName != ""
  }

  ghost predicate SomeNominated(text: Text, ws: seq<Workload>) {
    exists w | w in ws :: !PlacedReady(text, w) && w.nominated != []
  }

  /** What the placement is: the worst news first, then readiness of all, then the
      progress of those that are not ready. */
  ghost function PlacementOf(text: Text, s: Snapshot): Placement {
    if !IsMultiKueue(text, s) then Unplaced
    else if SomeCheckIs(text, s.workloads, "Rejected") then Rejected
    else if SomeCheckIs(text, s.workloads, "Retry") then Retry
    else if s.workloads != [] && EveryoneReady(text, s.workloads) then Ready
    else if SomeSelected(text, s.workloads) then Selected
    else if SomeNominated(text, s.workloads) then Nominated
    else Pending
  }

  lemma OneMore(text: Text, ws: seq<Workload>, i: nat)
    requires i < |ws|
    ensures forall state :: SomeCheckIs(text, ws[..i + 1], state)
                       <==> SomeCheckIs(text, ws[..i], state) || AnyCheckIs(text, ws[i], state)
    ensures EveryoneReady(text, ws[..i + 1]) <==> EveryoneReady(text, ws[..i]) && PlacedReady(text, ws[i])
    ensures SomeSelected(text, ws[..i + 1])
       <==> SomeSelected(text, ws[..i]) || (!PlacedReady(text, ws[i]) && ws[i].clusterName != "")
    ensures SomeNominated(text, ws[..i + 1])
       <==> SomeNominated(text, ws[..i]) || (!PlacedReady(text, ws[i]) && ws[i].nominated != [])
  {
    hide PlacedReady, AnyCheckIs;
    assert ws[..i + 1] == ws[..i] + [ws[i]];
  }

  /** `multiKueueAdmissionChecks`. */
  method MultiKueueChecks(text: Text, w: Workload) returns (checks: seq<AdmissionCheck>)
    ensures forall c :: c in checks <==> c in w.checks && IsMultiKueueCheck(text, c)
  {
    checks := [];
    for i := 0 to |w.checks|
      invariant forall c :: c in checks <==> c in w.checks[..i] && IsMultiKueueCheck(text, c)
    {
      if IsMultiKueueCheck(text, w.checks[i]) {
        checks := checks + [w.checks[i]];
      }
    }
  }

  /** `workloadMultiKueueReady`. */
  method WorkloadReady(text: Text, w: Workload) returns (ready: bool)
    ensures ready == PlacedReady(text, w)
  {
    var checks := MultiKueueChecks(text, w);
    if checks == [] {
      return false;
    }
    assert checks[0] in checks;
    for i := 0 to |checks|
      invariant forall k | 0 <= k < i :: checks[k].state == "Ready"
    {
      if checks[i].state != "Ready" {
        return false;
      }
    }
    ready := true;
  }

  /** The inner loop: what one workload adds to the two bad flags. */
  method NoteChecks(text: Text, w: Workload, rejected: bool, retry: bool) returns (anyRejected: bool, anyRetry: bool)
    ensures anyRejected == (rejected || AnyCheckIs(text, w, "Rejected"))
    ensures anyRetry == (retry || AnyCheckIs(text, w, "Retry"))
  {
    anyRejected, anyRetry := rejected, retry;
    var checks := MultiKueueChecks(text, w);
    for k := 0 to |checks|
      invariant anyRejected <==> rejected || exists c | c in checks[..k] :: c.state == "Rejected"
      invariant anyRetry <==> retry || exists c | c in checks[..k] :: c.state == "Retry"
    {
      assert checks[..k + 1] == checks[..k] + [checks[k]];
      if checks[k].state == "Rejected" {
        anyRejected := true;
      } else if checks[k].state == "Retry" {
        anyRetry := true;
      }
    }
    assert checks[..|checks|] == checks;
  }

  /** The flags the loop over the workloads collects. */
  method PlacementState(text: Text, s: Snapshot) returns (state: Placement)
    ensures state == PlacementOf(text, s)
  {
    if !IsMultiKueue(text, s) {
      return Unplaced;
    }
    var anyRejected, anyRetry, anySelected, anyNominated := false, false, false, false;
    var allReady := |s.workloads| > 0;
    for i := 0 to |s.workloads|
      invariant anyRejected == SomeCheckIs(text, s.workloads[..i], "Rejected")
      invariant anyRetry == SomeCheckIs(text, s.workloads[..i], "Retry")
      invariant allReady == (s.workloads != [] && EveryoneReady(text, s.workloads[..i]))
      invariant anySelected == SomeSelected(text, s.workloads[..i])
      invariant anyNominated ==> SomeNominated(text, s.workloads[..i])
      invariant !anySelected && SomeNominated(text, s.workloads[..i]) ==> anyNominated
    {
      hide IsMultiKueue, PlacedReady, AnyCheckIs, SomeCheckIs, EveryoneReady, SomeSelected, SomeNominated;
      var w := s.workloads[i];
      OneMore(text, s.workloads, i);
      anyRejected, anyRetry := NoteChecks(text, w, anyRejected, anyRetry);
      var ready := WorkloadReady(text, w);
      allReady := allReady && ready;
      if ready {
        continue;
      }
      if w.clusterName != "" {
        anySelected := true;
        continue;
      }
      if |w.nominated| > 0 {
        anyNominated := true;
      }
    }
    assert s.workloads[..|s.workloads|] == s.workloads;
    state := if anyRejected then Rejected
             else if anyRetry then Retry
             else if allReady then Ready
             else if anySelected then Selected
             else if anyNominated then Nominated
             else Pending;
  }
}
