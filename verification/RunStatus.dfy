/** The verdicts drawn from a snapshot: startup and watch predicates, the canonical
    lifecycle state and the headline. */
module RunStatus {
  import opened GoText
  import opened Wrappers
  import opened RunSnapshot
  import opened RunPhases

  ghost predicate StartupComplete(text: Text, s: Snapshot) {
    || PrimarySucceeded(text, s)
    || (!ManagerOnlyView(text, s) && forall phase | phase in StartupPhases(text, s) :: Settled(phase))
  }

  predicate StartupFailed(text: Text, s: Snapshot) {
    if PrimaryFailed(text, s) then true
    else if PrimarySucceeded(text, s) then false
    else if ManagerOnlyView(text, s) && AnyAdmissionCheckRejected(s) then true
    else if RunFound(s) then exists p | p in s.pods :: exists c | c in AllContainers(p) :: Stuck(c)
    else exists p | p in s.pods :: PodFailed(p)
  }

  function JobState(s: Snapshot): Option<string> {
    if s.jobFound && s.jobActive > 0 then Some("Running") else None
  }

  const SUSPENDED := "Pending (suspended; Kueue not yet admitted)"

  /** `managerMultiKueueRayJobState`. */
  function RayJobState(rj: RayJob): Option<string> {
    if !rj.found then None
    else
      var status := FirstNonEmpty(rj.deploymentStatus, rj.jobStatus);
      if status == "Running" then Some("Running")
      else if status == "Suspended" then Some(SUSPENDED)
      else if status == "Initializing" then Some("Initializing")
      else if status == "New" then Some("New")
      else None
  }

  /** The workload reports Running to the manager. */
  predicate ReportsRunning(s: Snapshot) {
    JobState(s) == Some("Running") || RayJobState(PrimaryRayJob(s)) == Some("Running")
  }

  ghost predicate WatchComplete(text: Text, s: Snapshot) {
    if PrimaryFailed(text, s) then false
    else if PrimarySucceeded(text, s) then true
    else if ManagerOnlyView(text, s) then
      var rj := PrimaryRayJob(s);
      if FirstNonEmpty(rj.deploymentStatus, rj.jobStatus) == "Suspended" then false
      else if ReportsRunning(s) then true
      else AllAdmissionChecksReady(s)
    else StartupComplete(text, s)
  }

  predicate WatchFailed(text: Text, s: Snapshot) {
    if PrimaryFailed(text, s) then true
    else if PrimarySucceeded(text, s) then false
    else if ManagerOnlyView(text, s) then AnyAdmissionCheckRejected(s)
    else StartupFailed(text, s)
  }

  datatype Lifecycle = NotFound | Queued | Starting | Running | Succeeded | Failed

  function CanonicalState(text: Text, s: Snapshot): Lifecycle {
    var rj := SnapshotRayJob(s);
    if !RunFound(s) then NotFound
    else if StartupFailed(text, s) then Failed
    else if PrimarySucceeded(text, s) then Succeeded
    else if s.jobFound && s.jobActive > 0 then Running
    else if s.jobFound && s.jobSuspended then Queued
    else if !s.jobFound && (text.SameFold(rj.deploymentStatus, "Running") || text.SameFold(rj.jobStatus, "Running")) then Running
    else if !s.jobFound && (text.SameFold(rj.deploymentStatus, "Suspended") || text.SameFold(rj.jobStatus, "Suspended")) then Queued
    else if exists w | w in s.workloads :: !w.admitted && !Finished(text, w) then Queued
    else Starting
  }

  // --------------------------------------------------------------- what complete means

  /** A run of a RayJob alone counts as started only once the RayJob has succeeded: its
      release phase stays pending while it runs, and its RayCluster phase warns once it
      has failed. */
  lemma RayJobStartedIff(text: Text, s: Snapshot)
    requires PrimaryRayJob(s).found
    ensures StartupComplete(text, s) <==> RayJobSucceeded(text, PrimaryRayJob(s))
  {
    hide PodPhases, ManagerOnlyView, RayJobSucceeded, RayJobFailed, KueuePhase, RayJobPhase;
    var rj := PrimaryRayJob(s);
    assert !s.jobFound && rj == SnapshotRayJob(s);
    if !ManagerOnlyView(text, s) && !RayJobSucceeded(text, rj) {
      var phases := StartupPhases(text, s);
      assert phases[2] == RayClusterPhase(text, s) && phases[2] in phases;
      assert phases[|phases| - 1] == ReleasePhase(text, s) && phases[|phases| - 1] in phases;
      assert RayJobFailed(text, rj) ==> !Settled(RayClusterPhase(text, s));
      assert !RayJobFailed(text, rj) ==> !Settled(ReleasePhase(text, s));
    }
  }

  /** The pod runs: it has a node, is past pulling its images, its init containers
      have exited cleanly, its containers have started, and it is ready. */
  predicate Up(p: Pod) {
    && p.node != "" && PastPull(p) && PodReady(p)
    && (forall c | c in p.initContainers :: ExitedCleanly(c)) && (forall c | c in p.containers :: Started(c))
  }

  /** Every claim that a pod refers to is granted. */
  predicate ClaimsGranted(s: Snapshot) {
    forall p, name | p in s.pods && name in p.claims && name != "" :: Granted(s, name)
  }

  /** A run of a batch Job counts as started exactly if it has succeeded, or it is seen
      with its pods and all of these hold: it has workloads, every one admitted or
      finished, some container, every pod up with its claims granted, and no image
      that fails to be pulled. */
  lemma JobStartedIff(text: Text, s: Snapshot)
    requires text.GoLike() && s.jobFound
    ensures StartupComplete(text, s) <==>
            || PrimarySucceeded(text, s)
            || (&& !ManagerOnlyView(text, s)
                && s.workloads != [] && (forall w | w in s.workloads :: Finished(text, w) || w.admitted)
                && !NoContainers(s.pods) && (forall p | p in s.pods :: Up(p)) && ClaimsGranted(s) && !PullFails(text, s))
  {
    hide ManagerOnlyView, PrimarySucceeded, RayJobFailed, RayJobSucceeded, PullFails, PodReady, Started, ExitedCleanly, PastPull,
      SchedulingBlockReason, HasClaimFailure, AnyEventIs, Finished, Up, ClaimsGranted, SomeTroubled;
    NoRayJobSaysNothing(text);
    PodPhasesOfJob(text, s);
    if !ManagerOnlyView(text, s) {
      var phases := StartupPhases(text, s);
      assert phases == [SubmittedPhase(s), KueuePhase(text, s)] + RawPodPhases(text, s);
      AllSettled(phases);
      PodsUp(text, s);
    }
  }

  lemma PodPhasesOfJob(text: Text, s: Snapshot)
    requires text.GoLike() && s.jobFound
    ensures PodPhases(text, s) == RawPodPhases(text, s)
  {
    hide RayJobFailed, RayJobSucceeded, RawPodPhases;
    NoRayJobSaysNothing(text);
    assert |RawPodPhases(text, s)| == 6 by { SixPhases(text, s); }
  }

  lemma SixPhases(text: Text, s: Snapshot)
    ensures |RawPodPhases(text, s)| == 6
  {
  }

  lemma AllSettled(phases: seq<PhaseStatus>)
    requires |phases| == 8
    ensures (forall phase | phase in phases :: Settled(phase)) <==>
            && Settled(phases[0]) && Settled(phases[1]) && Settled(phases[2]) && Settled(phases[3])
            && Settled(phases[4]) && Settled(phases[5]) && Settled(phases[6]) && Settled(phases[7])
  {
  }

  lemma PodsUp(text: Text, s: Snapshot)
    ensures && Settled(SchedulingPhase(text, s)) && Settled(ClaimsPhase(text, s)) && Settled(PullPhase(text, s))
            && Settled(InitPhase(s)) && Settled(StartPhase(s)) && Settled(ReadyPhase(s))
       <==> !NoContainers(s.pods) && (forall p | p in s.pods :: Up(p)) && ClaimsGranted(s) && !PullFails(text, s)
  {
    hide PullFails, PodReady, Started, ExitedCleanly, PastPull, SchedulingBlockReason, HasClaimFailure, SomeTroubled, PodFailed;
    ClaimsSettled(text, s);
    hide ClaimsPhase, ClaimsGranted;
  }

  lemma NothingGranted(s: Snapshot, name: string)
    ensures s.claims == [] ==> !Granted(s, name)
  {
  }

  lemma ClaimsSettled(text: Text, s: Snapshot)
    ensures Settled(ClaimsPhase(text, s)) <==> ClaimsGranted(s)
  {
    hide HasClaimFailure, Granted;
    forall p, name | p in s.pods && name in p.claims
      ensures Referenced(s, name) <==> name != ""
      ensures s.claims == [] ==> !Granted(s, name)
    {
      NothingGranted(s, name);
    }
    hide Referenced;
  }

  // ------------------------------------------------------------- exclusive verdicts

  /** The two ways of asking whether a run has failed give one answer. */
  lemma FailureVerdictsAgree(text: Text, s: Snapshot)
    ensures StartupFailed(text, s) == WatchFailed(text, s)
  {
    hide PrimaryFailed, PrimarySucceeded, IsMultiKueue, AnyAdmissionCheckRejected, RunFound;
  }

  /** A container that cannot start keeps a phase from settling. */
  lemma StuckContainerShows(s: Snapshot, p: Pod, c: Container)
    requires p in s.pods && c in AllContainers(p) && Stuck(c)
    ensures !Settled(InitPhase(s)) || !Settled(StartPhase(s))
  {
    hide IsContainerFailure, IsImagePullFailure;
    assert !Started(c) && !ExitedCleanly(c) by {
      assert "waiting"[0] == 'w' && "running"[0] == 'r' && "terminated"[0] == 't';
    }
    if c in p.initContainers {
      assert !InitsClean(s.pods) && !InitsEmpty(s.pods);
    } else {
      assert c in p.containers;
      assert !AllStarted(s.pods);
    }
  }

  /** Outside the manager's view every pod phase is one of the startup phases. */
  lemma PodPhaseIsListed(text: Text, s: Snapshot, i: nat)
    requires !ManagerOnlyView(text, s) && i < 6
    ensures PodPhases(text, s)[i] in StartupPhases(text, s)
  {
    hide PodPhases, RunPhases.KueuePhase, ManagerOnlyView, RayClusterPhase, RayJobPhase, ReleasePhase, PlacementPhase;
    var phases := PodPhases(text, s);
    assert phases[i] in phases;
  }

  /** While the workload has not ended, the phases shown are the phases observed. */
  lemma OpenRunIsNotOverridden(text: Text, s: Snapshot)
    requires text.GoLike() && !PrimaryFailed(text, s) && !PrimarySucceeded(text, s)
    ensures forall status :: Overridden(text, s, status) == status
  {
    hide RayJobFailed, RayJobSucceeded, HasCondition;
    NoRayJobSaysNothing(text);
  }

  /** Outside the manager's view a run is never complete and failed at once. */
  lemma CompleteExcludesFailed(text: Text, s: Snapshot)
    requires text.GoLike() && !ManagerOnlyView(text, s) && WatchComplete(text, s)
    ensures !WatchFailed(text, s)
  {
    hide PrimaryFailed, PrimarySucceeded, ManagerOnlyView, PodPhases, RunFound, Stuck, Overridden, InitPhase, StartPhase;
    if !PrimarySucceeded(text, s) {
      OpenRunIsNotOverridden(text, s);
      PodPhaseIsListed(text, s, 3);
      PodPhaseIsListed(text, s, 4);
      PodPhasesShow(text, s);
      SubmittedIsListed(text, s);
      forall p, c | p in s.pods && c in AllContainers(p) ensures !Stuck(c) {
        if Stuck(c) {
          StuckContainerShows(s, p, c);
        }
      }
    }
  }

  lemma PodPhasesShow(text: Text, s: Snapshot)
    ensures PodPhases(text, s)[3] == Overridden(text, s, InitPhase(s))
    ensures PodPhases(text, s)[4] == Overridden(text, s, StartPhase(s))
  {
  }

  lemma SubmittedIsListed(text: Text, s: Snapshot)
    ensures SubmittedPhase(s) in StartupPhases(text, s)
    ensures Settled(SubmittedPhase(s)) <==> RunFound(s)
  {
    hide RunFound, PodPhases, KueuePhase, ManagerOnlyView, RayClusterPhase, RayJobPhase, ReleasePhase, PlacementPhase;
    assert StartupPhases(text, s)[0] == SubmittedPhase(s);
  }

  /** The exact states in which a run is complete and failed at once: the manager's
      view of an open run, where the workload reports Running while some admission
      check is Rejected. */
  lemma BothVerdictsIff(text: Text, s: Snapshot)
    requires text.GoLike()
    ensures WatchComplete(text, s) && WatchFailed(text, s)
       <==> && ManagerOnlyView(text, s) && !PrimaryFailed(text, s) && !PrimarySucceeded(text, s)
            && AnyAdmissionCheckRejected(s) && ReportsRunning(s)
  {
    hide PrimaryFailed, PrimarySucceeded, IsMultiKueue, AllAdmissionChecksReady, AnyAdmissionCheckRejected, StartupComplete,
      StartupFailed;
    if !ManagerOnlyView(text, s) {
      if WatchComplete(text, s) {
        CompleteExcludesFailed(text, s);
      }
    } else {
      if AllAdmissionChecksReady(s) {
        ReadyChecksAreNotRejected(s);
      }
      assert ReportsRunning(s) ==> FirstNonEmpty(PrimaryRayJob(s).deploymentStatus, PrimaryRayJob(s).jobStatus) != "Suspended" by {
        assert "Running"[0] == 'R' && "Suspended"[0] == 'S' && SUSPENDED[0] == 'P' && "Initializing"[0] == 'I' && "New"[0] == 'N';
      }
    }
  }

  /** What a status query can build: the Job's fields are filled in only when the Job
      was found. */
  predicate Fetched(s: Snapshot) {
    s.jobFound || (s.jobConditions == [] && s.jobActive == 0 && !s.jobSuspended && s.jobManagedBy == "")
  }

  /** Such a state exists: a running Job on a worker whose second check is rejected. */
  lemma BothVerdictsCanHold(text: Text)
    requires text.GoLike()
    ensures exists s :: Fetched(s) && WatchComplete(text, s) && WatchFailed(text, s)
  {
    var check := AdmissionCheck("budget", "Rejected", "", false);
    var s := Snapshot(true, false, 1, [], MULTI_KUEUE, NO_RAY_JOB, false, "", "", "",
                      [Workload(true, "Admitted", "worker-1", [], [check])], [], true, [], []);
    assert s.workloads[0] in s.workloads && check in s.workloads[0].checks;
    BothVerdictsIff(text, s);
  }

  /** The lifecycle state is failed exactly if the run is found and its watch has
      failed, and a succeeded run is complete by every verdict and failed by none. */
  lemma LifecycleAgrees(text: Text, s: Snapshot)
    ensures CanonicalState(text, s) == Failed <==> RunFound(s) && WatchFailed(text, s)
    ensures CanonicalState(text, s) == Succeeded ==>
              StartupComplete(text, s) && WatchComplete(text, s) && !StartupFailed(text, s) && !WatchFailed(text, s)
    ensures RunFound(s) && PrimarySucceeded(text, s) && !PrimaryFailed(text, s) ==> CanonicalState(text, s) == Succeeded
  {
    hide PrimaryFailed, PrimarySucceeded, IsMultiKueue, StartupPhases, AnyAdmissionCheckRejected, RunFound, ReportsRunning,
      AllAdmissionChecksReady;
    FailureVerdictsAgree(text, s);
  }

  // ----------------------------------------------------------------------- headline

  function PlacementName(state: Placement): string {
    match state
    case Unplaced => ""
    case Pending => "Pending"
    case Nominated => "Nominated"
    case Selected => "Selected"
    case Ready => "Ready"
    case Retry => "Retry"
    case Rejected => "Rejected"
  }

  function Dash(s: string): string { if s == "" then "-" else s }

  /** `deriveState`. */
  ghost function DeriveState(text: Text, s: Snapshot): string {
    var rj := PrimaryRayJob(s);
    var rayStatus := FirstNonEmpty(rj.deploymentStatus, rj.jobStatus);
    if ManagerOnlyView(text, s) then
      match TerminalState(text, s)
      case Some(state) => state
      case None =>
        match JobState(s)
        case Some(state) => state
        case None =>
          match RayJobState(rj)
          case Some(state) => state
          case None => PlacementName(PlacementOf(text, s))
    else if rj.found then (if rayStatus == "Suspended" then SUSPENDED else Dash(rayStatus))
    else if HasCondition(s.jobConditions, "Failed") then "Failed"
    else if HasCondition(s.jobConditions, "Complete") then "Complete"
    else if s.jobActive > 0 then "Running"
    else if s.jobSuspended then SUSPENDED
    else "Admitted (no active pods yet)"
  }

  /** `HeadlineState`. */
  ghost function Headline(text: Text, s: Snapshot): string {
    match CanonicalState(text, s)
    case NotFound => "NotFound"
    case Failed => "Failed"
    case Succeeded => "Complete"
    case _ => DeriveState(text, s)
  }

  lemma FailedAndCompleteAreRead(text: Text, rj: RayJob)
    requires text.GoLike()
    ensures FirstNonEmpty(rj.deploymentStatus, rj.jobStatus) == "Failed" ==> RayJobFailed(text, rj)
    ensures FirstNonEmpty(rj.deploymentStatus, rj.jobStatus) == "Complete" ==>
              RayJobFailed(text, rj) || RayJobSucceeded(text, rj)
  {
    assert "fail" <= "failed"[0..] && "complete" <= "complete"[0..];
    assert SaysFailed(text, "Failed") && SaysSucceeded(text, "Complete");
    hide SaysFailed, SaysSucceeded;
  }

  /** A Job's conditions reported without the Job, in the manager's view of a RayJob
      that has not ended. */
  predicate StrayConditions(text: Text, s: Snapshot) {
    && !s.jobFound && RunFound(s) && ManagerOnlyView(text, s) && !WatchFailed(text, s) && !PrimarySucceeded(text, s)
    && (HasCondition(s.jobConditions, "Failed") || HasCondition(s.jobConditions, "Complete"))
  }

  /** The headline says Failed or Complete exactly when the lifecycle state does,
      unless the snapshot holds stray conditions. */
  lemma HeadlineAgreesIff(text: Text, s: Snapshot)
    requires text.GoLike()
    ensures (Headline(text, s) == "Failed" <==> CanonicalState(text, s) == Failed)
         && (Headline(text, s) == "Complete" <==> CanonicalState(text, s) == Succeeded)
       <==> !StrayConditions(text, s)
  {
    hide HasCondition, IsMultiKueue, PlacementOf, RayJobFailed, RayJobSucceeded, AnyAdmissionCheckRejected;
    LifecycleAgrees(text, s);
    NoRayJobSaysNothing(text);
    FailedAndCompleteAreRead(text, PrimaryRayJob(s));
    OtherHeadlines(text, s);
  }

  /** On every snapshot that a status query builds, headline and lifecycle agree. */
  lemma HeadlineAgreesWithLifecycle(text: Text, s: Snapshot)
    requires text.GoLike() && Fetched(s)
    ensures Headline(text, s) == "Failed" <==> CanonicalState(text, s) == Failed
    ensures Headline(text, s) == "Complete" <==> CanonicalState(text, s) == Succeeded
  {
    hide Headline, CanonicalState, ManagerOnlyView, WatchFailed, PrimarySucceeded;
    HeadlineAgreesIff(text, s);
  }

  /** A snapshot with stray conditions, which no status query builds: a RayJob on a
      worker cluster, and a failed Job that was not found. */
  lemma StrayConditionsDisagree(text: Text)
    requires text.GoLike()
    ensures exists s :: !Fetched(s) && Headline(text, s) == "Failed" && CanonicalState(text, s) != Failed
  {
    var s := Snapshot(false, false, 0, [Condition("Failed", "True", "", "")], "", NO_RAY_JOB.(found := true), false, "", "", "",
                      [Workload(true, "Admitted", "worker-1", [], [])], [], true, [], []);
    NoRayJobSaysNothing(text);
    assert s.workloads[0] in s.workloads && s.jobConditions[0] in s.jobConditions;
    assert !PrimaryFailed(text, s) && !PrimarySucceeded(text, s);
    assert TerminalState(text, s) == Some("Failed");
    assert ManagerOnlyView(text, s) && DeriveState(text, s) == "Failed";
    assert !StartupFailed(text, s) && RunFound(s);
    assert CanonicalState(text, s) != Failed && CanonicalState(text, s) != NotFound && CanonicalState(text, s) != Succeeded;
    assert Headline(text, s) == "Failed";
  }

  predicate IsVerdict(headline: string) {
    headline == "Failed" || headline == "Complete"
  }

  /** No other headline reads like a verdict. */
  lemma OtherHeadlines(text: Text, s: Snapshot)
    ensures !IsVerdict("NotFound") && !IsVerdict("-") && !IsVerdict(SUSPENDED) && !IsVerdict("Running")
    ensures !IsVerdict("Admitted (no active pods yet)") && "Failed" != "Complete"
    ensures !IsVerdict(PlacementName(PlacementOf(text, s)))
    ensures JobState(s).Some? ==> !IsVerdict(JobState(s).value)
    ensures RayJobState(PrimaryRayJob(s)).Some? ==> !IsVerdict(RayJobState(PrimaryRayJob(s)).value)
  {
    hide PlacementOf;
    assert "Failed"[0] == 'F' && "Complete"[0] == 'C';
    assert SUSPENDED[0] == 'P' && |PlacementName(PlacementOf(text, s))| <= 9;
    var name := PlacementName(PlacementOf(text, s));
    assert name == "" || name[0] == 'P' || name[0] == 'N' || name[0] == 'S' || name[0] == 'R';
  }
}
