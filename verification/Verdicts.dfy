/** What a pass reports: which of Ready's dependents each way of going wrong
    marks, what it leaves alone, and how the stages end. */
module Verdicts {
  import opened Conditions
  import opened Lifecycle
  import opened Manifests
  import opened PassOutcomes
  import opened Passes
  import opened Resources
  import opened World

  // ----- the probe

  /** The first Deployment that is not available decides, `j` being its place, or
      their number if all are: one that cannot be asked about is an error, one
      that is missing or not available is not. */
  lemma {:induction false} ProbeExactly(w: World, deployments: seq<Resource>, j: nat)
    requires j <= |deployments| && AvailableAhead(w, 0, j)
    requires j < |deployments| ==> !Available(Ahead(w, j).deployment)
    ensures var p := ProbeDeployments(w, deployments);
            && p.verdict == (if j == |deployments| then AllAvailable
                             else if Ahead(w, j).deployment.Unreachable? then ProbeFailed
                             else SomeNotReady)
            && forall i: nat :: Ahead(p.w, i) == Ahead(w, i + if j == |deployments| then j else j + 1)
    decreases |deployments|
  {
    hide TakeTurn, Ahead;
    if deployments != [] {
      TurnAhead(w);
      if j > 0 {
        var next := TakeTurn(w);
        AvailableLater(w, next, 1, 0, j - 1);
        ProbeExactly(next, deployments[1..], j - 1);
      }
    }
  }

  // ----- from the install on

  /** The dependents' statuses in a list. */
  datatype Report = Report(
    installed: Option<ConditionStatus>, deployments: Option<ConditionStatus>, dependencies: Option<ConditionStatus>)

  function ReportOf(status: Status): Report {
    Report(StatusOf(status.conditions, InstallSucceeded), StatusOf(status.conditions, DeploymentsAvailable),
           StatusOf(status.conditions, DependenciesInstalled))
  }

  /** What an install that went through makes of dependencies: they count as
      installed unless they were found missing. */
  function Presumed(before: Option<ConditionStatus>): Option<ConditionStatus> {
    if before == Some(False) then Some(False) else Some(True)
  }

  lemma FailingReport(cs: seq<Condition>, message: string, version: string, now: int)
    requires WellFormed(cs)
    ensures var status := Status(Marked(cs, InstallFailing(message), now), version);
            && WellFormed(status.conditions)
            && ReportOf(status) == ReportOf(Status(cs, version)).(installed := Some(False))
  {
    hide MarkFalse, WellFormed, Get;
    MarkFalseCoherent(cs, InstallSucceeded, "Error", "Install failed with message: " + message, now);
  }

  lemma InstalledReport(cs: seq<Condition>, version: string, now: int)
    requires WellFormed(cs)
    ensures var status, before := Status(Marked(cs, InstallSucceeding, now), VERSION), ReportOf(Status(cs, version));
            && WellFormed(status.conditions)
            && ReportOf(status) == Report(Some(True), before.deployments, Presumed(before.dependencies))
  {
    hide MarkTrue, WellFormed, Get;
    InstallSucceedingEffect(cs, now);
  }

  lemma ProbedReport(cs: seq<Condition>, ready: bool, version: string, now: int)
    requires WellFormed(cs)
    ensures var m := if ready then DeploymentsReady else DeploymentsNotReady;
            var status := Status(Marked(cs, m, now), version);
            && WellFormed(status.conditions)
            && ReportOf(status) ==
               ReportOf(Status(cs, version)).(deployments := Some(if ready then True else False))
  {
    hide MarkTrue, MarkFalse, WellFormed, Get;
    if ready {
      MarkTrueCoherent(cs, DeploymentsAvailable, now);
    } else {
      MarkFalseCoherent(cs, DeploymentsAvailable, "NotReady", "Waiting on deployments", now);
    }
  }

  /** From the install on, under every script: an apply that is not acknowledged
      marks the install False and nothing else, and sets no version. Otherwise the
      install is True, the version set, dependencies True unless they were False,
      and Deployments True exactly if each was available when asked about, else
      False. `j` is the place of the first Deployment that was not. */
  lemma LateReport(w: World, manifest: seq<Resource>, instance: Serving, j: nat)
    requires WellFormed(instance.status.conditions)
    requires var calls := |InSequence(InstallPhases(manifest))|;
             Faultless(w, 0, calls) ==>
               && j <= |Deployments(manifest)| && AvailableAhead(w, calls, j)
               && (j < |Deployments(manifest)| ==> !Available(Ahead(w, calls + j).deployment))
    ensures var p, calls := RunStages(LATE, w, manifest, instance), |InSequence(InstallPhases(manifest))|;
            var before, after := ReportOf(instance.status), ReportOf(p.obj.status);
            && WellFormed(p.obj.status.conditions)
            && if !Faultless(w, 0, calls) then
                 && after == before.(installed := Some(False))
                 && p.obj.status.version == instance.status.version && p.out == Failing
               else
                 && after.installed == Some(True) && after.dependencies == Presumed(before.dependencies)
                 && after.deployments == Some(if j == |Deployments(manifest)| then True else False)
                 && p.obj.status.version == "0.14.0"
  {
    hide ApplyPhases, ProbeDeployments, DeletePhase, Marked, WellFormed, Faultless, Ahead, InSequence, Deployments,
         AvailableAhead, InstallPhases, StatusOf;
    var calls := |InSequence(InstallPhases(manifest))|;
    ApplyPhasesCalls(w, instance, InstallPhases(manifest));
    var first := Install(w, manifest, instance);
    LateUnfold(w, manifest, instance);
    FailingReport(instance.status.conditions, "apply", instance.status.version, first.w.now);
    if first.out == Fine {
      InstalledReport(instance.status.conditions, instance.status.version, first.w.now);
      AvailableLater(w, first.w, calls, 0, j);
      ProbeExactly(first.w, Deployments(manifest), j);
      var second := CheckDeployments(first.w, manifest, first.obj);
      ProbedReport(first.obj.status.conditions, j == |Deployments(manifest)|, VERSION, second.w.now);
    }
  }

  /** How it ends: well exactly if every apply was acknowledged, the first
      Deployment found wanting, if any, could be asked about, and the deletions of
      the four leftovers were acknowledged. */
  lemma LateOutcome(w: World, manifest: seq<Resource>, instance: Serving, j: nat)
    requires var calls := |InSequence(InstallPhases(manifest))|;
             && j <= |Deployments(manifest)| && AvailableAhead(w, calls, j)
             && (j < |Deployments(manifest)| ==> !Available(Ahead(w, calls + j).deployment))
    ensures var p, calls := RunStages(LATE, w, manifest, instance), |InSequence(InstallPhases(manifest))|;
            var probes := if j == |Deployments(manifest)| then j else j + 1;
            && p.out != Panicking
            && (p.out == Fine <==>
                && Faultless(w, 0, calls)
                && (j < |Deployments(manifest)| ==> !Ahead(w, calls + j).deployment.Unreachable?)
                && Faultless(w, calls + probes, 4))
  {
    hide ApplyPhases, ProbeDeployments, DeletePhase, Marked, Faultless, Ahead, InSequence, Deployments, AvailableAhead,
         InstallPhases;
    var calls := |InSequence(InstallPhases(manifest))|;
    ApplyPhasesCalls(w, instance, InstallPhases(manifest));
    var first := Install(w, manifest, instance);
    LateUnfold(w, manifest, instance);
    if first.out == Fine {
      AvailableLater(w, first.w, calls, 0, j);
      ProbeExactly(first.w, Deployments(manifest), j);
      var second := CheckDeployments(first.w, manifest, first.obj);
      DeletePhaseCalls(second.w, Obsolete(instance.key.namespace));
      var probes := if j == |Deployments(manifest)| then j else j + 1;
      LaterTurns(w, second.w, calls + probes, 0, 4);
    }
  }

  // ----- the whole of a reconciliation

  /** The report an object starts the install with: its own, or, if it had no
      conditions, one in which nothing is known. */
  function Begun(status: Status): Report {
    if status.conditions == [] then Report(Some(Unknown), Some(Unknown), Some(Unknown)) else ReportOf(status)
  }

  lemma InitReport(w: World, instance: Serving)
    requires WellFormed(instance.status.conditions)
    ensures var p := InitStatus(w, instance);
            && WellFormed(p.obj.status.conditions) && ReportOf(p.obj.status) == Begun(instance.status)
            && p.obj.status.version == instance.status.version
  {
    hide UpdateStatus, Initialize, WellFormed;
    if instance.status.conditions == [] {
      UpdateStatusEchoes(w, WithMark(instance, Initializing, w.now));
      InitializeEffect([], w.now);
    }
  }

  /** Which dependents a pass marks, however it ends and whatever the environment
      does meanwhile. Transforms that fail mark the install False and nothing
      else; attaching D or initializing that fails leaves what there was. No pass
      blames dependencies that were not blamed before. */
  lemma PassReport(w0: World, instance: Serving)
    requires WellFormed(instance.status.conditions)
    ensures var w := TakeTurn(w0);
            var rendered := if NextTurn(w0).fault == NoFault then Render(w.config, instance) else None;
            var p := Converge(w0, instance);
            var before, after := ReportOf(instance.status), ReportOf(p.obj.status);
            && WellFormed(p.obj.status.conditions)
            && (after.dependencies == Some(False) <==> before.dependencies == Some(False))
            && if rendered.None? then
                 && after == before.(installed := Some(False)) && p.out == Failing
                 && p.obj.status.version == instance.status.version
               else
                 var manifest, ensured := rendered.value, EnsureFinalizer(w, instance);
                 var begun := InitStatus(ensured.w, ensured.obj);
                 var calls := |InSequence(InstallPhases(manifest))|;
                 if ensured.out != Fine then p == ensured && p.obj.status == instance.status
                 else if begun.out != Fine then p == begun && after == Begun(instance.status)
                 else if !Faultless(begun.w, 0, calls) then
                   && after == Begun(instance.status).(installed := Some(False)) && p.out == Failing
                   && p.obj.status.version == instance.status.version
                 else
                   && after.installed == Some(True) && p.obj.status.version == "0.14.0"
                   && after.dependencies == Presumed(before.dependencies)
                   && after.deployments ==
                      Some(if AvailableAhead(begun.w, calls, |Deployments(manifest)|) then True else False)
  {
    hide TakeTurn, RunStages, Render, Marked, WellFormed, StatusOf, InitStatus, Faultless, InSequence, Available, Ahead,
         AvailableAhead, Deployments, InstallPhases, Update;
    var w := TakeTurn(w0);
    var rendered := if NextTurn(w0).fault == NoFault then Render(w.config, instance) else None;
    if rendered.None? {
      FailingReport(instance.status.conditions, "transform", instance.status.version, w.now);
    } else {
      var manifest := rendered.value;
      StagesUnfold(w, manifest, instance);
      var ensured := EnsureFinalizer(w, instance);
      assert ensured.obj.status == instance.status;
      InitReport(ensured.w, ensured.obj);
      NothingSaid(instance.status);
      var begun := InitStatus(ensured.w, ensured.obj);
      if ensured.out == Fine && begun.out == Fine {
        var calls := |InSequence(InstallPhases(manifest))|;
        var j := FirstUnavailable(begun.w, calls, |Deployments(manifest)|);
        LateReport(begun.w, manifest, begun.obj, j);
      }
    }
  }

  lemma NothingSaid(status: Status)
    ensures status.conditions == [] ==> ReportOf(status) == Report(None, None, None)
  {}

  /** The place of the first of `n` Deployments that is not available. */
  lemma {:induction false} FirstUnavailable(w: World, from: nat, n: nat) returns (j: nat)
    ensures j <= n && AvailableAhead(w, from, j)
    ensures j < n ==> !Available(Ahead(w, from + j).deployment)
    ensures AvailableAhead(w, from, n) <==> j == n
    decreases n
  {
    hide Ahead, Available;
    if n == 0 || !Available(Ahead(w, from).deployment) {
      j := 0;
    } else {
      var later := FirstUnavailable(w, from + 1, n - 1);
      j := later + 1;
    }
  }
}
