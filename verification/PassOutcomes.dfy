/** What a pass did, read off the turns it met: the calls an install or teardown
    makes, and the verdict the pass ends with. */
module PassOutcomes {
  import opened Conditions
  import opened Lifecycle
  import opened Manifests
  import opened Passes
  import opened Resources
  import opened World

  // ----- the turns ahead

  /** The turn the environment takes before the `i`th call from now. */
  function Ahead(w: World, i: nat): Turn {
    if i < |w.turns| then w.turns[i] else QUIET
  }

  lemma EditKeepsTurns(w: World, e: Edit)
    ensures EditStep(w, e).turns == w.turns
  {}

  lemma {:induction false} EditsKeepTurns(w: World, edits: seq<Edit>)
    ensures EditAll(w, edits).turns == w.turns
    decreases |edits|
  {
    hide EditStep;
    if edits != [] {
      EditKeepsTurns(w, edits[0]);
      EditsKeepTurns(EditStep(w, edits[0]), edits[1..]);
    }
  }

  lemma TurnAhead(w: World)
    ensures NextTurn(w) == Ahead(w, 0)
    ensures forall i: nat :: Ahead(TakeTurn(w), i) == Ahead(w, i + 1)
  {
    hide EditAll;
    EditsKeepTurns(w.(turns := if w.turns == [] then [] else w.turns[1..], now := NextTurn(w).now), NextTurn(w).edits);
  }

  /** The `n` calls after the next `from` go through and are acknowledged. */
  predicate Faultless(w: World, from: nat, n: nat)
    decreases n
  {
    n == 0 || (Ahead(w, from).fault == NoFault && Faultless(w, from + 1, n - 1))
  }

  /** How many of them take effect, if each is made only after the one before was
      acknowledged. */
  function Effective(w: World, from: nat, n: nat): (k: nat)
    ensures k <= n
    decreases n
  {
    if n == 0 then 0
    else
      match Ahead(w, from).fault
      case Dropped => 0
      case LostReply => 1
      case NoFault => 1 + Effective(w, from + 1, n - 1)
  }

  lemma {:induction false} AllEffective(w: World, from: nat, n: nat)
    requires Faultless(w, from, n)
    ensures Effective(w, from, n) == n
    decreases n
  {
    if n > 0 {
      AllEffective(w, from + 1, n - 1);
    }
  }

  lemma {:induction false} LaterTurns(a: World, b: World, k: nat, from: nat, n: nat)
    requires forall i: nat :: Ahead(b, i) == Ahead(a, i + k)
    ensures Faultless(b, from, n) <==> Faultless(a, from + k, n)
    ensures Effective(b, from, n) == Effective(a, from + k, n)
    decreases n
  {
    if n > 0 {
      LaterTurns(a, b, k, from + 1, n - 1);
    }
  }

  // ----- the calls in the log

  /** What was applied and what was removed, in order; other entries aside. */
  function Installs(log: seq<Action>): seq<ResourceId> {
    if log == [] then []
    else
      var last := log[|log| - 1];
      Installs(log[..|log| - 1]) + if last.Applied? then [last.id] else []
  }

  function Removals(log: seq<Action>): seq<ResourceId> {
    if log == [] then []
    else
      var last := log[|log| - 1];
      Removals(log[..|log| - 1]) + if last.Removed? then [last.id] else []
  }

  function IdList(rs: seq<Resource>): seq<ResourceId> {
    seq(|rs|, i requires 0 <= i < |rs| => rs[i].Id())
  }

  lemma {:induction false} InstallsAppend(log: seq<Action>, more: seq<Action>)
    ensures Installs(log + more) == Installs(log) + Installs(more)
    ensures Removals(log + more) == Removals(log) + Removals(more)
  {
    if more == [] {
      assert log + more == log;
    } else {
      var all := log + more;
      assert all[..|all| - 1] == log + more[..|more| - 1];
      InstallsAppend(log, more[..|more| - 1]);
    }
  }

  /** Neither installs nor removes. */
  predicate Idle(a: World, b: World) {
    Installs(b.log) == Installs(a.log) && Removals(b.log) == Removals(a.log)
  }

  lemma EditIdle(w: World, e: Edit)
    ensures Idle(w, EditStep(w, e))
  {
    InstallsAppend(w.log, [Wrote(|w.versions|, false)]);
    assert Installs([Wrote(|w.versions|, false)][..0]) == [];
  }

  lemma {:induction false} EditsIdle(w: World, edits: seq<Edit>)
    ensures Idle(w, EditAll(w, edits))
    decreases |edits|
  {
    hide EditStep;
    if edits != [] {
      EditIdle(w, edits[0]);
      EditsIdle(EditStep(w, edits[0]), edits[1..]);
    }
  }

  lemma TurnIdle(w: World)
    ensures Idle(w, TakeTurn(w))
  {
    hide EditAll;
    EditsIdle(w.(turns := if w.turns == [] then [] else w.turns[1..], now := NextTurn(w).now), NextTurn(w).edits);
  }

  lemma {:induction false} IdListAppend(a: seq<Resource>, b: seq<Resource>)
    ensures IdList(a + b) == IdList(a) + IdList(b)
  {}

  /** What one call does to the log, the script and the caller. */
  lemma ApplyOneCalls(w: World, instance: Serving, r: Resource)
    ensures var p := ApplyOne(w, instance, r);
            && Installs(p.w.log) == Installs(w.log) + (if Ahead(w, 0).fault == Dropped then [] else [r.Id()])
            && (p.ok <==> Ahead(w, 0).fault == NoFault)
            && forall i: nat :: Ahead(p.w, i) == Ahead(w, i + 1)
  {
    hide TakeTurn, Ahead, NextTurn, LiveVersion;
    TurnIdle(w);
    TurnAhead(w);
    var t := TakeTurn(w);
    var entry := Applied(instance.uid, r.Id(), LiveVersion(t, instance.key));
    OneEntry(entry);
    InstallsAppend(t.log, [entry]);
    SameAhead(t, ApplyOne(w, instance, r).w);
  }

  lemma OneEntry(a: Action)
    ensures Installs([a]) == if a.Applied? then [a.id] else []
    ensures Removals([a]) == if a.Removed? then [a.id] else []
  {
    assert [a][..0] == [];
  }

  lemma DeleteOneCalls(w: World, r: Resource)
    ensures var p := DeleteOne(w, r);
            && Removals(p.w.log) == Removals(w.log) + (if Ahead(w, 0).fault == Dropped then [] else [r.Id()])
            && (p.ok <==> Ahead(w, 0).fault == NoFault)
            && forall i: nat :: Ahead(p.w, i) == Ahead(w, i + 1)
  {
    hide TakeTurn, Ahead, NextTurn;
    TurnIdle(w);
    TurnAhead(w);
    OneEntry(Removed(r.Id()));
    InstallsAppend(TakeTurn(w).log, [Removed(r.Id())]);
    SameAhead(TakeTurn(w), DeleteOne(w, r).w);
  }

  /** The ids of the calls that took effect. */
  function Made(w: World, rs: seq<Resource>): seq<ResourceId> {
    IdList(rs[..Effective(w, 0, |rs|)])
  }

  lemma MadeCons(w: World, next: World, rs: seq<Resource>)
    requires rs != [] && forall i: nat :: Ahead(next, i) == Ahead(w, i + 1)
    ensures Made(w, rs) == (if Ahead(w, 0).fault == Dropped then [] else [rs[0].Id()]) +
                           if Ahead(w, 0).fault == NoFault then Made(next, rs[1..]) else []
    ensures Faultless(w, 0, |rs|) <==> Ahead(w, 0).fault == NoFault && Faultless(next, 0, |rs| - 1)
  {
    hide Ahead;
    LaterTurns(w, next, 1, 0, |rs| - 1);
    var k := Effective(next, 0, |rs| - 1);
    assert rs[1..][..k] == rs[1..k + 1];
    assert rs[..k + 1] == [rs[0]] + rs[1..k + 1];
    IdListAppend([rs[0]], rs[1..k + 1]);
    assert IdList([rs[0]]) == [rs[0].Id()] && rs[..1] == [rs[0]];
    NoIds();
  }

  /** `Manifest.Apply` makes its calls in sequence up to the first that is not
      acknowledged, whatever the environment does in between, and succeeds if all
      are. */
  lemma {:induction false} ApplyPhaseCalls(w: World, instance: Serving, rs: seq<Resource>)
    ensures var p := ApplyPhase(w, instance, rs);
            && Installs(p.w.log) == Installs(w.log) + Made(w, rs)
            && (p.ok <==> Faultless(w, 0, |rs|))
            && (p.ok ==> forall i: nat :: Ahead(p.w, i) == Ahead(w, i + |rs|))
    decreases |rs|
  {
    hide ApplyOne, Installs, IdList, Ahead, Made;
    if rs == [] {
      NothingMade(w);
    } else {
      var first := ApplyOne(w, instance, rs[0]);
      ApplyOneCalls(w, instance, rs[0]);
      MadeCons(w, first.w, rs);
      ApplyPhaseCalls(first.w, instance, rs[1..]);
    }
  }

  lemma NothingMade(w: World)
    ensures Made(w, []) == []
  {}

  /** Deletions likewise. */
  lemma {:induction false} DeletePhaseCalls(w: World, rs: seq<Resource>)
    ensures var p := DeletePhase(w, rs);
            && Removals(p.w.log) == Removals(w.log) + Made(w, rs)
            && (p.ok <==> Faultless(w, 0, |rs|))
    decreases |rs|
  {
    hide DeleteOne, Removals, IdList, Ahead, Made;
    if rs == [] {
      NothingMade(w);
    } else {
      var first := DeleteOne(w, rs[0]);
      DeleteOneCalls(w, rs[0]);
      MadeCons(w, first.w, rs);
      DeletePhaseCalls(first.w, rs[1..]);
    }
  }

  /** Phases one after another are one sequence of calls. */
  lemma {:induction false} ApplyInSequence(w: World, instance: Serving, a: seq<Resource>, b: seq<Resource>)
    ensures var first := ApplyPhase(w, instance, a);
            ApplyPhase(w, instance, a + b) == if first.ok then ApplyPhase(first.w, instance, b) else first
    decreases |a|
  {
    hide ApplyOne;
    if a == [] {
      assert a + b == b;
    } else {
      assert (a + b)[1..] == a[1..] + b;
      ApplyInSequence(ApplyOne(w, instance, a[0]).w, instance, a[1..], b);
    }
  }

  lemma {:induction false} DeleteInSequence(w: World, a: seq<Resource>, b: seq<Resource>)
    ensures var first := DeletePhase(w, a);
            DeletePhase(w, a + b) == if first.ok then DeletePhase(first.w, b) else first
    decreases |a|
  {
    hide DeleteOne;
    if a == [] {
      assert a + b == b;
    } else {
      assert (a + b)[1..] == a[1..] + b;
      DeleteInSequence(DeleteOne(w, a[0]).w, a[1..], b);
    }
  }

  lemma {:induction false} PhasesAreOneApply(w: World, instance: Serving, phases: seq<seq<Resource>>)
    ensures ApplyPhases(w, instance, phases) == ApplyPhase(w, instance, InSequence(phases))
    decreases |phases|
  {
    hide ApplyOne;
    if phases != [] {
      ApplyInSequence(w, instance, phases[0], InSequence(phases[1..]));
      PhasesAreOneApply(ApplyPhase(w, instance, phases[0]).w, instance, phases[1..]);
    }
  }

  lemma {:induction false} PhasesAreOneDelete(w: World, phases: seq<seq<Resource>>)
    ensures DeletePhases(w, phases) == DeletePhase(w, InSequence(phases))
    decreases |phases|
  {
    hide DeleteOne;
    if phases != [] {
      DeleteInSequence(w, phases[0], InSequence(phases[1..]));
      PhasesAreOneDelete(DeletePhase(w, phases[0]).w, phases[1..]);
    }
  }

  /** The calls of an install, up to the first that is not acknowledged, are a
      prefix of its phases in sequence; it succeeds if there is none such. */
  lemma ApplyPhasesCalls(w: World, instance: Serving, phases: seq<seq<Resource>>)
    ensures var p, calls := ApplyPhases(w, instance, phases), InSequence(phases);
            && Installs(p.w.log) == Installs(w.log) + IdList(calls[..Effective(w, 0, |calls|)])
            && (p.ok <==> Faultless(w, 0, |calls|))
            && (p.ok ==> Effective(w, 0, |calls|) == |calls| && forall i: nat :: Ahead(p.w, i) == Ahead(w, i + |calls|))
  {
    hide ApplyPhase, ApplyPhases, Installs, IdList, Ahead;
    PhasesAreOneApply(w, instance, phases);
    ApplyPhaseCalls(w, instance, InSequence(phases));
    if Faultless(w, 0, |InSequence(phases)|) {
      AllEffective(w, 0, |InSequence(phases)|);
    }
  }

  /** So are those of a teardown. */
  lemma DeletePhasesCalls(w: World, phases: seq<seq<Resource>>)
    ensures var p, calls := DeletePhases(w, phases), InSequence(phases);
            && Removals(p.w.log) == Removals(w.log) + IdList(calls[..Effective(w, 0, |calls|)])
            && (p.ok <==> Faultless(w, 0, |calls|))
            && (p.ok ==> Effective(w, 0, |calls|) == |calls|)
  {
    hide DeletePhase, DeletePhases, Removals, IdList, Ahead;
    PhasesAreOneDelete(w, phases);
    DeletePhaseCalls(w, InSequence(phases));
    if Faultless(w, 0, |InSequence(phases)|) {
      AllEffective(w, 0, |InSequence(phases)|);
    }
  }

  lemma NoIds()
    ensures IdList([]) == []
    ensures forall s: seq<ResourceId> :: s + [] == s
    ensures forall s: seq<Resource> :: s + [] == s
  {}

  lemma SameAhead(a: World, b: World)
    requires a.turns == b.turns
    ensures forall i: nat :: Ahead(a, i) == Ahead(b, i)
  {}

  /** The probe finds all Deployments available exactly if each was, when asked. */
  lemma {:induction false} ProbeMeaning(w: World, deployments: seq<Resource>)
    ensures ProbeDeployments(w, deployments).verdict == AllAvailable <==> AvailableAhead(w, 0, |deployments|)
    decreases |deployments|
  {
    hide TakeTurn, Ahead;
    if deployments != [] {
      var next := TakeTurn(w);
      TurnAhead(w);
      ProbeMeaning(next, deployments[1..]);
      AvailableLater(w, next, 1, 0, |deployments| - 1);
    }
  }

  /** The `n` Deployments asked about after `from` calls are available. */
  predicate AvailableAhead(w: World, from: nat, n: nat)
    decreases n
  {
    n == 0 || (Available(Ahead(w, from).deployment) && AvailableAhead(w, from + 1, n - 1))
  }

  lemma {:induction false} AvailableLater(a: World, b: World, k: nat, from: nat, n: nat)
    requires forall i: nat :: Ahead(b, i) == Ahead(a, i + k)
    ensures AvailableAhead(b, from, n) <==> AvailableAhead(a, from + k, n)
    decreases n
  {
    if n > 0 {
      AvailableLater(a, b, k, from + 1, n - 1);
    }
  }

  // ----- the verdict

  /** The conditions an install starts from: those there were, or fresh ones. */
  lemma ReadyAfterInstall(cs: seq<Condition>, installed: int, probed: int)
    requires WellFormed(cs)
    ensures var marked := Marked(cs, InstallSucceeding, installed);
            && (IsTrue(Marked(marked, DeploymentsReady, probed), Ready) <==> !IsFalse(cs, DependenciesInstalled))
            && !IsTrue(Marked(marked, DeploymentsNotReady, probed), Ready)
  {
    hide MarkTrue, MarkFalse, WellFormed, Get;
    InstallSucceedingEffect(cs, installed);
    var marked := Marked(cs, InstallSucceeding, installed);
    MarkTrueCoherent(marked, DeploymentsAvailable, probed);
    MarkFalseCoherent(marked, DeploymentsAvailable, "NotReady", "Waiting on deployments", probed);
  }

  lemma InstallFailedNotReady(cs: seq<Condition>, message: string, now: int)
    requires WellFormed(cs)
    ensures IsFalse(Marked(cs, InstallFailing(message), now), Ready)
  {
    hide MarkFalse, WellFormed, Get;
    MarkFalseCoherent(cs, InstallSucceeded, "Error", "Install failed with message: " + message, now);
  }

  const LATE := [Installing, CheckingDeployments, DeletingObsolete]

  lemma StagesUnfold(w: World, manifest: seq<Resource>, instance: Serving)
    ensures var first := EnsureFinalizer(w, instance);
            var second := InitStatus(first.w, first.obj);
            RunStages(STAGES, w, manifest, instance) ==
            if first.out != Fine then first
            else if second.out != Fine then second
            else RunStages(LATE, second.w, manifest, second.obj)
  {
    hide EnsureFinalizer, InitStatus, Install, CheckDeployments, DeleteObsolete;
    assert STAGES[1..] == [InitializingStatus] + LATE && STAGES[1..][1..] == LATE;
  }

  /** From the install on: Ready ends True exactly if no apply failed, every
      Deployment of the manifest was found available and dependencies are not
      blamed. */
  lemma InstallOutcome(w: World, manifest: seq<Resource>, instance: Serving)
    requires WellFormed(instance.status.conditions)
    ensures var p := RunStages(LATE, w, manifest, instance);
            IsTrue(p.obj.status.conditions, Ready) <==>
            && Faultless(w, 0, |InSequence(InstallPhases(manifest))|)
            && AvailableAhead(w, |InSequence(InstallPhases(manifest))|, |Deployments(manifest)|)
            && !IsFalse(instance.status.conditions, DependenciesInstalled)
  {
    hide ApplyPhases, ProbeDeployments, DeletePhase, Marked, WellFormed, Faultless, Ahead, IsFalse, InSequence,
         Deployments, AvailableAhead;
    var cs := instance.status.conditions;
    ApplyPhasesCalls(w, instance, InstallPhases(manifest));
    var first := Install(w, manifest, instance);
    InstallFailedNotReady(cs, "apply", first.w.now);
    LateUnfold(w, manifest, instance);
    if first.out == Fine {
      ProbeMeaning(first.w, Deployments(manifest));
      AvailableLater(w, first.w, |InSequence(InstallPhases(manifest))|, 0, |Deployments(manifest)|);
      var second := CheckDeployments(first.w, manifest, first.obj);
      ReadyAfterInstall(cs, first.w.now, second.w.now);
    } else {
      FalseIsNotTrue(first.obj.status.conditions, Ready);
    }
  }

  lemma FalseIsNotTrue(cs: seq<Condition>, t: ConditionType)
    ensures IsFalse(cs, t) ==> !IsTrue(cs, t)
  {}

  lemma LateUnfold(w: World, manifest: seq<Resource>, instance: Serving)
    ensures var first := Install(w, manifest, instance);
            var second := CheckDeployments(first.w, manifest, first.obj);
            RunStages(LATE, w, manifest, instance) ==
            if first.out != Fine then first
            else if second.out != Fine then second
            else DeleteObsolete(second.w, second.obj)
  {
    hide Install, CheckDeployments, DeleteObsolete;
    assert LATE[1..] == [CheckingDeployments, DeletingObsolete] && LATE[1..][1..] == [DeletingObsolete];
    assert LATE[1..][1..][1..] == [];
  }

  /** Initializing blames nobody, and stores what it was asked to. */
  lemma InitStatusVerdicts(w: World, instance: Serving)
    requires WellFormed(instance.status.conditions) && InitStatus(w, instance).out == Fine
    ensures var cs := InitStatus(w, instance).obj.status.conditions;
            && WellFormed(cs)
            && (IsFalse(cs, DependenciesInstalled) <==> IsFalse(instance.status.conditions, DependenciesInstalled))
  {
    hide UpdateStatus, Initialize, WellFormed;
    if instance.status.conditions == [] {
      UpdateStatusEchoes(w, WithMark(instance, Initializing, w.now));
      InitializeEffect([], w.now);
    }
  }

  lemma UpdateStatusEchoes(w: World, sent: Serving)
    ensures UpdateStatus(w, sent).result.Ok? ==> UpdateStatus(w, sent).result.value.status == sent.status
  {
    hide TakeTurn;
  }

  /** From any status made of the operator's conditions, one left by a transform
      that failed before they were initialized included, and whatever the
      environment does meanwhile: a pass whose transform fails ends with Ready
      False, and one that reaches the install ends with Ready True exactly if no
      apply failed, every Deployment was found available and dependencies were
      not blamed before. */
  lemma PassOutcome(w0: World, instance: Serving)
    requires WellFormed(instance.status.conditions)
    ensures var w := TakeTurn(w0);
            var rendered := if NextTurn(w0).fault == NoFault then Render(w.config, instance) else None;
            var ready := IsTrue(Converge(w0, instance).obj.status.conditions, Ready);
            && (rendered.None? ==> !ready)
            && (rendered.Some? ==>
                  var manifest := rendered.value;
                  var ensured := EnsureFinalizer(w, instance);
                  var begun := InitStatus(ensured.w, ensured.obj);
                  ensured.out == Fine && begun.out == Fine ==>
                    (ready <==>
                     && Faultless(begun.w, 0, |InSequence(InstallPhases(manifest))|)
                     && AvailableAhead(begun.w, |InSequence(InstallPhases(manifest))|, |Deployments(manifest)|)
                     && !IsFalse(instance.status.conditions, DependenciesInstalled)))
  {
    hide TakeTurn, RunStages, Render, Marked, WellFormed, IsFalse, IsTrue, InitStatus, Faultless, InSequence,
         AvailableAhead, Deployments, InstallPhases, Update;
    var w := TakeTurn(w0);
    var rendered := if NextTurn(w0).fault == NoFault then Render(w.config, instance) else None;
    if rendered.None? {
      InstallFailedNotReady(instance.status.conditions, "transform", w.now);
      FalseIsNotTrue(Marked(instance.status.conditions, InstallFailing("transform"), w.now), Ready);
    } else {
      StagesUnfold(w, rendered.value, instance);
      var ensured := EnsureFinalizer(w, instance);
      assert ensured.obj.status == instance.status;
      var begun := InitStatus(ensured.w, ensured.obj);
      if begun.out == Fine {
        InitStatusVerdicts(ensured.w, ensured.obj);
        InstallOutcome(begun.w, rendered.value, begun.obj);
      }
    }
  }
}
