/** Whatever went wrong in a run, the operator itself never blames dependencies, so
    that once it is left alone every object it admits converges. */
module Recovery {
  import opened Conditions
  import opened Convergence
  import opened Invariant
  import opened Lifecycle
  import opened Manifests
  import opened PassOutcomes
  import opened Passes
  import opened QuietCalls
  import opened Resources
  import opened Safety
  import opened Text
  import opened World

  /** Conditions as the operator keeps them, dependencies not blamed. */
  ghost predicate Blameless(status: Status) {
    WellFormed(status.conditions) && !IsFalse(status.conditions, DependenciesInstalled)
  }

  ghost predicate EditBlames(e: Edit) {
    e.Restatus? && !Blameless(e.status)
  }

  /** Nobody else writes a status that blames dependencies. */
  ghost predicate ScriptBlameless(turns: seq<Turn>) {
    forall t, e | t in turns && e in t.edits :: !EditBlames(e)
  }

  ghost predicate EntryBlameless(e: Entry) {
    e.obj.Some? ==> Blameless(e.obj.value.status)
  }

  /** No status stored, cached or yet to be written does. */
  ghost predicate AllBlameless(w: World) {
    && (forall n: nat | n < |w.versions| :: Blameless(w.versions[n].obj.status))
    && (forall key | key in w.cache :: EntryBlameless(w.cache[key]))
    && ScriptBlameless(w.turns)
  }

  // ----- the marks of a pass

  lemma NoStatusIsBlameless()
    ensures Blameless(Status([], "")) && Blameless(ZERO.status)
  {}

  lemma MarksAreBlameless(cs: seq<Condition>, version: string, message: string, now: int)
    requires Blameless(Status(cs, version))
    ensures Blameless(Status(Marked(cs, InstallFailing(message), now), version))
    ensures Blameless(Status(Marked(cs, InstallSucceeding, now), version))
    ensures Blameless(Status(Marked(cs, DeploymentsReady, now), version))
    ensures Blameless(Status(Marked(cs, DeploymentsNotReady, now), version))
    ensures cs == [] ==> Blameless(Status(Marked(cs, Initializing, now), version))
  {
    hide MarkTrue, MarkFalse, Initialize, WellFormed, Get;
    MarkFalseCoherent(cs, InstallSucceeded, "Error", "Install failed with message: " + message, now);
    InstallSucceedingEffect(cs, now);
    MarkTrueCoherent(cs, DeploymentsAvailable, now);
    MarkFalseCoherent(cs, DeploymentsAvailable, "NotReady", "Waiting on deployments", now);
    if cs == [] {
      EmptyStatusIsCoherent();
      InitializeCoherent([], now);
    }
  }

  lemma AnyVersion(status: Status, version: string)
    requires Blameless(status)
    ensures Blameless(status.(version := version))
  {}

  // ----- calls

  lemma CommitBlameless(w: World, obj: Serving, own: bool)
    requires AllBlameless(w) && Blameless(obj.status)
    ensures AllBlameless(Commit(w, obj, own))
  {
    hide Blameless, ScriptBlameless;
  }

  lemma EditBlameless(w: World, e: Edit)
    requires AllBlameless(w) && !EditBlames(e)
    ensures AllBlameless(EditStep(w, e))
  {
    hide Blameless, ScriptBlameless, Commit;
    NoStatusIsBlameless();
    if LeavesAlone(w, e) {
      match e
      case Create(key, labels, finalizers, spec) =>
        CommitBlameless(w, Serving(key, |w.versions|, -1, 1, false, finalizers, labels, spec, Status([], "")), false);
      case Modify(key, labels, finalizers, spec) =>
        if Stored(w, key) {
          var current := Live(w, key);
          var sent := current.(labels := labels, finalizers := finalizers, spec := spec);
          CommitBlameless(w, Rewritten(current, sent), false);
        }
      case Restatus(key, status) =>
        if Stored(w, key) {
          CommitBlameless(w, Live(w, key).(status := status), false);
        }
      case Delete(key) =>
        if Stored(w, key) {
          var current := Live(w, key);
          CommitBlameless(w, current.(deleting := true, generation := current.generation + 1), false);
        }
      case Sync(key, rv) =>
    }
  }

  lemma {:induction false} EditsBlameless(w: World, edits: seq<Edit>)
    requires AllBlameless(w) && forall e | e in edits :: !EditBlames(e)
    ensures AllBlameless(EditAll(w, edits))
    decreases |edits|
  {
    hide AllBlameless, EditStep, EditBlames;
    if edits != [] {
      assert edits[0] in edits;
      EditBlameless(w, edits[0]);
      assert forall e | e in edits[1..] :: e in edits;
      EditsBlameless(EditStep(w, edits[0]), edits[1..]);
    }
  }

  lemma TurnBlameless(w: World)
    requires AllBlameless(w)
    ensures AllBlameless(TakeTurn(w))
  {
    hide EditAll, Blameless, EditBlames;
    var turn := NextTurn(w);
    var rest := w.(turns := if w.turns == [] then [] else w.turns[1..], now := turn.now);
    assert forall t | t in rest.turns :: t in w.turns;
    if w.turns != [] {
      assert turn in w.turns;
    }
    EditsBlameless(rest, turn.edits);
  }

  lemma SendBlameless(w: World, fault: Fault, refusal: Option<ApiError>, obj: Serving)
    requires AllBlameless(w) && Blameless(obj.status)
    ensures AllBlameless(Send(w, fault, refusal, obj).w)
    ensures var reply := Send(w, fault, refusal, obj); reply.result.Ok? ==> Blameless(reply.result.value.status)
  {
    hide Blameless, ScriptBlameless;
    CommitBlameless(w, obj, true);
  }

  lemma PatchBlameless(w0: World, key: Key, rv: int, finalizers: seq<string>)
    requires AllBlameless(w0)
    ensures AllBlameless(Patch(w0, key, rv, finalizers).w)
    ensures var reply := Patch(w0, key, rv, finalizers); reply.result.Ok? ==> Blameless(reply.result.value.status)
  {
    hide Blameless, ScriptBlameless, TakeTurn, Send;
    TurnBlameless(w0);
    NoStatusIsBlameless();
    var w := TakeTurn(w0);
    var refusal := Refusal(w, key, rv, finalizers);
    SendBlameless(w, NextTurn(w0).fault, refusal,
                  if refusal.None? then Live(w, key).(finalizers := finalizers) else ZERO);
  }

  lemma UpdateBlameless(w0: World, sent: Serving)
    requires AllBlameless(w0)
    ensures AllBlameless(Update(w0, sent).w)
  {
    hide Blameless, ScriptBlameless, TakeTurn, Send;
    TurnBlameless(w0);
    NoStatusIsBlameless();
    var w := TakeTurn(w0);
    var refusal := Refusal(w, sent.key, sent.rv, sent.finalizers);
    SendBlameless(w, NextTurn(w0).fault, refusal, if refusal.None? then Rewritten(Live(w, sent.key), sent) else ZERO);
  }

  lemma UpdateStatusBlameless(w0: World, sent: Serving)
    requires AllBlameless(w0) && Blameless(sent.status)
    ensures AllBlameless(UpdateStatus(w0, sent).w)
    ensures var reply := UpdateStatus(w0, sent); reply.result.Ok? ==> Blameless(reply.result.value.status)
  {
    hide Blameless, ScriptBlameless, TakeTurn, Send;
    TurnBlameless(w0);
    NoStatusIsBlameless();
    var w := TakeTurn(w0);
    var refusal := Refusal(w, sent.key, sent.rv, []);
    SendBlameless(w, NextTurn(w0).fault, refusal,
                  if refusal.None? then Live(w, sent.key).(status := sent.status) else ZERO);
  }

  lemma {:induction false} RetriesBlameless(w0: World, attempt: nat, existing0: Serving, desired: Serving)
    requires AllBlameless(w0) && Blameless(desired.status) && attempt < ATTEMPTS
    ensures AllBlameless(UpdateStatusFrom(w0, attempt, existing0, desired).w)
    decreases ATTEMPTS - attempt
  {
    hide AllBlameless, Blameless, Fetch, UpdateStatus;
    var fetched := if attempt == 0 then Reply(w0, Ok(existing0)) else Fetch(w0, desired.key);
    FetchBlameless(w0, desired.key);
    if fetched.result.Ok? && fetched.result.value.status != desired.status {
      var existing := fetched.result.value;
      var reply := UpdateStatus(fetched.w, existing.(status := desired.status));
      UpdateStatusBlameless(fetched.w, existing.(status := desired.status));
      if reply.result.Err? && reply.result.error == Conflict && attempt + 1 < ATTEMPTS {
        RetriesBlameless(reply.w, attempt + 1, existing, desired);
      }
    }
  }

  lemma FetchBlameless(w0: World, key: Key)
    requires AllBlameless(w0)
    ensures AllBlameless(Fetch(w0, key).w)
  {
    hide AllBlameless, TakeTurn;
    TurnBlameless(w0);
  }

  /** The log, the cluster and the generations do not matter. */
  lemma LoggedBlameless(w: World, w': World)
    requires AllBlameless(w) && w'.versions == w.versions && w'.cache == w.cache && w'.turns == w.turns
    ensures AllBlameless(w')
  {
    hide Blameless;
  }

  lemma {:induction false} ApplyPhaseBlameless(w: World, instance: Serving, rs: seq<Resource>)
    requires AllBlameless(w)
    ensures AllBlameless(ApplyPhase(w, instance, rs).w)
    decreases |rs|
  {
    hide AllBlameless, TakeTurn, LiveVersion;
    if rs != [] {
      TurnBlameless(w);
      var first := ApplyOne(w, instance, rs[0]);
      LoggedBlameless(TakeTurn(w), first.w);
      ApplyPhaseBlameless(first.w, instance, rs[1..]);
    }
  }

  lemma {:induction false} DeletePhaseBlameless(w: World, rs: seq<Resource>)
    requires AllBlameless(w)
    ensures AllBlameless(DeletePhase(w, rs).w)
    decreases |rs|
  {
    hide AllBlameless, TakeTurn;
    if rs != [] {
      TurnBlameless(w);
      var first := DeleteOne(w, rs[0]);
      LoggedBlameless(TakeTurn(w), first.w);
      DeletePhaseBlameless(first.w, rs[1..]);
    }
  }

  lemma {:induction false} ProbeBlameless(w: World, deployments: seq<Resource>)
    requires AllBlameless(w)
    ensures AllBlameless(ProbeDeployments(w, deployments).w)
    decreases |deployments|
  {
    hide AllBlameless, TakeTurn, Available;
    if deployments != [] {
      TurnBlameless(w);
      ProbeBlameless(TakeTurn(w), deployments[1..]);
    }
  }

  // ----- the steps of a pass

  ghost predicate PassBlameless(p: Pass) {
    AllBlameless(p.w) && Blameless(p.obj.status)
  }

  lemma CachedBlameless(w: World, key: Key)
    requires AllBlameless(w) && Listed(w, key).Some?
    ensures Blameless(Listed(w, key).value.status)
  {
    assert EntryBlameless(w.cache[key]);
  }

  lemma FilteredBlameless(w0: World, resource: Serving)
    requires AllBlameless(w0) && Blameless(resource.status)
    ensures PassBlameless(UpdateFinalizersFiltered(w0, resource))
  {
    hide AllBlameless, Blameless, TakeTurn, Patch, PatchDue;
    TurnBlameless(w0);
    NoStatusIsBlameless();
    var w := TakeTurn(w0);
    if Listed(w, resource.key).Some? {
      var existing := Listed(w, resource.key).value;
      var due := PatchDue(resource, existing);
      if due.Some? {
        PatchBlameless(w, resource.key, existing.rv, due.value);
      }
    }
  }

  lemma StageBlameless(stage: Stage, w: World, manifest: seq<Resource>, instance: Serving)
    requires AllBlameless(w) && Blameless(instance.status)
    ensures PassBlameless(RunStage(stage, w, manifest, instance))
  {
    hide AllBlameless, Blameless, Update, UpdateStatus, ApplyPhases, ProbeDeployments, DeletePhase, Marked;
    match stage
    case EnsuringFinalizer => UpdateBlameless(w, instance.(finalizers := instance.finalizers + [D]));
    case InitializingStatus =>
      if instance.status.conditions == [] {
        MarksAreBlameless([], instance.status.version, "", w.now);
        UpdateStatusBlameless(w, WithMark(instance, Initializing, w.now));
      }
    case Installing =>
      PhasesAreOneApply(w, instance, InstallPhases(manifest));
      ApplyPhaseBlameless(w, instance, InSequence(InstallPhases(manifest)));
      var now := ApplyPhases(w, instance, InstallPhases(manifest)).w.now;
      MarksAreBlameless(instance.status.conditions, instance.status.version, "apply", now);
      AnyVersion(WithMark(instance, InstallSucceeding, now).status, VERSION);
    case CheckingDeployments =>
      ProbeBlameless(w, Deployments(manifest));
      var now := ProbeDeployments(w, Deployments(manifest)).w.now;
      MarksAreBlameless(instance.status.conditions, instance.status.version, "", now);
    case DeletingObsolete => DeletePhaseBlameless(w, Obsolete(instance.key.namespace));
  }

  lemma {:induction false} StagesBlameless(stages: seq<Stage>, w: World, manifest: seq<Resource>, instance: Serving)
    requires AllBlameless(w) && Blameless(instance.status)
    ensures PassBlameless(RunStages(stages, w, manifest, instance))
    decreases |stages|
  {
    hide AllBlameless, Blameless, RunStage;
    if stages != [] {
      StageBlameless(stages[0], w, manifest, instance);
      var first := RunStage(stages[0], w, manifest, instance);
      StagesBlameless(stages[1..], first.w, manifest, first.obj);
    }
  }

  lemma KindBlameless(w: World, instance: Serving)
    requires AllBlameless(w) && Blameless(instance.status)
    ensures PassBlameless(ReconcileKind(w, instance))
  {
    hide AllBlameless, Blameless, TakeTurn, RunStages, Render, Marked;
    var gate := PassGate(w.servings, instance.key, instance.generation);
    var counted := Report(w, instance.key, gate.report).(servings := gate.servings);
    LoggedBlameless(w, counted);
    TurnBlameless(counted);
    var w1 := TakeTurn(counted);
    MarksAreBlameless(instance.status.conditions, instance.status.version, "transform", w1.now);
    if Render(w1.config, instance).Some? {
      StagesBlameless(STAGES, w1, Render(w1.config, instance).value, instance);
    }
  }

  lemma LiveBlameless(w: World, original: Serving)
    requires AllBlameless(w) && Blameless(original.status)
    ensures PassBlameless(ReconcileLive(w, original))
  {
    hide AllBlameless, Blameless, UpdateFinalizersFiltered, ReconcileKind;
    FilteredBlameless(w, original.(finalizers := SortedList(Elements(original.finalizers) + {K})));
    var prepared := SetFinalizer(w, original);
    KindBlameless(prepared.w, prepared.obj);
  }

  lemma DropFinalizerBlameless(w0: World, key: Key)
    requires AllBlameless(w0)
    ensures AllBlameless(DropFinalizer(w0, key).w)
  {
    hide Blameless, ScriptBlameless, TakeTurn, Update;
    TurnBlameless(w0);
    var w := TakeTurn(w0);
    if Listed(w, key).Some? && Listed(w, key).value.finalizers != [] {
      CachedBlameless(w, key);
      var edited := Listed(w, key).value.(finalizers := Listed(w, key).value.finalizers[1..]);
      var at := w.cache[key].at;
      var released := w.(cache := w.cache[key := Entry(at, Some(edited))],
                         released := w.released + {at},
                         log := w.log + [Released(key, at)]);
      assert AllBlameless(released);
      UpdateBlameless(released, edited);
    }
  }

  lemma FinalizeBlameless(w: World, original: Serving)
    requires AllBlameless(w)
    ensures AllBlameless(FinalizeKind(w, original).w)
  {
    hide AllBlameless, DropFinalizer, DeletePhases, HeadIsD;
    var servings := w.servings - {original.key};
    var begun := w.(servings := servings, log := w.log + [Finalizing(original.key, servings != map[])]);
    LoggedBlameless(w, begun);
    PhasesAreOneDelete(begun, TeardownPhases(begun.config));
    DeletePhaseBlameless(begun, InSequence(TeardownPhases(begun.config)));
    var deleted := if servings == map[] then DeletePhases(begun, TeardownPhases(begun.config)) else Phase(begun, true);
    DropFinalizerBlameless(deleted.w, original.key);
  }

  lemma DeletingBlameless(w: World, original: Serving)
    requires AllBlameless(w) && Blameless(original.status)
    ensures AllBlameless(ReconcileDeleting(w, original).w)
    ensures ReconcileDeleting(w, original).out != Panicking ==> Blameless(ReconcileDeleting(w, original).obj.status)
  {
    hide AllBlameless, Blameless, FinalizeKind, UpdateFinalizersFiltered;
    FinalizeBlameless(w, original);
    var finalized := FinalizeKind(w, original);
    var finalizers := Elements(original.finalizers);
    var kept := if finalized.out == Fine then finalizers - {K} else finalizers;
    FilteredBlameless(finalized.w, original.(finalizers := SortedList(kept)));
  }

  lemma ReconcileBlameless(w0: World, key: Key)
    requires AllBlameless(w0)
    ensures AllBlameless(Reconcile(w0, key).w)
  {
    hide AllBlameless, Blameless, TakeTurn, ReconcileLive, ReconcileDeleting, SameStatus, UpdateStatusFrom;
    TurnBlameless(w0);
    var w := TakeTurn(w0);
    if Listed(w, key).Some? {
      var original := Listed(w, key).value;
      CachedBlameless(w, key);
      LiveBlameless(w, original);
      DeletingBlameless(w, original);
      var pass := if original.deleting then ReconcileDeleting(w, original) else ReconcileLive(w, original);
      if pass.out != Panicking {
        RetriesBlameless(pass.w, 0, original, pass.obj);
      }
    }
  }

  lemma RestartBlameless(w: World)
    requires AllBlameless(w)
    ensures AllBlameless(Restart(w))
  {
    hide Blameless, ScriptBlameless;
  }

  /** In every run in which nobody else blames them, no status ever stored blames
      dependencies: whatever fails, the operator blames the install or the
      Deployments. */
  lemma {:induction false} NeverBlamed(w: World, events: seq<Event>)
    requires AllBlameless(w)
    ensures AllBlameless(Run(w, events))
    decreases |events|
  {
    hide AllBlameless, TakeTurn, Reconcile, Restart;
    if events != [] {
      match events[0] {
        case Elapse => TurnBlameless(w);
        case PassOver(key) =>
          ReconcileBlameless(w, key);
          RestartBlameless(Reconcile(w, key).w);
        case Restarting => RestartBlameless(w);
      }
      NeverBlamed(Happen(w, events[0]), events[1..]);
    }
  }

  lemma InitialIsBlameless(w: World)
    requires Initial(w) && ScriptBlameless(w.turns)
    ensures AllBlameless(w)
  {}

  /** After every such run, with failed installs, conflicts, lost calls and crashes:
      if from then on nobody interferes and every call succeeds, an undeleted object
      that the gate admits and whose spec can be rendered has both finalizers, the
      version and Ready True after two passes and for good. */
  lemma Recovers(w: World, events: seq<Event>, key: Key, n: nat)
    requires Initial(w) && ScriptBlameless(w.turns) && n >= 2
    requires var end := Run(w, events);
             && Quiet(end) && Stored(end, key) && !Live(end, key).deleting && Render(end.config, Live(end, key)).Some?
             && Admitted(end, key)
    ensures var after := SyncedPasses(Run(w, events), key, n);
            Converged(after, key) && IsTrue(Live(after, key).status.conditions, Ready)
  {
    hide Run, Inv, Blameless, ScriptBlameless, Render, SyncedPasses, EditStep, Settled, At;
    var end := Run(w, events);
    InitialOK(w);
    RunKeeps(w, events);
    ReachablyPlaced(end, key);
    InitialIsBlameless(w);
    NeverBlamed(w, events);
    BlamelessMeaning(Live(end, key).status);
    ConvergesInTwoPasses(end, key, n);
  }

  lemma BlamelessMeaning(status: Status)
    requires Blameless(status)
    ensures WellFormed(status.conditions) && !IsFalse(status.conditions, DependenciesInstalled)
  {}
}
