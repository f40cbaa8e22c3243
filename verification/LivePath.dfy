/** The undeleted path: whatever it applies, it applies for an object on which D
    is stored at that moment. */
module LivePath {
  import opened Calls
  import opened Conditions
  import opened Invariant
  import opened Lifecycle
  import opened Manifests
  import opened Passes
  import opened Resources
  import opened Text
  import opened World
  import opened Writes

  /** No version of the object that carried D was released. */
  ghost predicate Unreleased(w: World, uid: int) {
    forall rv | rv in w.released && rv < |w.versions| && w.versions[rv].obj.uid == uid :: !HasD(w.versions[rv])
  }

  /** D is or was stored on the object. */
  ghost predicate EverHadD(w: World, uid: int) {
    exists n: nat :: n < |w.versions| && HasD(w.versions[n]) && w.versions[n].obj.uid == uid
  }

  /** The instance a pass works on: either nothing the server knows, or an
      object seen undeleted and never released. */
  ghost predicate InstanceOK(w: World, instance: Serving) {
    if instance.key.name == "" then D !in instance.finalizers
    else
      && 0 <= instance.rv < |w.versions|
      && w.versions[instance.rv].obj.key == instance.key
      && w.versions[instance.rv].obj.uid == instance.uid
      && w.versions[instance.rv].obj.labels == instance.labels && w.versions[instance.rv].obj.spec == instance.spec
      && Seen(w, instance.key, instance.uid)
      && Unreleased(w, instance.uid)
      && (D in instance.finalizers ==> EverHadD(w, instance.uid))
      && Faithful(w, instance)
  }

  /** Besides K and D the instance has no finalizer that the version it copies has
      not, and it lacks none, unless that version was released. */
  predicate Faithful(w: World, instance: Serving)
    requires 0 <= instance.rv < |w.versions|
  {
    && AddsOwn(w.versions[instance.rv].obj.finalizers, instance.finalizers)
    && (KeepsOthers(w.versions[instance.rv].obj.finalizers, instance.finalizers) || instance.rv in w.released)
  }

  lemma InstanceStays(a: World, b: World, instance: Serving)
    requires Inv(a) && Inv(b) && Calm(a, b) && InstanceOK(a, instance)
    ensures InstanceOK(b, instance)
  {
    if instance.key.name != "" {
      SeenGrows(a, b, instance.key, instance.uid);
      forall rv | rv in b.released && rv < |b.versions| && b.versions[rv].obj.uid == instance.uid
        ensures !HasD(b.versions[rv])
      {
        assert ReleaseOK(a, rv);
        assert a.versions[rv] == b.versions[rv];
      }
      if D in instance.finalizers {
        var n: nat :| n < |a.versions| && HasD(a.versions[n]) && a.versions[n].obj.uid == instance.uid;
        assert b.versions[n] == a.versions[n];
      }
    }
  }

  /** An object the cache shows undeleted was never released with D on it. */
  lemma UndeletedIsUnreleased(w: World, key: Key)
    requires Inv(w) && key in w.cache && !w.versions[w.cache[key].at].obj.deleting
    ensures Unreleased(w, w.versions[w.cache[key].at].obj.uid)
  {
    var at := w.cache[key].at;
    var uid := w.versions[at].obj.uid;
    assert EntryOK(w, key);
    forall rv | rv in w.released && rv < |w.versions| && w.versions[rv].obj.uid == uid ensures !HasD(w.versions[rv]) {
      assert ReleaseOK(w, rv);
      assert VersionOK(w.versions, rv) && VersionOK(w.versions, at);
      assert Ordered(w.versions[rv], w.versions[at]);
    }
  }

  /** D stays: an object that had it and was never released is live, with it. */
  lemma {:induction false} DStays(w: World, n: nat)
    requires Inv(w) && n < |w.versions| && HasD(w.versions[n]) && Unreleased(w, w.versions[n].obj.uid)
    ensures var key := w.versions[n].obj.key;
            && Stored(w, key) && Live(w, key).uid == w.versions[n].obj.uid && D in Live(w, key).finalizers
    decreases |w.versions| - n
  {
    var key := w.versions[n].obj.key;
    assert Continued(w, n) && VersionOK(w.versions, n);
    if !(key in w.live && w.live[key] == n) {
      var s: nat :| Replaces(w.versions, s, n);
      assert VersionOK(w.versions, s);
      assert LosesD(w.versions, s) ==> n in w.released;
      DStays(w, s);
    }
  }

  // ----- log entries that need no version

  /** Adding to the log, the cluster or the servings keeps the invariant if the
      new entries are in order. */
  lemma LogGrows(w: World, w': World)
    requires Inv(w)
    requires w' == w.(servings := w'.servings, cluster := w'.cluster, log := w'.log) && w.log <= w'.log
    requires forall j: nat | |w.log| <= j < |w'.log| :: ActionOK(w', j)
    ensures Inv(w') && Calm(w, w') && NoNewD(w, w')
  {
    WrittenStays(w.log, w'.log);
    forall n: nat | n < |w'.versions| ensures Continued(w', n) {
      assert Continued(w, n);
    }
    forall j: nat | j < |w'.log| ensures ActionOK(w', j) {
      if j < |w.log| {
        ActionStays(w, w', j);
      }
    }
    forall rv | rv in w'.released
      ensures Happened(w'.log, Released(w'.versions[rv].obj.key, rv), |w'.log|)
    {
      HappenedStays(w.log, w'.log, Released(w.versions[rv].obj.key, rv), |w.log|, |w'.log|);
    }
    forall key | key in w'.cache ensures EntryOK(w', key) {
      assert EntryOK(w, key);
    }
    forall n: nat | n < |w'.versions| && HasD(w'.versions[n])
      ensures Seen(w', w'.versions[n].obj.key, w'.versions[n].obj.uid)
    {
      assert Seen(w, w.versions[n].obj.key, w.versions[n].obj.uid);
    }
    forall rv | rv in w'.released ensures ReleaseOK(w', rv) {
      assert ReleaseOK(w, rv);
    }
  }

  // ----- the finalizer of the generated reconciler

  lemma SubsetHasNoD(finalizers: seq<string>)
    ensures D in SortedList(Elements(finalizers) + {K}) <==> D in finalizers
    ensures D in SortedList(Elements(finalizers) - {K}) <==> D in finalizers
    ensures D in SortedList(Elements(finalizers)) <==> D in finalizers
    ensures K in SortedList(Elements(finalizers) + {K})
  {
    assert D[0] != K[0];
    assert forall s: set<string> :: (K in SortedList(s) <==> K in Elements(SortedList(s)));
    assert forall s: set<string> :: (D in SortedList(s) <==> D in Elements(SortedList(s)));
  }

  /** The patch due on a copy from the cache may follow the version it copies. */
  lemma PatchDueFollows(w: World, resource: Serving, existing: Serving)
    requires Inv(w) && Snap(w.versions, w.released, existing)
    requires PatchDue(resource, existing).Some?
    ensures MayFollow(w, existing.rv, PatchDue(resource, existing).value)
  {
    SubsetHasNoD(existing.finalizers);
    var due := PatchDue(resource, existing).value;
    assert D[0] != K[0];
    assert D in due <==> D in existing.finalizers;
    assert D in existing.finalizers ==> D in Elements(w.versions[existing.rv].obj.finalizers);
  }

  lemma ListedIsSnap(w: World, key: Key)
    requires Inv(w) && Listed(w, key).Some?
    ensures key in w.cache && Snap(w.versions, w.released, Listed(w, key).value)
    ensures Listed(w, key).value.rv == w.cache[key].at && Listed(w, key).value.key == key
  {
    assert EntryOK(w, key);
  }

  lemma FilteredKeeps(w: World, resource: Serving)
    requires Inv(w)
    ensures Inv(UpdateFinalizersFiltered(w, resource).w) && Calm(w, UpdateFinalizersFiltered(w, resource).w)
  {
    hide Inv, Env, Grows, TakeTurn, Patch, PatchDue, Snap, MayFollow, Listed;
    var w1 := TakeTurn(w);
    TurnKeeps(w);
    EnvIsCalm(w, w1);
    var existing := Listed(w1, resource.key);
    if existing.Some? {
      ListedIsSnap(w1, resource.key);
      var due := PatchDue(resource, existing.value);
      if due.Some? {
        PatchDueFollows(w1, resource, existing.value);
        SnapInRange(w1, existing.value);
        PatchKeeps(w1, resource.key, existing.value.rv, due.value);
        CalmTransitive(w, w1, Patch(w1, resource.key, existing.value.rv, due.value).w);
      }
    }
  }

  lemma SnapInRange(w: World, o: Serving)
    requires Snap(w.versions, w.released, o)
    ensures 0 <= o.rv < |w.versions|
  {}

  /** The cache showed the key undeleted when the pass began: a patch that adds
      K and is accepted was accepted on an undeleted object. */
  lemma AddedToUndeleted(w: World, w1: World, existing: Serving, key: Key)
    requires Inv(w) && Inv(w1) && Env(w, w1)
    requires key in w.cache && !w.versions[w.cache[key].at].obj.deleting
    requires key in w1.cache && existing.rv == w1.cache[key].at && existing.key == key
    requires Snap(w1.versions, w1.released, existing) && K !in existing.finalizers
    requires FinalizersAllowed(w1.versions[existing.rv].obj, existing.finalizers + [K])
    ensures !w1.versions[existing.rv].obj.deleting
  {
    var at := existing.rv;
    assert K in Elements(existing.finalizers + [K]);
    if K in w1.versions[at].obj.finalizers {
      // then the cache's copy had been edited, and that version was the one seen when the pass began
      assert at in w.released;
      assert ReleaseOK(w, at) && EntryOK(w, key);
      assert w.cache[key].at == at;
    }
  }

  /** After the first step of a pass over an undeleted object, its instance is
      one the install may be run for, and not being deleted. */
  lemma SetFinalizerSafe(w: World, original: Serving)
    requires Inv(w)
    requires original.key in w.cache && w.cache[original.key].obj == Some(original) && !original.deleting
    requires original.key.name != ""
    ensures Inv(SetFinalizer(w, original).w) && Calm(w, SetFinalizer(w, original).w)
    ensures InstanceOK(SetFinalizer(w, original).w, SetFinalizer(w, original).obj)
    ensures !SetFinalizer(w, original).obj.deleting
  {
    var key := original.key;
    assert EntryOK(w, key);
    UndeletedIsUnreleased(w, key);
    assert InstanceOK(w, original) by {
      if D in original.finalizers {
        assert D in Elements(original.finalizers);
        assert HasD(w.versions[original.rv]);
      }
    }
    SubsetHasNoD(original.finalizers);
    var resource := original.(finalizers := SortedList(Elements(original.finalizers) + {K}));
    FilteredKeeps(w, resource);
    var pass := UpdateFinalizersFiltered(w, resource);
    FilteredInstance(w, original, resource);
  }

  lemma FilteredInstance(w: World, original: Serving, resource: Serving)
    requires Inv(w) && Inv(UpdateFinalizersFiltered(w, resource).w)
    requires original.key in w.cache && w.cache[original.key].obj == Some(original) && !original.deleting
    requires InstanceOK(w, original) && resource == original.(finalizers := resource.finalizers)
    requires original.key.name != ""
    requires K in resource.finalizers && (D in resource.finalizers <==> D in original.finalizers)
    requires Elements(original.finalizers) <= Elements(resource.finalizers) <= Elements(original.finalizers) + {K}
    ensures InstanceOK(UpdateFinalizersFiltered(w, resource).w, UpdateFinalizersFiltered(w, resource).obj)
    ensures !UpdateFinalizersFiltered(w, resource).obj.deleting
  {
    hide Inv, Env, Grows, TakeTurn, Patch, Snap, MayFollow, Listed, NoNewD, CacheForward;
    var key := original.key;
    var w1 := TakeTurn(w);
    TurnKeeps(w);
    EnvIsCalm(w, w1);
    InstanceStays(w, w1, resource);
    var existing := Listed(w1, key);
    if existing.Some? && K !in existing.value.finalizers {
      var due := existing.value.finalizers + [K];
      ListedIsSnap(w1, key);
      SnapInRange(w1, existing.value);
      PatchDueFollows(w1, resource, existing.value);
      PatchKeeps(w1, key, existing.value.rv, due);
      var reply := Patch(w1, key, existing.value.rv, due);
      if reply.result.Ok? {
        PatchedInstance(w, w1, reply.w, original, existing.value, reply.result.value);
      }
    }
  }

  lemma PatchedInstance(w: World, w1: World, w2: World, original: Serving, existing: Serving, patched: Serving)
    requires Inv(w) && Inv(w1) && Inv(w2) && Env(w, w1) && Calm(w1, w2) && original.key.name != ""
    requires original.key in w.cache && w.cache[original.key].obj == Some(original) && !original.deleting
    requires original.key in w1.cache && existing.rv == w1.cache[original.key].at && existing.key == original.key
    requires Snap(w1.versions, w1.released, existing) && K !in existing.finalizers
    requires Rewrote(w2, existing.rv, existing.finalizers + [K], patched)
    ensures InstanceOK(w2, patched) && !patched.deleting
  {
    hide Inv, Env;
    assert w2.versions[existing.rv] == w1.versions[existing.rv];
    UndeletedExisting(w, w1, original, existing);
    UndeletedInstance(w1, existing);
    var wanted := existing.(finalizers := existing.finalizers + [K]);
    InstanceStays(w1, w2, wanted);
    PatchedEverHadD(w2, existing.rv, wanted.finalizers, patched);
  }

  lemma PatchedEverHadD(w: World, rv: int, finalizers: seq<string>, patched: Serving)
    requires Rewrote(w, rv, finalizers, patched)
    ensures D in patched.finalizers ==> EverHadD(w, patched.uid)
  {
    if D in patched.finalizers {
      assert HasD(w.versions[patched.rv]);
    }
  }

  lemma UndeletedExisting(w: World, w1: World, original: Serving, existing: Serving)
    requires Inv(w) && Inv(w1) && Env(w, w1)
    requires original.key in w.cache && w.cache[original.key].obj == Some(original) && !original.deleting
    requires original.key in w1.cache && existing.rv == w1.cache[original.key].at && existing.key == original.key
    requires Snap(w1.versions, w1.released, existing) && K !in existing.finalizers
    requires FinalizersAllowed(w1.versions[existing.rv].obj, existing.finalizers + [K])
    ensures !w1.versions[existing.rv].obj.deleting
  {
    hide Env;
    assert w.cache[original.key].at == original.rv && !w.versions[original.rv].obj.deleting by {
      assert EntryOK(w, original.key);
    }
    AddedToUndeleted(w, w1, existing, original.key);
  }

  lemma UndeletedInstance(w1: World, existing: Serving)
    requires Inv(w1) && existing.key.name != ""
    requires existing.key in w1.cache && existing.rv == w1.cache[existing.key].at
    requires Snap(w1.versions, w1.released, existing) && !w1.versions[existing.rv].obj.deleting
    ensures InstanceOK(w1, existing.(finalizers := existing.finalizers + [K]))
  {
    hide Inv, Unreleased, EverHadD;
    UndeletedIsUnreleased(w1, existing.key);
    AppendK(existing.finalizers);
    SnapEverHadD(w1, existing);
  }

  lemma AppendK(finalizers: seq<string>)
    ensures D in finalizers + [K] <==> D in finalizers
  {
    assert D[0] != K[0];
  }

  lemma SnapEverHadD(w: World, o: Serving)
    requires Snap(w.versions, w.released, o)
    ensures D in o.finalizers ==> EverHadD(w, o.uid)
  {
    if D in o.finalizers {
      assert D in Elements(o.finalizers);
      assert HasD(w.versions[o.rv]);
    }
  }

  // ----- the stages

  lemma EnsureFinalizerSafe(w: World, instance: Serving)
    requires Inv(w) && InstanceOK(w, instance)
    ensures var p := EnsureFinalizer(w, instance);
            && Inv(p.w) && Calm(w, p.w)
            && (p.out == Fine ==> p.obj.key.name != "" && D in p.obj.finalizers && InstanceOK(p.w, p.obj))
  {
    CalmReflexive(w);
    if D !in instance.finalizers {
      var marked := instance.(finalizers := instance.finalizers + [D]);
      var p := EnsureFinalizer(w, instance);
      if instance.key.name == "" {
        TurnKeeps(w);
        EnvIsCalm(w, TakeTurn(w));
      } else {
        assert Seen(w, instance.key, instance.uid);
        UpdateKeeps(w, marked);
        var reply := Update(w, marked);
        if reply.result.Ok? {
          assert D in reply.result.value.finalizers;
          assert HasD(reply.w.versions[reply.result.value.rv]);
          InstanceStays(w, reply.w, instance);
        }
      }
    }
  }

  lemma InitStatusSafe(w: World, instance: Serving)
    requires Inv(w) && InstanceOK(w, instance) && instance.key.name != "" && D in instance.finalizers
    ensures var p := InitStatus(w, instance);
            && Inv(p.w) && Calm(w, p.w)
            && (p.out == Fine ==> p.obj.key.name != "" && EverHadD(p.w, p.obj.uid) && InstanceOK(p.w, p.obj))
  {
    CalmReflexive(w);
    if instance.status.conditions == [] {
      var initialized := WithMark(instance, Initializing, w.now);
      UpdateStatusKeeps(w, initialized);
      var reply := UpdateStatus(w, initialized);
      InstanceStays(w, reply.w, instance);
      if reply.result.Ok? {
        assert w.versions[instance.rv] == reply.w.versions[instance.rv];
      }
    }
  }

  /** An instance whose object had D and was not released: the manifest may be
      applied for it. */
  ghost predicate Applicable(w: World, instance: Serving) {
    instance.key.name != "" && InstanceOK(w, instance) && EverHadD(w, instance.uid)
  }

  lemma ApplicableStays(a: World, b: World, instance: Serving)
    requires Inv(a) && Inv(b) && Calm(a, b) && Applicable(a, instance)
    ensures Applicable(b, instance)
  {
    InstanceStays(a, b, instance);
    var n: nat :| n < |a.versions| && HasD(a.versions[n]) && a.versions[n].obj.uid == instance.uid;
    assert b.versions[n] == a.versions[n];
  }

  lemma ApplicableIsLive(w: World, instance: Serving)
    requires Inv(w) && Applicable(w, instance)
    ensures Stored(w, instance.key) && Live(w, instance.key).uid == instance.uid
    ensures D in Live(w, instance.key).finalizers
  {
    var n: nat :| n < |w.versions| && HasD(w.versions[n]) && w.versions[n].obj.uid == instance.uid;
    assert VersionOK(w.versions, n) && VersionOK(w.versions, instance.rv);
    DStays(w, n);
  }

  lemma ApplyOneSafe(w0: World, instance: Serving, r: Resource)
    requires Inv(w0) && Applicable(w0, instance)
    ensures Inv(ApplyOne(w0, instance, r).w) && Calm(w0, ApplyOne(w0, instance, r).w)
    ensures Applicable(ApplyOne(w0, instance, r).w, instance)
  {
    hide Inv, Applicable, Env, TakeTurn, Calm;
    var w := TakeTurn(w0);
    TurnKeeps(w0);
    EnvIsCalm(w0, w);
    ApplicableStays(w0, w, instance);
    ApplicableIsLive(w, instance);
    var w' := ApplyOne(w0, instance, r).w;
    LogGrows(w, w');
    CalmTransitive(w0, w, w');
    ApplicableStays(w, w', instance);
  }

  lemma {:induction false} ApplyPhaseSafe(w: World, instance: Serving, rs: seq<Resource>)
    requires Inv(w) && Applicable(w, instance)
    ensures Inv(ApplyPhase(w, instance, rs).w) && Calm(w, ApplyPhase(w, instance, rs).w)
    ensures Applicable(ApplyPhase(w, instance, rs).w, instance)
    decreases |rs|
  {
    hide Inv, Applicable, Calm, ApplyOne;
    CalmReflexive(w);
    if rs != [] {
      var first := ApplyOne(w, instance, rs[0]);
      ApplyOneSafe(w, instance, rs[0]);
      if first.ok {
        ApplyPhaseSafe(first.w, instance, rs[1..]);
        CalmTransitive(w, first.w, ApplyPhase(w, instance, rs).w);
      }
    }
  }

  lemma {:induction false} ApplyPhasesSafe(w: World, instance: Serving, phases: seq<seq<Resource>>)
    requires Inv(w) && Applicable(w, instance)
    ensures Inv(ApplyPhases(w, instance, phases).w) && Calm(w, ApplyPhases(w, instance, phases).w)
    ensures Applicable(ApplyPhases(w, instance, phases).w, instance)
    decreases |phases|
  {
    hide Inv, Applicable, Calm, ApplyPhase;
    CalmReflexive(w);
    if phases != [] {
      var first := ApplyPhase(w, instance, phases[0]);
      ApplyPhaseSafe(w, instance, phases[0]);
      if first.ok {
        ApplyPhasesSafe(first.w, instance, phases[1..]);
        CalmTransitive(w, first.w, ApplyPhases(w, instance, phases).w);
      }
    }
  }

  /** Marks do not change what an instance is. */
  lemma MarkedApplicable(w: World, instance: Serving, status: Status)
    requires Applicable(w, instance)
    ensures Applicable(w, instance.(status := status))
  {}

  lemma {:induction false} ProbeKeeps(w: World, deployments: seq<Resource>)
    requires Inv(w)
    ensures Inv(ProbeDeployments(w, deployments).w) && Calm(w, ProbeDeployments(w, deployments).w)
    decreases |deployments|
  {
    hide Inv, Calm, Env, TakeTurn;
    CalmReflexive(w);
    if deployments != [] {
      var next := TakeTurn(w);
      TurnKeeps(w);
      EnvIsCalm(w, next);
      ProbeKeeps(next, deployments[1..]);
      CalmTransitive(w, next, ProbeDeployments(next, deployments[1..]).w);
    }
  }

  lemma DeleteOneKeeps(w0: World, r: Resource)
    requires Inv(w0)
    ensures Inv(DeleteOne(w0, r).w) && Calm(w0, DeleteOne(w0, r).w) && NoNewD(w0, DeleteOne(w0, r).w)
    ensures DeleteOne(w0, r).w.servings == w0.servings
  {
    hide Inv, Env, TakeTurn, Calm, NoNewD;
    var w := TakeTurn(w0);
    TurnKeeps(w0);
    EnvIsCalm(w0, w);
    var w' := DeleteOne(w0, r).w;
    LogGrows(w, w');
    CalmTransitive(w0, w, w');
    NoNewDTransitive(w0, w, w');
  }

  lemma {:induction false} DeletePhaseKeeps(w: World, rs: seq<Resource>)
    requires Inv(w)
    ensures Inv(DeletePhase(w, rs).w) && Calm(w, DeletePhase(w, rs).w) && NoNewD(w, DeletePhase(w, rs).w)
    ensures DeletePhase(w, rs).w.servings == w.servings
    decreases |rs|
  {
    hide Inv, Calm, NoNewD, DeleteOne;
    CalmReflexive(w);
    NoNewDSelf(w);
    if rs != [] {
      var first := DeleteOne(w, rs[0]);
      DeleteOneKeeps(w, rs[0]);
      if first.ok {
        DeletePhaseKeeps(first.w, rs[1..]);
        CalmTransitive(w, first.w, DeletePhase(w, rs).w);
        NoNewDTransitive(w, first.w, DeletePhase(w, rs).w);
      }
    }
  }

  lemma {:induction false} StagesSafe(stages: seq<Stage>, w: World, manifest: seq<Resource>, instance: Serving)
    requires Inv(w) && Applicable(w, instance)
    requires EnsuringFinalizer !in stages && InitializingStatus !in stages
    ensures Inv(RunStages(stages, w, manifest, instance).w) && Calm(w, RunStages(stages, w, manifest, instance).w)
    decreases |stages|
  {
    hide Inv, Applicable, Calm, ApplyPhases, ProbeDeployments, DeletePhase;
    CalmReflexive(w);
    if stages != [] {
      assert stages[0] in stages;
      var first := RunStage(stages[0], w, manifest, instance);
      LateStageSafe(stages[0], w, manifest, instance);
      if first.out == Fine {
        StagesSafe(stages[1..], first.w, manifest, first.obj);
        CalmTransitive(w, first.w, RunStages(stages, w, manifest, instance).w);
      }
    }
  }

  lemma LateStageSafe(stage: Stage, w: World, manifest: seq<Resource>, instance: Serving)
    requires Inv(w) && Applicable(w, instance)
    requires stage != EnsuringFinalizer && stage != InitializingStatus
    ensures var first := RunStage(stage, w, manifest, instance);
            Inv(first.w) && Calm(w, first.w) && Applicable(first.w, first.obj)
  {
    hide Inv, Applicable, Calm, ApplyPhases, ProbeDeployments, DeletePhase, Marked;
    var first := RunStage(stage, w, manifest, instance);
    match stage
    case Installing =>
      ApplyPhasesSafe(w, instance, InstallPhases(manifest));
      MarkedApplicable(first.w, instance, first.obj.status);
    case CheckingDeployments =>
      ProbeKeeps(w, Deployments(manifest));
      ApplicableStays(w, first.w, instance);
      MarkedApplicable(first.w, instance, first.obj.status);
    case DeletingObsolete =>
      DeletePhaseKeeps(w, Obsolete(instance.key.namespace));
      ApplicableStays(w, first.w, instance);
  }

  /** All five stages, for an instance the pass may work on. */
  lemma AllStagesSafe(w: World, manifest: seq<Resource>, instance: Serving)
    requires Inv(w) && InstanceOK(w, instance)
    ensures Inv(RunStages(STAGES, w, manifest, instance).w) && Calm(w, RunStages(STAGES, w, manifest, instance).w)
  {
    hide Inv, InstanceOK, Calm, InitStatus, EnsureFinalizer, Install, CheckDeployments, DeleteObsolete;
    var late := [Installing, CheckingDeployments, DeletingObsolete];
    assert STAGES[1..] == [InitializingStatus] + late && STAGES[1..][1..] == late;
    EnsureFinalizerSafe(w, instance);
    var first := EnsureFinalizer(w, instance);
    if first.out == Fine {
      InitStatusSafe(first.w, first.obj);
      var second := InitStatus(first.w, first.obj);
      CalmTransitive(w, first.w, second.w);
      if second.out == Fine {
        StagesSafe(late, second.w, manifest, second.obj);
        CalmTransitive(w, second.w, RunStages(late, second.w, manifest, second.obj).w);
      }
    }
  }

  lemma ReconcileKindSafe(w: World, instance: Serving)
    requires Inv(w) && InstanceOK(w, instance)
    ensures Inv(ReconcileKind(w, instance).w) && Calm(w, ReconcileKind(w, instance).w)
  {
    hide Inv, InstanceOK, Calm, RunStages, TakeTurn, Render, Env, Marked;
    var gate := PassGate(w.servings, instance.key, instance.generation);
    var counted := Report(w, instance.key, gate.report).(servings := gate.servings);
    LogGrows(w, counted);
    if gate.open {
      var w1 := TakeTurn(counted);
      TurnKeeps(counted);
      EnvIsCalm(counted, w1);
      CalmTransitive(w, counted, w1);
      InstanceStays(w, w1, instance);
      var rendered := if NextTurn(counted).fault == NoFault then Render(w1.config, instance) else None;
      if rendered.Some? {
        AllStagesSafe(w1, rendered.value, instance);
        CalmTransitive(w, w1, RunStages(STAGES, w1, rendered.value, instance).w);
      }
    }
  }

  lemma ReconcileLiveSafe(w: World, original: Serving)
    requires Inv(w)
    requires original.key in w.cache && w.cache[original.key].obj == Some(original) && !original.deleting
    requires original.key.name != ""
    ensures Inv(ReconcileLive(w, original).w) && Calm(w, ReconcileLive(w, original).w)
  {
    hide Inv, InstanceOK, Calm, SetFinalizer, ReconcileKind;
    SetFinalizerSafe(w, original);
    var prepared := SetFinalizer(w, original);
    ReconcileKindSafe(prepared.w, prepared.obj);
    CalmTransitive(w, prepared.w, ReconcileLive(w, original).w);
  }
}
