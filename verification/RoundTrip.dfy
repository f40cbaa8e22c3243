/** An install followed by the last finalization: what it leaves in the cluster. */
module RoundTrip {
  import opened Calls
  import opened Conditions
  import opened Invariant
  import opened Lifecycle
  import opened LivePath
  import opened Manifests
  import opened PassOutcomes
  import opened Passes
  import opened Resources
  import opened Safety
  import opened World
  import opened Writes
  import Text

  // ----- what does not touch the cluster

  predicate SameCluster(a: World, b: World) {
    a.cluster == b.cluster && a.config == b.config
  }

  lemma EditSameCluster(w: World, e: Edit)
    ensures SameCluster(w, EditStep(w, e))
  {}

  lemma {:induction false} EditsSameCluster(w: World, edits: seq<Edit>)
    ensures SameCluster(w, EditAll(w, edits))
    decreases |edits|
  {
    hide EditStep;
    if edits != [] {
      EditSameCluster(w, edits[0]);
      EditsSameCluster(EditStep(w, edits[0]), edits[1..]);
    }
  }

  lemma TurnSameCluster(w: World)
    ensures SameCluster(w, TakeTurn(w))
  {
    hide EditAll;
    EditsSameCluster(w.(turns := if w.turns == [] then [] else w.turns[1..], now := NextTurn(w).now),
      NextTurn(w).edits);
  }

  lemma CallsSameCluster(w: World, key: Key, rv: int, finalizers: seq<string>, sent: Serving)
    ensures SameCluster(w, Patch(w, key, rv, finalizers).w)
    ensures SameCluster(w, Update(w, sent).w)
    ensures SameCluster(w, UpdateStatus(w, sent).w)
    ensures SameCluster(w, Fetch(w, key).w)
  {
    hide TakeTurn, Refusal, Rewritten;
    TurnSameCluster(w);
  }

  lemma {:induction false} RetrySameCluster(w0: World, attempt: nat, existing0: Serving, desired: Serving)
    requires attempt < ATTEMPTS
    ensures SameCluster(w0, UpdateStatusFrom(w0, attempt, existing0, desired).w)
    decreases ATTEMPTS - attempt
  {
    hide Fetch, UpdateStatus;
    var fetched := if attempt == 0 then Reply(w0, Ok(existing0)) else Fetch(w0, desired.key);
    CallsSameCluster(w0, desired.key, 0, [], desired);
    if fetched.result.Ok? && fetched.result.value.status != desired.status {
      var existing := fetched.result.value;
      var sent := existing.(status := desired.status);
      var reply := UpdateStatus(fetched.w, sent);
      CallsSameCluster(fetched.w, desired.key, 0, [], sent);
      if reply.result.Err? && reply.result.error == Conflict && attempt + 1 < ATTEMPTS {
        RetrySameCluster(reply.w, attempt + 1, existing, desired);
      }
    }
  }

  lemma SyncSameCluster(pass: Pass, original: Serving)
    ensures SameCluster(pass.w, SyncStatus(pass, original).w)
    ensures SyncStatus(pass, original).out == Fine ==> pass.out == Fine
  {
    hide UpdateStatusFrom, SameStatus;
    RetrySameCluster(pass.w, 0, original, pass.obj);
  }

  lemma FilteredSameCluster(w: World, resource: Serving)
    ensures SameCluster(w, UpdateFinalizersFiltered(w, resource).w)
  {
    hide TakeTurn, Patch, PatchDue;
    TurnSameCluster(w);
    var t := TakeTurn(w);
    var existing := Listed(t, resource.key);
    if existing.Some? && PatchDue(resource, existing.value).Some? {
      CallsSameCluster(t, resource.key, existing.value.rv, PatchDue(resource, existing.value).value, resource);
    }
  }

  lemma {:induction false} ProbeSameCluster(w: World, deployments: seq<Resource>)
    ensures SameCluster(w, ProbeDeployments(w, deployments).w)
    decreases |deployments|
  {
    hide TakeTurn;
    if deployments != [] {
      TurnSameCluster(w);
      ProbeSameCluster(TakeTurn(w), deployments[1..]);
    }
  }

  lemma EarlyStagesSameCluster(w: World, instance: Serving)
    ensures SameCluster(w, EnsureFinalizer(w, instance).w)
    ensures SameCluster(w, InitStatus(w, instance).w)
  {
    hide Update, UpdateStatus, Marked;
    CallsSameCluster(w, instance.key, 0, [], instance.(finalizers := instance.finalizers + [D]));
    CallsSameCluster(w, instance.key, 0, [], WithMark(instance, Initializing, w.now));
  }

  lemma DropFinalizerSameCluster(w: World, key: Key)
    ensures SameCluster(w, DropFinalizer(w, key).w)
  {
    hide TakeTurn, Update;
    TurnSameCluster(w);
    var t := TakeTurn(w);
    var refetched := Listed(t, key);
    if refetched.Some? && refetched.value.finalizers != [] {
      var edited := refetched.value.(finalizers := refetched.value.finalizers[1..]);
      var at := t.cache[key].at;
      CallsSameCluster(t.(cache := t.cache[key := Entry(at, Some(edited))], released := t.released + {at},
                          log := t.log + [Released(key, at)]), key, 0, [], edited);
    }
  }

  // ----- installs and teardowns that complete

  /** Applied in phases or at once, the manifest ends up the same. */
  lemma {:induction false} PutAbsorbs(cluster: Cluster, a: seq<Resource>, b: seq<Resource>)
    requires Ids(a) <= Ids(b)
    ensures Put(Put(cluster, a), b) == Put(cluster, b)
  {
    PutAgrees(Put(cluster, a), cluster, b);
  }

  /** Two clusters that agree outside `rs` agree after it. */
  lemma {:induction false} PutAgrees(a: Cluster, b: Cluster, rs: seq<Resource>)
    requires a.Keys + Ids(rs) == b.Keys + Ids(rs)
    requires forall id | id in a && id in b && id !in Ids(rs) :: a[id] == b[id]
    ensures Put(a, rs) == Put(b, rs)
    decreases |rs|
  {
    if rs == [] {
      assert a == b;
    } else {
      var r := rs[0];
      assert rs == [r] + rs[1..];
      assert Ids(rs) == {r.Id()} + Ids(rs[1..]);
      PutAgrees(a[r.Id() := r], b[r.Id() := r], rs[1..]);
    }
  }

  lemma {:induction false} ApplyPhasePut(w: World, instance: Serving, rs: seq<Resource>)
    ensures var p := ApplyPhase(w, instance, rs);
            p.w.config == w.config && (p.ok ==> p.w.cluster == Put(w.cluster, rs))
    decreases |rs|
  {
    hide TakeTurn;
    if rs != [] {
      TurnSameCluster(w);
      ApplyPhasePut(ApplyOne(w, instance, rs[0]).w, instance, rs[1..]);
    }
  }

  lemma {:induction false} ApplyPhasesPut(w: World, instance: Serving, phases: seq<seq<Resource>>)
    ensures var p := ApplyPhases(w, instance, phases);
            p.w.config == w.config && (p.ok ==> p.w.cluster == PutAll(w.cluster, phases))
    decreases |phases|
  {
    hide ApplyPhase, Put;
    if phases != [] {
      ApplyPhasePut(w, instance, phases[0]);
      ApplyPhasesPut(ApplyPhase(w, instance, phases[0]).w, instance, phases[1..]);
    }
  }

  function PutAll(cluster: Cluster, phases: seq<seq<Resource>>): Cluster
    decreases |phases|
  {
    if phases == [] then cluster else PutAll(Put(cluster, phases[0]), phases[1..])
  }

  lemma InstallPhasesPut(cluster: Cluster, manifest: seq<Resource>)
    ensures PutAll(cluster, InstallPhases(manifest)) == Put(cluster, manifest)
  {
    hide Put, Where;
    var phases := InstallPhases(manifest);
    WhereMembers(IsRole, manifest);
    WhereMembers(IsBinding, manifest);
    var roles, bindings := Roles(manifest), Bindings(manifest);
    assert phases[1..] == [bindings, manifest] && phases[1..][1..] == [manifest] && phases[1..][1..][1..] == [];
    assert PutAll(Put(Put(cluster, roles), bindings), [manifest]) == Put(Put(Put(cluster, roles), bindings), manifest);
    PutAbsorbs(Put(cluster, roles), bindings, manifest);
    PutAbsorbs(cluster, roles, manifest);
  }

  function Union(phases: seq<seq<Resource>>): set<ResourceId>
    decreases |phases|
  {
    if phases == [] then {} else Ids(phases[0]) + Union(phases[1..])
  }

  lemma {:induction false} DeletePhaseCluster(w: World, rs: seq<Resource>)
    ensures var p := DeletePhase(w, rs);
            p.w.config == w.config && (p.ok ==> p.w.cluster == w.cluster - Ids(rs))
    decreases |rs|
  {
    hide TakeTurn;
    if rs != [] {
      TurnSameCluster(w);
      DeletePhaseCluster(DeleteOne(w, rs[0]).w, rs[1..]);
      assert rs == [rs[0]] + rs[1..];
      assert Ids(rs) == {rs[0].Id()} + Ids(rs[1..]);
    }
  }

  lemma {:induction false} DeletePhasesCluster(w: World, phases: seq<seq<Resource>>)
    ensures var p := DeletePhases(w, phases);
            p.w.config == w.config && (p.ok ==> p.w.cluster == w.cluster - Union(phases))
    decreases |phases|
  {
    hide DeletePhase, Ids;
    if phases != [] {
      DeletePhaseCluster(w, phases[0]);
      DeletePhasesCluster(DeletePhase(w, phases[0]).w, phases[1..]);
    }
  }

  /** What a completed teardown deletes. */
  function DeletableIds(config: seq<Resource>): set<ResourceId> {
    set r | r in config && !IsCRD(r) && OkToDelete(r) :: r.Id()
  }

  lemma ThreeUnion(a: seq<Resource>, b: seq<Resource>, c: seq<Resource>)
    ensures Union([a, b, c]) == Ids(a) + Ids(b) + Ids(c)
  {
    hide Ids;
    assert [a, b, c][1..] == [b, c] && [b, c][1..] == [c] && [c][1..] == [];
    assert Union([c]) == Ids(c);
  }

  lemma TeardownUnion(config: seq<Resource>)
    ensures Union(TeardownPhases(config)) == DeletableIds(config)
  {
    hide DeletionOrder, Union, IsDeployment, IsRBAC, IsCRD, OkToDelete;
    var phases := TeardownPhases(config);
    ThreeUnion(phases[0], phases[1], phases[2]);
    TeardownPhaseMembers(config);
    KindsApart();
    forall id | id in DeletableIds(config) ensures id in Union(phases) {
      var r: Resource :| r in config && !IsCRD(r) && OkToDelete(r) && r.Id() == id;
      assert r in phases[1] || r in phases[2];
    }
    forall id | id in Union(phases) ensures id in DeletableIds(config) {
      var r: Resource :| (r in phases[0] || r in phases[1] || r in phases[2]) && r.Id() == id;
      assert r in config && !IsCRD(r) && OkToDelete(r);
    }
  }

  // ----- the two passes

  /** The cluster once a manifest is installed and leftovers are cleaned up. */
  function Installed(cluster: Cluster, manifest: seq<Resource>, namespace: string): Cluster {
    Put(cluster, manifest) - Ids(Obsolete(namespace))
  }

  lemma LateStagesInstall(w: World, manifest: seq<Resource>, instance: Serving)
    ensures var p := RunStages(LATE, w, manifest, instance);
            p.w.config == w.config &&
            (p.out == Fine ==> p.w.cluster == Installed(w.cluster, manifest, instance.key.namespace))
  {
    hide TakeTurn, ApplyPhases, ProbeDeployments, Marked, Put, Ids, Obsolete, InstallPhases, PutAll,
         Deployments;
    ApplyPhasesPut(w, instance, InstallPhases(manifest));
    InstallPhasesPut(w.cluster, manifest);
    var first := Install(w, manifest, instance);
    ProbeSameCluster(first.w, Deployments(manifest));
    var second := CheckDeployments(first.w, manifest, first.obj);
    LateUnfold(w, manifest, instance);
    DeleteObsoleteCluster(second.w, second.obj);
  }

  lemma DeleteObsoleteCluster(w: World, instance: Serving)
    ensures var p := DeleteObsolete(w, instance);
            && p.w.config == w.config
            && (p.out == Fine ==> p.w.cluster == w.cluster - Ids(Obsolete(instance.key.namespace)))
  {
    hide DeletePhase, Obsolete, Ids;
    DeletePhaseCluster(w, Obsolete(instance.key.namespace));
  }

  lemma StagesInstall(w: World, manifest: seq<Resource>, instance: Serving)
    requires Inv(w) && InstanceOK(w, instance)
    ensures var p := RunStages(STAGES, w, manifest, instance);
            p.out == Fine ==>
              p.w.config == w.config && p.w.cluster == Installed(w.cluster, manifest, instance.key.namespace)
  {
    hide Inv, InstanceOK, Installed, RunStages, EnsureFinalizer, InitStatus, Calm;
    StagesUnfold(w, manifest, instance);
    EnsureFinalizerSafe(w, instance);
    EarlyStagesSameCluster(w, instance);
    EnsureKeepsKey(w, instance);
    var first := EnsureFinalizer(w, instance);
    if first.out == Fine {
      EarlyStagesSameCluster(first.w, first.obj);
      InitKeepsKey(first.w, first.obj);
      var second := InitStatus(first.w, first.obj);
      LateStagesInstall(second.w, manifest, second.obj);
    }
  }

  lemma EnsureKeepsKey(w: World, instance: Serving)
    ensures EnsureFinalizer(w, instance).obj.key == instance.key
  {
    hide Update;
  }

  lemma InitKeepsKey(w: World, instance: Serving)
    requires Inv(w)
    ensures InitStatus(w, instance).obj.key == instance.key
  {
    hide Inv, UpdateStatus, Marked, Calm;
    UpdateStatusKeeps(w, WithMark(instance, Initializing, w.now));
  }

  lemma ReconcileKindInstalls(w: World, instance: Serving)
    requires Inv(w) && InstanceOK(w, instance)
    ensures var p := ReconcileKind(w, instance);
            p.out == Fine ==>
              && p.w.config == w.config && Render(w.config, instance).Some?
              && p.w.cluster == Installed(w.cluster, Render(w.config, instance).value, instance.key.namespace)
  {
    hide Inv, InstanceOK, Calm, RunStages, TakeTurn, Render, Env, Marked, Installed;
    var gate := PassGate(w.servings, instance.key, instance.generation);
    var counted := Report(w, instance.key, gate.report).(servings := gate.servings);
    LogGrows(w, counted);
    if gate.open {
      var w1 := TakeTurn(counted);
      TurnKeeps(counted);
      TurnSameCluster(counted);
      EnvIsCalm(counted, w1);
      CalmTransitive(w, counted, w1);
      InstanceStays(w, w1, instance);
      var rendered := if NextTurn(counted).fault == NoFault then Render(w1.config, instance) else None;
      if rendered.Some? {
        StagesInstall(w1, rendered.value, instance);
      }
    }
  }

  /** The instance is under the key of the pass, or the zero object, with which
      nothing is installed. */
  lemma PreparedKey(w: World, original: Serving)
    requires Inv(w)
    ensures SetFinalizer(w, original).obj.key == original.key || SetFinalizer(w, original).obj == ZERO
  {
    hide Inv, TakeTurn, Patch, Snap, MayFollow, Env, Calm;
    var resource := original.(finalizers := Text.SortedList(Text.Elements(original.finalizers) + {K}));
    var w1 := TakeTurn(w);
    TurnKeeps(w);
    var existing := Listed(w1, resource.key);
    if existing.Some? && PatchDue(resource, existing.value).Some? {
      ListedIsSnap(w1, resource.key);
      SnapInRange(w1, existing.value);
      SnapKey(w1, existing.value);
      PatchDueFollows(w1, resource, existing.value);
      PatchedKey(w1, resource.key, existing.value, PatchDue(resource, existing.value).value);
    }
  }

  lemma PatchedKey(w: World, key: Key, existing: Serving, finalizers: seq<string>)
    requires Inv(w) && 0 <= existing.rv < |w.versions| && MayFollow(w, existing.rv, finalizers)
    requires existing.key == key == w.versions[existing.rv].obj.key
    ensures var reply := Patch(w, key, existing.rv, finalizers); reply.result.Ok? ==> reply.result.value.key == key
  {
    hide Inv, Patch, MayFollow;
    PatchKeeps(w, key, existing.rv, finalizers);
    var reply := Patch(w, key, existing.rv, finalizers);
    if reply.result.Ok? {
      assert reply.w.versions[existing.rv] == w.versions[existing.rv];
    }
  }

  lemma SnapKey(w: World, o: Serving)
    requires Snap(w.versions, w.released, o)
    ensures 0 <= o.rv < |w.versions| && o.key == w.versions[o.rv].obj.key
  {}

  lemma ZeroFails(w: World)
    ensures ReconcileKind(w, ZERO).out != Fine
  {
    hide TakeTurn, Render, InitStatus, Install, CheckDeployments, DeleteObsolete;
    var gate := PassGate(w.servings, ZERO.key, ZERO.generation);
    var counted := Report(w, ZERO.key, gate.report).(servings := gate.servings);
    var w1 := TakeTurn(counted);
    var rendered := if NextTurn(counted).fault == NoFault then Render(w1.config, ZERO) else None;
    if gate.open && rendered.Some? {
      StagesUnfold(w1, rendered.value, ZERO);
    }
  }

  /** A live pass that ends well has installed the manifest rendered for the
      object it worked on. */
  lemma LivePassInstalls(w: World, o: Serving)
    requires Inv(w) && o.key in w.cache && w.cache[o.key].obj == Some(o) && !o.deleting && o.key.name != ""
    requires ReconcileLive(w, o).out == Fine
    ensures var instance, p := SetFinalizer(w, o).obj, ReconcileLive(w, o);
            && instance.key == o.key && p.w.config == w.config && Render(w.config, instance).Some?
            && p.w.cluster == Installed(w.cluster, Render(w.config, instance).value, o.key.namespace)
  {
    hide Inv, InstanceOK, Calm, UpdateFinalizersFiltered, ReconcileKind, Render, Installed;
    SetFinalizerSafe(w, o);
    PreparedKey(w, o);
    var prepared := SetFinalizer(w, o);
    FilteredSameCluster(w, o.(finalizers := Text.SortedList(Text.Elements(o.finalizers) + {K})));
    if prepared.obj == ZERO {
      ZeroFails(prepared.w);
    }
    ReconcileKindInstalls(prepared.w, prepared.obj);
  }

  /** A finalization that ends well, of the only key tracked and with D at the
      head, has deleted what a teardown may. */
  lemma FinalPassDeletes(w: World, o: Serving)
    requires HeadIsD(o.finalizers) && w.servings.Keys <= {o.key}
    ensures var p := ReconcileDeleting(w, o);
            p.out == Fine ==> p.w.cluster == w.cluster - DeletableIds(w.config)
  {
    hide DeletePhases, DropFinalizer, HeadIsD, UpdateFinalizersFiltered, DeletableIds, Union;
    var servings := w.servings - {o.key};
    assert servings == map[];
    var begun := w.(servings := servings, log := w.log + [Finalizing(o.key, false)]);
    DeletePhasesCluster(begun, TeardownPhases(begun.config));
    TeardownUnion(begun.config);
    var deleted := DeletePhases(begun, TeardownPhases(begun.config));
    DropFinalizerSameCluster(deleted.w, o.key);
    var finalized := FinalizeKind(w, o);
    forall resource ensures SameCluster(finalized.w, UpdateFinalizersFiltered(finalized.w, resource).w) {
      FilteredSameCluster(finalized.w, resource);
    }
  }

  // ----- what is left

  /** The cluster after the round trip, resource by resource. */
  ghost predicate RoundTripped(before: Cluster, after: Cluster, config: seq<Resource>, manifest: seq<Resource>,
      namespace: string) {
    && (forall id :: id in after <==>
          && (id in before || id in Ids(manifest))
          && id !in Ids(Obsolete(namespace)) && id !in DeletableIds(config))
    && (forall id | id in after && id !in Ids(manifest) :: after[id] == before[id])
  }

  lemma InstalledThenDeleted(before: Cluster, config: seq<Resource>, manifest: seq<Resource>, namespace: string)
    ensures var after := Installed(before, manifest, namespace) - DeletableIds(config);
            RoundTripped(before, after, config, manifest, namespace)
  {
    hide Obsolete, DeletableIds, Ids;
  }

  /** A pass over a live object whose reconciliation ends well; so for the status. */
  predicate InstallingPass(w: World, key: Key) {
    && Listed(TakeTurn(w), key).Some? && !Listed(TakeTurn(w), key).value.deleting
    && ReconcileLive(TakeTurn(w), Listed(TakeTurn(w), key).value).out == Fine
  }

  lemma PassInstalls(w0: World, key: Key)
    requires Inv(w0) && InstallingPass(w0, key)
    ensures var w, w1 := TakeTurn(w0), Reconcile(w0, key).w;
            var instance := SetFinalizer(w, Listed(w, key).value).obj;
            && Inv(w1) && w1.config == w0.config && Render(w0.config, instance).Some? && instance.key == key
            && w1.cluster == Installed(w0.cluster, Render(w0.config, instance).value, key.namespace)
  {
    hide Inv, TakeTurn, ReconcileLive, SetFinalizer, SyncStatus, Render, Installed, Snap, Env;
    var w := TakeTurn(w0);
    TurnKeeps(w0);
    TurnSameCluster(w0);
    ListedIsSnap(w, key);
    NamedKey(w, key);
    var o := Listed(w, key).value;
    var pass := ReconcileLive(w, o);
    SyncSameCluster(pass, o);
    assert Reconcile(w0, key) == if pass.out == Panicking then pass else SyncStatus(pass, o);
    LivePassInstalls(w, o);
    ReconcileKeeps(w0, key);
  }

  /** After such a pass the cluster is as it was, with the rendered manifest laid
      over it, but for four leftovers of old versions. */
  lemma LeftoversGo(w0: World, key: Key)
    requires Inv(w0) && InstallingPass(w0, key)
    ensures ManifestOf(w0, key).Some?
    ensures Reconcile(w0, key).w.cluster == Put(w0.cluster, ManifestOf(w0, key).value) - {
              ResourceId("v1", "Service", "istio-system", "knative-ingressgateway"),
              ResourceId("apps/v1", "Deployment", "istio-system", "knative-ingressgateway"),
              ResourceId("autoscaling/v1", "HorizontalPodAutoscaler", "istio-system", "knative-ingressgateway"),
              ResourceId("v1", "ConfigMap", key.namespace, "config-controller") }
  {
    hide Inv, TakeTurn, Reconcile, Put, Render, SetFinalizer, InstallingPass;
    PassInstalls(w0, key);
    var four := Obsolete(key.namespace);
    assert Ids(four) == {four[0].Id(), four[1].Id(), four[2].Id(), four[3].Id()};
  }

  /** A pass over an object being deleted, D at its head, whose finalization ends
      well; what the pass then does about K and the status does not matter. */
  predicate FinalizingPass(w: World, key: Key) {
    && Listed(TakeTurn(w), key).Some? && Listed(TakeTurn(w), key).value.deleting
    && HeadIsD(Listed(TakeTurn(w), key).value.finalizers)
    && ReconcileDeleting(TakeTurn(w), Listed(TakeTurn(w), key).value).out == Fine
  }

  /** Such a pass with no other key tracked. */
  predicate FinalPass(w: World, key: Key) {
    FinalizingPass(w, key) && w.servings.Keys <= {key}
  }

  lemma PassDeletes(w0: World, key: Key)
    requires Inv(w0) && FinalPass(w0, key)
    ensures Reconcile(w0, key).w.cluster == w0.cluster - DeletableIds(w0.config)
  {
    hide Inv, TakeTurn, ReconcileDeleting, SyncStatus, Snap, Env, HeadIsD, DeletableIds;
    var w := TakeTurn(w0);
    TurnKeeps(w0);
    TurnSameCluster(w0);
    TurnKeepsServings(w0);
    ListedIsSnap(w, key);
    var o := Listed(w, key).value;
    var pass := ReconcileDeleting(w, o);
    SyncSameCluster(pass, o);
    assert Reconcile(w0, key) == if pass.out == Panicking then pass else SyncStatus(pass, o);
    FinalPassDeletes(w, o);
  }

  lemma TurnKeepsServings(w: World)
    requires Inv(w)
    ensures TakeTurn(w).servings == w.servings
  {
    hide Inv, TakeTurn;
    TurnKeeps(w);
  }

  /** Nothing changed but that some of what a teardown deletes is gone. */
  predicate Shrunk(a: World, b: World) {
    && b.config == a.config
    && b.cluster.Keys <= a.cluster.Keys && a.cluster.Keys - b.cluster.Keys <= DeletableIds(a.config)
    && forall id | id in b.cluster :: b.cluster[id] == a.cluster[id]
  }

  lemma ShrunkTransitive(a: World, b: World, c: World)
    requires Shrunk(a, b) && Shrunk(b, c)
    ensures Shrunk(a, c)
  {}

  lemma SameIsShrunk(a: World, b: World)
    requires SameCluster(a, b)
    ensures Shrunk(a, b)
  {}

  lemma {:induction false} DeletePhaseShrinks(w: World, rs: seq<Resource>)
    requires Ids(rs) <= DeletableIds(w.config)
    ensures Shrunk(w, DeletePhase(w, rs).w)
    decreases |rs|
  {
    hide TakeTurn, DeletableIds;
    if rs != [] {
      assert rs[0] in rs && rs[0].Id() in Ids(rs);
      assert forall r | r in rs[1..] :: r in rs;
      TurnSameCluster(w);
      var first := DeleteOne(w, rs[0]);
      assert Shrunk(w, first.w);
      if first.ok {
        DeletePhaseShrinks(first.w, rs[1..]);
      }
    }
  }

  lemma {:induction false} DeletePhasesShrink(w: World, phases: seq<seq<Resource>>)
    requires Union(phases) <= DeletableIds(w.config)
    ensures Shrunk(w, DeletePhases(w, phases).w)
    decreases |phases|
  {
    hide DeletePhase, DeletableIds, Ids, Shrunk;
    if phases == [] {
      SameIsShrunk(w, w);
    } else {
      var first := DeletePhase(w, phases[0]);
      DeletePhaseShrinks(w, phases[0]);
      SameConfigShrunk(w, first.w);
      if first.ok {
        DeletePhasesShrink(first.w, phases[1..]);
        ShrunkTransitive(w, first.w, DeletePhases(first.w, phases[1..]).w);
      }
    }
  }

  lemma SameConfigShrunk(a: World, b: World)
    requires Shrunk(a, b)
    ensures a.config == b.config
  {}

  lemma FinalizeShrinks(w: World, o: Serving)
    ensures Shrunk(w, FinalizeKind(w, o).w)
  {
    hide DeletePhases, DropFinalizer, HeadIsD, DeletableIds, Union, Shrunk;
    var servings := w.servings - {o.key};
    var begun := w.(servings := servings, log := w.log + [Finalizing(o.key, servings != map[])]);
    SameIsShrunk(w, begun);
    SameIsShrunk(begun, begun);
    TeardownUnion(begun.config);
    DeletePhasesShrink(begun, TeardownPhases(begun.config));
    var deleted := if servings == map[] then DeletePhases(begun, TeardownPhases(begun.config)) else Phase(begun, true);
    DropFinalizerSameCluster(deleted.w, o.key);
    SameIsShrunk(deleted.w, DropFinalizer(deleted.w, o.key).w);
    ShrunkTransitive(w, begun, deleted.w);
    ShrunkTransitive(w, deleted.w, DropFinalizer(deleted.w, o.key).w);
  }

  lemma DeletingPassShrinks(w: World, o: Serving)
    ensures Shrunk(w, ReconcileDeleting(w, o).w)
  {
    hide FinalizeKind, UpdateFinalizersFiltered, Shrunk;
    FinalizeShrinks(w, o);
    var finalized := FinalizeKind(w, o);
    var finalizers := Text.Elements(o.finalizers);
    var kept := if finalized.out == Fine then finalizers - {K} else finalizers;
    var cleared := UpdateFinalizersFiltered(finalized.w, o.(finalizers := Text.SortedList(kept)));
    FilteredSameCluster(finalized.w, o.(finalizers := Text.SortedList(kept)));
    SameIsShrunk(finalized.w, cleared.w);
    ShrunkTransitive(w, finalized.w, cleared.w);
  }

  /** A pass that finds no live object. */
  predicate NothingLive(w: World, key: Key) {
    var listed := Listed(TakeTurn(w), key);
    listed.None? || listed.value.deleting
  }

  lemma PassShrinks(w0: World, key: Key)
    requires NothingLive(w0, key)
    ensures Shrunk(w0, Reconcile(w0, key).w)
  {
    hide TakeTurn, ReconcileDeleting, SyncStatus, Shrunk;
    var w := TakeTurn(w0);
    TurnSameCluster(w0);
    SameIsShrunk(w0, w);
    var listed := Listed(w, key);
    if listed.Some? {
      var pass := ReconcileDeleting(w, listed.value);
      DeletingPassShrinks(w, listed.value);
      SyncSameCluster(pass, listed.value);
      SameIsShrunk(pass.w, SyncStatus(pass, listed.value).w);
      ShrunkTransitive(w0, w, pass.w);
      ShrunkTransitive(w0, pass.w, SyncStatus(pass, listed.value).w);
    }
  }

  /** Turns of the environment, restarts, and passes that find no live object:
      the one that clears K first, finalizations that fail or crash half way. */
  predicate Waiting(w: World, events: seq<Event>)
    decreases |events|
  {
    events == [] ||
    ((events[0].PassOver? ==> NothingLive(w, events[0].key)) && Waiting(Happen(w, events[0]), events[1..]))
  }

  lemma HappenShrinks(w: World, e: Event)
    requires e.PassOver? ==> NothingLive(w, e.key)
    ensures Shrunk(w, Happen(w, e))
  {
    hide TakeTurn, Reconcile, Shrunk, NothingLive;
    match e
    case Elapse =>
      TurnSameCluster(w);
      SameIsShrunk(w, TakeTurn(w));
    case PassOver(key) =>
      PassShrinks(w, key);
      var after := Reconcile(w, key).w;
      SameIsShrunk(after, Restart(after));
      ShrunkTransitive(w, after, Restart(after));
    case Restarting => SameIsShrunk(w, Restart(w));
  }

  lemma {:induction false} WaitingShrinks(w: World, events: seq<Event>)
    requires Inv(w) && Waiting(w, events)
    ensures Shrunk(w, Run(w, events)) && Inv(Run(w, events))
    decreases |events|
  {
    hide Inv, Happen, Shrunk, NothingLive;
    if events == [] {
      SameIsShrunk(w, w);
    } else {
      var next := Happen(w, events[0]);
      HappenShrinks(w, events[0]);
      HappenKeeps(w, events[0]);
      WaitingShrinks(next, events[1..]);
      ShrunkTransitive(w, next, Run(next, events[1..]));
    }
  }

  lemma ShrunkThenDeleted(a: World, b: World)
    requires Shrunk(a, b)
    ensures b.cluster - DeletableIds(b.config) == a.cluster - DeletableIds(a.config)
  {
    hide DeletableIds;
  }

  /** The manifest a successful live pass installs. */
  function ManifestOf(w0: World, key: Key): Option<Manifest>
    requires Listed(TakeTurn(w0), key).Some?
  {
    var w := TakeTurn(w0);
    Render(w0.config, SetFinalizer(w, Listed(w, key).value).obj)
  }

  /** Every reachable world, a live pass whose reconciliation ends well, any time
      during which the environment does what it likes to KnativeServings, the
      process restarts and passes find no live object, and the last finalization:
      what was there before is there again and as it was, but for the manifest,
      the leftovers of old versions and what teardown deletes; of the manifest
      exactly that stays which neither of these covers. */
  lemma InstallThenFinalize(w0: World, key: Key, waiting: seq<Event>)
    requires Inv(w0) && InstallingPass(w0, key)
    requires Waiting(Reconcile(w0, key).w, waiting)
    requires FinalPass(Run(Reconcile(w0, key).w, waiting), key)
    ensures ManifestOf(w0, key).Some?
    ensures var w2 := Run(Reconcile(w0, key).w, waiting);
            RoundTripped(w0.cluster, Reconcile(w2, key).w.cluster, w0.config, ManifestOf(w0, key).value, key.namespace)
  {
    hide Inv, TakeTurn, Reconcile, FinalPass, Render, Installed, Run, SetFinalizer, RoundTripped, DeletableIds, Waiting,
         Shrunk;
    PassInstalls(w0, key);
    var w1 := Reconcile(w0, key).w;
    WaitingShrinks(w1, waiting);
    PassDeletes(Run(w1, waiting), key);
    ShrunkThenDeleted(w1, Run(w1, waiting));
    InstalledThenDeleted(w0.cluster, w0.config, ManifestOf(w0, key).value, key.namespace);
  }

  // ----- when nothing but CRDs is left

  /** No resource of the manifest that is not a CRD is in the cluster. */
  ghost predicate OnlyCRDsLeft(after: Cluster, manifest: seq<Resource>) {
    forall r | r in manifest && !IsCRD(r) :: r.Id() !in after
  }

  /** A resource the raw manifest's teardown, or the clean-up of leftovers,
      deletes under the name it has once moved to the object's namespace. */
  ghost predicate DeletedAsRendered(config: seq<Resource>, namespace: string, r: Resource) {
    var id := InjectNamespace(namespace, r).Id();
    id in Ids(Obsolete(namespace)) || exists d :: d in config && !IsCRD(d) && OkToDelete(d) && d.Id() == id
  }

  lemma RenderedIdentity(config: Manifest, instance: Serving, i: nat)
    requires Render(config, instance).Some? && i < |config|
    ensures var manifest := Render(config, instance).value;
            && |manifest| == |config| && manifest[i].kind == config[i].kind && manifest[i].created == config[i].created
            && manifest[i].Id() == InjectNamespace(instance.key.namespace, config[i]).Id()
  {}

  /** No resource is left that a teardown, deleting it by name, may delete. */
  ghost predicate OnlyKeptLeft(after: Cluster, manifest: seq<Resource>) {
    forall r | r in manifest && !IsCRD(r) && OkToDelete(r) :: r.Id() !in after
  }

  /** Resource by resource, the round trip leaves what teardown, which works on the
      manifest as shipped, does not know by the identity it was installed under. */
  lemma RoundTripExactly(config: Manifest, instance: Serving, before: Cluster, after: Cluster, i: nat)
    requires Render(config, instance).Some? && i < |config|
    requires RoundTripped(before, after, config, Render(config, instance).value, instance.key.namespace)
    ensures var manifest := Render(config, instance).value;
            && |manifest| == |config|
            && (manifest[i].Id() !in after <==> DeletedAsRendered(config, instance.key.namespace, config[i]))
            && (IsCRD(manifest[i]) <==> IsCRD(config[i])) && (OkToDelete(manifest[i]) <==> OkToDelete(config[i]))
  {
    hide Obsolete, Render, InjectNamespace;
    var manifest := Render(config, instance).value;
    RenderedIdentity(config, instance, i);
    assert manifest[i] in manifest;
    assert manifest[i].Id() in Ids(manifest);
  }

  /** So nothing but CRDs is left exactly if that holds of no other resource, and
      nothing that may be deleted exactly if it holds of none that may be. */
  lemma RoundTripIff(config: Manifest, instance: Serving, before: Cluster, after: Cluster)
    requires Render(config, instance).Some?
    requires RoundTripped(before, after, config, Render(config, instance).value, instance.key.namespace)
    ensures OnlyCRDsLeft(after, Render(config, instance).value) <==>
            forall r | r in config && !IsCRD(r) :: DeletedAsRendered(config, instance.key.namespace, r)
    ensures OnlyKeptLeft(after, Render(config, instance).value) <==>
            forall r | r in config && !IsCRD(r) && OkToDelete(r) ::
              DeletedAsRendered(config, instance.key.namespace, r)
  {
    hide Render, IsCRD, OkToDelete, RoundTripped, DeletedAsRendered;
    var manifest, ns := Render(config, instance).value, instance.key.namespace;
    RenderedSize(config, instance);
    forall i: nat | i < |config|
      ensures manifest[i].Id() !in after <==> DeletedAsRendered(config, ns, config[i])
      ensures IsCRD(manifest[i]) <==> IsCRD(config[i])
      ensures OkToDelete(manifest[i]) <==> OkToDelete(config[i])
    {
      RoundTripExactly(config, instance, before, after, i);
    }
    forall r | r in config
      ensures exists i: nat :: i < |config| && config[i] == r && manifest[i] in manifest
    {
      var i: nat :| i < |config| && config[i] == r;
      assert manifest[i] in manifest;
    }
    forall r | r in manifest
      ensures exists i: nat :: i < |config| && manifest[i] == r && config[i] in config
    {
      var i: nat :| i < |manifest| && manifest[i] == r;
      assert config[i] in config;
    }
  }

  lemma RenderedSize(config: Manifest, instance: Serving)
    requires Render(config, instance).Some?
    ensures |Render(config, instance).value| == |config|
  {}

  /** Moving it to the namespace leaves the resource where it is. */
  predicate StaysPut(namespace: string, r: Resource) {
    && (Text.Lower(r.kind) == "namespace" ==> r.name == namespace)
    && (!ClusterScoped(r.kind) ==> r.namespace == namespace)
  }

  lemma StaysPutIsDeleted(config: Manifest, namespace: string, r: Resource)
    requires r in config && !IsCRD(r) && OkToDelete(r) && StaysPut(namespace, r)
    ensures DeletedAsRendered(config, namespace, r)
  {
    hide ClusterScoped, Obsolete;
    assert InjectNamespace(namespace, r).Id() == r.Id();
  }

  /** For every manifest, over every run as above: after the install, the waiting
      and the last finalization, whatever resource of it is in the cluster is a
      CRD, a Namespace the library did not create, or one that was installed under
      another identity than it was shipped with. What neither the manifest, the
      leftovers nor the teardown covers is as before. */
  lemma OnlyMovedLeft(w0: World, key: Key, waiting: seq<Event>)
    requires Inv(w0) && InstallingPass(w0, key)
    requires Waiting(Reconcile(w0, key).w, waiting)
    requires FinalPass(Run(Reconcile(w0, key).w, waiting), key)
    ensures ManifestOf(w0, key).Some? && |ManifestOf(w0, key).value| == |w0.config|
    ensures var after := Reconcile(Run(Reconcile(w0, key).w, waiting), key).w.cluster;
            && (forall i | 0 <= i < |w0.config| && ManifestOf(w0, key).value[i].Id() in after ::
                  var r := w0.config[i];
                  IsCRD(r) || !OkToDelete(r) || !StaysPut(key.namespace, r))
            && (forall id |
                  id !in Ids(ManifestOf(w0, key).value) + Ids(Obsolete(key.namespace)) + DeletableIds(w0.config) ::
                  (id in after <==> id in w0.cluster) && (id in after ==> after[id] == w0.cluster[id]))
  {
    hide Inv, TakeTurn, Reconcile, ReconcileLive, FinalPass, Run, SetFinalizer, Waiting, Render, DeletedAsRendered,
         StaysPut, DeletableIds, Obsolete, Ids, IsCRD, OkToDelete;
    InstallThenFinalize(w0, key, waiting);
    PassInstalls(w0, key);
    var instance := SetFinalizer(TakeTurn(w0), Listed(TakeTurn(w0), key).value).obj;
    RenderedSize(w0.config, instance);
    var after := Reconcile(Run(Reconcile(w0, key).w, waiting), key).w.cluster;
    forall i: nat | i < |w0.config| && ManifestOf(w0, key).value[i].Id() in after
      ensures var r := w0.config[i]; IsCRD(r) || !OkToDelete(r) || !StaysPut(key.namespace, r)
    {
      RoundTripExactly(w0.config, instance, w0.cluster, after, i);
      if !IsCRD(w0.config[i]) && OkToDelete(w0.config[i]) && StaysPut(key.namespace, w0.config[i]) {
        StaysPutIsDeleted(w0.config, key.namespace, w0.config[i]);
      }
    }
  }

  /** A namespaced resource that was moved, and under whose new identity nothing
      was shipped, is not deleted, unless as a leftover of old versions. */
  lemma MovedResourceStays(config: Manifest, namespace: string, r: Resource)
    requires r in config && !ClusterScoped(r.kind)
    requires forall d | d in config && d.apiVersion == r.apiVersion && d.kind == r.kind && d.name == r.name ::
               d.namespace != namespace
    ensures DeletedAsRendered(config, namespace, r) <==> InjectNamespace(namespace, r).Id() in Ids(Obsolete(namespace))
  {
    hide ClusterScoped, Obsolete;
    var id := InjectNamespace(namespace, r).Id();
    if Text.Lower(r.kind) == "namespace" {
      NamespacesAreClusterScoped(r.kind);
    }
    assert id == ResourceId(r.apiVersion, r.kind, namespace, r.name);
  }

  lemma NamespacesAreClusterScoped(kind: string)
    requires Text.Lower(kind) == "namespace"
    ensures ClusterScoped(kind)
  {}

  /** For an object in a namespace nothing was shipped for, that is all of them. */
  lemma OtherNamespaceDeletesNothing(config: Manifest, namespace: string, r: Resource)
    requires forall d | d in config :: ClusterScoped(d.kind) || d.namespace != namespace
    requires r in config && !ClusterScoped(r.kind)
    ensures DeletedAsRendered(config, namespace, r) <==> InjectNamespace(namespace, r).Id() in Ids(Obsolete(namespace))
  {
    hide ClusterScoped, Obsolete, InjectNamespace, DeletedAsRendered;
    MovedResourceStays(config, namespace, r);
  }

  // a binding the operator ships for a namespace of the platform
  const AUTH_READER := ResourceId("rbac.authorization.k8s.io/v1", "RoleBinding", "kube-system",
                                  "custom-metrics-auth-reader")

  /** In every other namespace the shipped binding is left behind; what teardown
      deletes in its stead is the one of the platform's namespace, which the
      operator has not installed. */
  lemma ShippedBindingStays(config: Manifest, namespace: string, r: Resource)
    requires r in config && r.Id() == AUTH_READER && namespace != AUTH_READER.namespace
    requires forall d | d in config && d.kind == r.kind && d.name == r.name :: d.namespace == r.namespace
    ensures !DeletedAsRendered(config, namespace, r) && AUTH_READER in DeletableIds(config)
    ensures InjectNamespace(namespace, r).Id() == AUTH_READER.(namespace := namespace)
  {
    assert Text.Lower("RoleBinding") == "rolebinding";
    assert !ClusterScoped(r.kind);
    MovedResourceStays(config, namespace, r);
    assert forall id | id in Ids(Obsolete(namespace)) :: id.kind != r.kind;
  }

  /** A shipped Namespace, not being the library's own creation, always stays. */
  lemma ShippedNamespaceStays(config: Manifest, namespace: string, r: Resource)
    requires r in config && r.kind == "Namespace"
    requires forall d | d in config && d.kind == "Namespace" :: !d.created
    ensures !DeletedAsRendered(config, namespace, r)
  {
    var id := InjectNamespace(namespace, r).Id();
    assert id.kind == r.kind;
  }
}
