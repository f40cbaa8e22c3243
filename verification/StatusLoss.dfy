/** A pass whose finalizer patch failed ends by writing the status of the zero
    object over the status of the real one. */
module StatusLoss {
  import opened Calls
  import opened Conditions
  import opened Invariant
  import opened Lifecycle
  import opened LivePath
  import opened PassOutcomes
  import opened Passes
  import opened Resources
  import opened Safety
  import opened World
  import opened Writes
  import opened ZeroObject
  import Pipeline
  import Text

  const NO_STATUS := Status([], "")

  /** The operator itself wrote version `n` of `key` between two worlds, over a
      version with another status, and changed nothing but the status. */
  predicate Overwrites(a: World, b: World, key: Key, status: Status, n: nat) {
    && |a.versions| <= n < |b.versions| && 0 <= b.versions[n].prev < n
    && var was := b.versions[b.versions[n].prev].obj;
       was.key == key && was.status != status && b.versions[n].obj == was.(rv := n, status := status)
  }

  /** Some write of the operator's between two worlds did. */
  ghost predicate StatusLost(a: World, b: World, key: Key, status: Status) {
    exists j: nat :: |a.log| <= j < |b.log| && OwnWrite(b.log[j]) && Overwrites(a, b, key, status, b.log[j].rv)
  }

  predicate OwnWrite(a: Action) {
    a.Wrote? && a.own && a.rv >= 0
  }

  /** A status write based on what `original` copies gets through. */
  predicate StatusLands(w: World, original: Serving) {
    NextTurn(w).fault != Dropped && Refusal(TakeTurn(w), original.key, original.rv, []).None?
  }

  lemma EnvWritesNothing(a: World, b: World)
    requires Env(a, b)
    ensures forall j: nat | |a.log| <= j < |b.log| :: !OwnWrite(b.log[j])
  {}

  /** One status write, over the status `original` has. */
  lemma OneStatusWrite(w0: World, original: Serving, status: Status)
    requires Inv(w0) && Snap(w0.versions, w0.released, original) && original.status != status
    ensures var w' := UpdateStatus(w0, original.(status := status)).w;
            && Inv(w') && Grows(w0, w')
            && (if StatusLands(w0, original) then StatusLost(w0, w', original.key, status)
                else forall j: nat | |w0.log| <= j < |w'.log| :: !OwnWrite(w'.log[j]))
  {
    hide Inv, TakeTurn, Env, Grows;
    var sent := original.(status := status);
    var w := TakeTurn(w0);
    TurnKeeps(w0);
    EnvWritesNothing(w0, w);
    EnvIsGrowth(w0, w);
    UpdateStatusKeeps(w0, sent);
    CalmIsGrowth(w0, UpdateStatus(w0, sent).w);
    RvNamed(w0, original);
    if StatusLands(w0, original) {
      LandedStatus(w0, w, original, status);
    }
  }

  lemma RvNamed(w: World, o: Serving)
    requires Inv(w) && Snap(w.versions, w.released, o)
    ensures o.key.name != ""
  {
    assert VersionOK(w.versions, o.rv);
  }

  lemma LandedStatus(w0: World, w: World, original: Serving, status: Status)
    requires Snap(w0.versions, w0.released, original) && original.status != status && original.key.name != ""
    requires Grows(w0, w) && w == TakeTurn(w0) && StatusLands(w0, original)
    ensures StatusLost(w0, UpdateStatus(w0, original.(status := status)).w, original.key, status)
  {
    hide TakeTurn;
    var w' := UpdateStatus(w0, original.(status := status)).w;
    assert w.versions[original.rv] == w0.versions[original.rv];
    assert w' == Commit(w, Live(w, original.key).(status := status), true);
    assert w'.log[|w.log|] == Wrote(|w.versions|, true);
    assert Overwrites(w0, w', original.key, status, |w.versions|);
  }

  ghost predicate NoOwnWrites(a: World, b: World) {
    |a.log| <= |b.log| && forall j: nat | |a.log| <= j < |b.log| :: !OwnWrite(b.log[j])
  }

  lemma NothingLost(a: World, b: World, key: Key, status: Status)
    requires NoOwnWrites(a, b)
    ensures !StatusLost(a, b, key, status)
  {}

  lemma NoneWrittenYet(a: World, b: World, c: World)
    requires NoOwnWrites(a, b) && Env(b, c)
    ensures NoOwnWrites(a, c)
  {}

  /** The status step of a pass that ended with the zero object, or one without a
      name: fetching it again is refused, so the first attempt decides. */
  lemma NamelessStatus(pass: Pass, original: Serving)
    requires Inv(pass.w) && Snap(pass.w.versions, pass.w.released, original) && pass.obj.key.name == ""
    ensures var end, lands := SyncStatus(pass, original).w, StatusLands(pass.w, original);
            && (StatusLost(pass.w, end, original.key, pass.obj.status) <==>
                !SameStatus(original.status, pass.obj.status) && lands)
            && (!lands ==> NoOwnWrites(pass.w, end))
  {
    hide Inv, TakeTurn, UpdateStatus, StatusLands, StatusLost, SameStatus, Env, Snap, Grows;
    var desired := pass.obj;
    if SameStatus(original.status, desired.status) {
      NothingLost(pass.w, pass.w, original.key, desired.status);
    } else {
      EqualIsSame(original.status, desired.status);
      OneStatusWrite(pass.w, original, desired.status);
      var reply := UpdateStatus(pass.w, original.(status := desired.status));
      LogGrew(pass.w, reply.w);
      TurnKeeps(reply.w);
      if StatusLands(pass.w, original) {
        LandsOrConflicts(pass.w, original, desired.status);
      } else {
        NoneWrittenYet(pass.w, reply.w, TakeTurn(reply.w));
        NothingLost(pass.w, TakeTurn(reply.w), original.key, desired.status);
        NothingLost(pass.w, reply.w, original.key, desired.status);
      }
      assert UpdateStatusFrom(reply.w, 1, original, desired) == Pass(TakeTurn(reply.w), original, Failing);
    }
  }

  lemma EqualIsSame(a: Status, b: Status)
    ensures a == b ==> SameStatus(a, b)
  {}

  lemma LogGrew(a: World, b: World)
    requires Grows(a, b)
    ensures |a.log| <= |b.log|
  {}

  lemma LandsOrConflicts(w: World, original: Serving, status: Status)
    requires StatusLands(w, original)
    ensures UpdateStatus(w, original.(status := status)).result != Err(Conflict)
  {
    hide TakeTurn;
  }

  // ----- the undeleted path

  lemma NothingAskedRenders(config: Manifest)
    ensures Render(config, ZERO).Some?
  {
    hide Pipeline.RunAll, Pipeline.TransformAll;
    Pipeline.TransformedManifest(EMPTY_SPEC, InjectedAll("", config));
  }

  /** The gate lets the zero object through, and the transforms fail. */
  predicate TransformsFail(w: World) {
    PassGate(w.servings, ZERO.key, ZERO.generation).open && NextTurn(w).fault != NoFault
  }

  /** With the zero object no stage succeeds: what is left is its empty status, or
      the failure of the transforms marked on it. */
  lemma ZeroStatus(w: World)
    ensures var p := ReconcileKind(w, ZERO);
            && p.obj.key == ZERO.key && p.out == Failing
            && (if TransformsFail(w) then p.obj.status.conditions != [] else p.obj.status == NO_STATUS)
  {
    hide TakeTurn, Render, RunStages;
    var gate := PassGate(w.servings, ZERO.key, ZERO.generation);
    var counted := Report(w, ZERO.key, gate.report).(servings := gate.servings);
    var w1 := TakeTurn(counted);
    NothingAskedRenders(w1.config);
    StagesUnfold(w1, Render(w1.config, ZERO).value, ZERO);
    NotEmptied(w1.now);
  }

  lemma NotEmptied(now: int)
    ensures Marked([], InstallFailing("transform"), now) != []
  {
    EmptyStatusIsCoherent();
    hide Marked;
    MarkedVerdict([], InstallFailing("transform"), now, InstallSucceeded);
  }

  lemma SnapGrows(a: World, b: World, o: Serving)
    requires Grows(a, b) && Snap(a.versions, a.released, o)
    ensures Snap(b.versions, b.released, o)
  {}

  lemma EmptyIsSame(status: Status)
    ensures SameStatus(status, NO_STATUS) <==> status == NO_STATUS
  {}

  /** A pass over a live object whose finalizer patch failed ends by replacing the
      object's whole status exactly if that status differs and what the cache
      showed at the start is still stored when the write arrives. What it puts
      there is the empty status, or, if the transforms failed, that failure alone. */
  lemma LivePassErases(w0: World, key: Key)
    requires Inv(w0) && ZeroPass(w0, PassOver(key))
    ensures var w := TakeTurn(w0);
            var o := Listed(w, key).value;
            var pass, end := ReconcileLive(w, o), Reconcile(w0, key).w;
            && (StatusLost(pass.w, end, key, pass.obj.status) <==>
                !SameStatus(o.status, pass.obj.status) && StatusLands(pass.w, o))
            && (pass.obj.status == NO_STATUS <==> !TransformsFail(SetFinalizer(w, o).w))
            && (pass.obj.status == NO_STATUS ==>
                  (StatusLost(pass.w, end, key, NO_STATUS) <==> o.status != NO_STATUS && StatusLands(pass.w, o)))
  {
    hide Inv, TakeTurn, SetFinalizer, ReconcileKind, SyncStatus, SameStatus, StatusLost, StatusLands, PatchOfKFails,
         Snap, Env, Grows, TransformsFail;
    var w := TakeTurn(w0);
    TurnKeeps(w0);
    ListedIsSnap(w, key);
    NamedKey(w, key);
    var o := Listed(w, key).value;
    ZeroInstance(w, o);
    ZeroStatus(SetFinalizer(w, o).w);
    var pass := ReconcileLive(w, o);
    LivePassKeeps(w, o);
    SnapGrows(w, pass.w, o);
    NamelessStatus(pass, o);
    EmptyIsSame(o.status);
    assert Reconcile(w0, key) == SyncStatus(pass, o);
  }

  lemma LivePassKeeps(w: World, o: Serving)
    requires Inv(w) && o.key in w.cache && w.cache[o.key].obj == Some(o) && !o.deleting && o.key.name != ""
    ensures Inv(ReconcileLive(w, o).w) && Grows(w, ReconcileLive(w, o).w)
  {
    hide Inv, ReconcileLive;
    ReconcileLiveSafe(w, o);
    CalmIsGrowth(w, ReconcileLive(w, o).w);
  }

  // ----- the finalizing path

  /** The patch that is to bring the finalizers to what `resource` wants is due,
      and lost or refused. */
  predicate PatchFails(w: World, resource: Serving) {
    var w1 := TakeTurn(w);
    var again := Listed(w1, resource.key);
    && again.Some? && PatchDue(resource, again.value).Some?
    && (NextTurn(w1).fault != NoFault ||
        Refusal(TakeTurn(w1), resource.key, again.value.rv, PatchDue(resource, again.value).value).Some?)
  }

  /** What a finalizing pass asks for after the hand-written half. */
  function Clearing(o: Serving, out: Outcome): Serving {
    var finalizers := Text.Elements(o.finalizers);
    o.(finalizers := Text.SortedList(if out == Fine then finalizers - {K} else finalizers))
  }

  lemma ZeroCleared(w: World, resource: Serving)
    requires PatchFails(w, resource)
    ensures UpdateFinalizersFiltered(w, resource).obj == ZERO
  {
    hide TakeTurn, PatchDue;
  }

  /** So does a finalizing pass whose patch for K failed, with the empty status. */
  lemma DeletingPassErases(w0: World, key: Key)
    requires Inv(w0) && Listed(TakeTurn(w0), key).Some? && Listed(TakeTurn(w0), key).value.deleting
    requires var o := Listed(TakeTurn(w0), key).value;
             var finalized := FinalizeKind(TakeTurn(w0), o);
             finalized.out != Panicking && PatchFails(finalized.w, Clearing(o, finalized.out))
    ensures var w := TakeTurn(w0);
            var o := Listed(w, key).value;
            var pass := ReconcileDeleting(w, o);
            StatusLost(pass.w, Reconcile(w0, key).w, key, NO_STATUS) <==>
            o.status != NO_STATUS && StatusLands(pass.w, o)
  {
    hide Inv, TakeTurn, FinalizeKind, SyncStatus, SameStatus, StatusLost, StatusLands, PatchFails, Snap, Env, Grows,
         UpdateFinalizersFiltered;
    var w := TakeTurn(w0);
    TurnKeeps(w0);
    ListedIsSnap(w, key);
    var o := Listed(w, key).value;
    var finalized := FinalizeKind(w, o);
    ZeroCleared(finalized.w, Clearing(o, finalized.out));
    var pass := ReconcileDeleting(w, o);
    assert pass.obj == ZERO;
    ReconcileDeletingKeeps(w, o);
    SnapGrows(w, pass.w, o);
    NamelessStatus(pass, o);
    EmptyIsSame(o.status);
  }
}
