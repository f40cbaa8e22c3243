/** When an object does not converge although nobody interferes: the gate refuses
    it, or its status blames dependencies. */
module Refusals {
  import opened Conditions
  import opened Convergence
  import opened Lifecycle
  import opened PassOutcomes
  import opened Passes
  import opened QuietCalls
  import opened Resources
  import opened Text
  import opened World

  // ----- an object the gate refuses

  /** A pass over it adds K if it is missing and does nothing else to it. */
  lemma RefusedPass(w: World, key: Key)
    requires Placed(w, key) && !Admitted(w, key)
    ensures var o, w' := Live(w, key), SyncedPass(w, key);
            && Placed(w', key) && !Admitted(w', key)
            && var o' := Live(w', key);
               && o' == o.(finalizers := o'.finalizers, rv := o'.rv)
               && Elements(o'.finalizers) == Elements(o.finalizers) + {K}
  {
    hide SyncStatus, Render, WellFormed, EditStep, Reconcile, TakeTurn, SetFinalizer, Elements;
    var o := Live(w, key);
    RefreshedAt(w, key, o);
    var w0 := Refreshed(w, key);
    ReconcileUnfolds(w0, key, o);
    var w1 := TakeTurn(w0);
    PrepareAt(w1, key, o);
    var prepared := SetFinalizer(w1, o);
    assert ReconcileLive(w1, o) == Pass(prepared.w, prepared.obj, Failing);
    NothingToWrite(Pass(prepared.w, prepared.obj, Failing), o);
    SameRender(w.config, o, Live(prepared.w, key));
  }

  lemma NothingToWrite(pass: Pass, o: Serving)
    requires pass.obj.status == o.status
    ensures SyncStatus(pass, o) == pass
  {}

  /** However many passes follow. */
  lemma {:induction false} RefusedForGood(w: World, key: Key, n: nat)
    requires Placed(w, key) && !Admitted(w, key) && n >= 1
    ensures var o, w' := Live(w, key), SyncedPasses(w, key, n);
            && Placed(w', key) && !Admitted(w', key)
            && Live(w', key).status == o.status && K in Live(w', key).finalizers
            && (D in Live(w', key).finalizers <==> D in o.finalizers)
  {
    hide Placed, Admitted, SyncedPass;
    if n > 1 {
      RefusedForGood(w, key, n - 1);
    }
    var before := SyncedPasses(w, key, n - 1);
    RefusedPass(before, key);
    PlacedIsStored(before, key);
    PlacedIsStored(SyncedPass(before, key), key);
    OnlyKAdded(Live(before, key).finalizers, Live(SyncedPass(before, key), key).finalizers);
  }

  lemma OnlyKAdded(before: seq<string>, after: seq<string>)
    requires Elements(after) == Elements(before) + {K}
    ensures K in after && (D in after <==> D in before)
  {
    assert D[0] != K[0];
    assert K in Elements(after) && (D in Elements(after) <==> D in Elements(before));
  }

  // ----- a status that blames dependencies

  ghost predicate Blames(status: Status) {
    WellFormed(status.conditions) && IsFalse(status.conditions, DependenciesInstalled)
  }

  lemma BlameStays(cs: seq<Condition>, installed: int, probed: int)
    requires Blames(Status(cs, ""))
    ensures Blames(Status(Marked(Marked(cs, InstallSucceeding, installed), DeploymentsReady, probed), VERSION))
  {
    hide WellFormed, MarkTrue;
    InstallSucceedingEffect(cs, installed);
    MarkTrueCoherent(Marked(cs, InstallSucceeding, installed), DeploymentsAvailable, probed);
  }

  lemma BlamedIsBegun(cs: seq<Condition>)
    requires IsFalse(cs, DependenciesInstalled)
    ensures cs != []
  {}

  /** The stages succeed over it, and go on blaming. */
  lemma BlamedStages(w: World, manifest: seq<Resource>, key: Key, o: Serving, instance: Serving)
    requires At(w, key, o) && Mirrors(instance, o) && !o.deleting && Blames(o.status)
    ensures var p := RunStages(STAGES, w, manifest, instance);
            && p.out == Fine && p.obj.key == key && Blames(p.obj.status) && Kept(w, p.w) && Stored(p.w, key)
            && var o1 := Live(p.w, key);
               At(p.w, key, o1) && o1 == o.(finalizers := o1.finalizers, rv := o1.rv) && o.rv <= o1.rv
  {
    hide RunStages, EnsureFinalizer, InitStatus, Marked, WellFormed, IsFalse, Elements;
    StagesUnfold(w, manifest, instance);
    EnsureAt(w, key, o, instance);
    BlamedIsBegun(o.status.conditions);
    var first := EnsureFinalizer(w, instance);
    var o1 := Live(first.w, key);
    InitAt(first.w, key, o1, first.obj);
    var installed, probed := LateAt(first.w, manifest, first.obj);
    BlameStays(o.status.conditions, installed, probed);
    UndisturbedAt(first.w, RunStages(LATE, first.w, manifest, first.obj).w, key, o1);
  }

  lemma BlamedKind(w: World, key: Key, o: Serving, instance: Serving)
    requires At(w, key, o) && Mirrors(instance, o) && !o.deleting && Blames(o.status)
    requires key in w.servings ==> w.servings[key] <= o.generation
    requires Render(w.config, o).Some?
    ensures var p := ReconcileKind(w, instance);
            && p.out == Fine && p.obj.key == key && Blames(p.obj.status) && Stored(p.w, key)
            && p.w.cache == w.cache && p.w.config == w.config && p.w.servings == w.servings[key := o.generation]
            && var o1 := Live(p.w, key);
               At(p.w, key, o1) && o1 == o.(finalizers := o1.finalizers, rv := o1.rv) && o.rv <= o1.rv
  {
    hide TakeTurn, RunStages, Render, Blames, Elements;
    var gate := PassGate(w.servings, key, instance.generation);
    var counted := Report(w, key, gate.report).(servings := gate.servings);
    TurnUndisturbed(counted);
    SameRender(w.config, o, instance);
    assert gate.open && At(TakeTurn(counted), key, o);
    BlamedStages(TakeTurn(counted), Render(w.config, instance).value, key, o, instance);
  }

  lemma BlamedPass(w: World, key: Key)
    requires Placed(w, key) && Admitted(w, key) && Blames(Live(w, key).status)
    ensures Placed(SyncedPass(w, key), key) && Blames(Live(SyncedPass(w, key), key).status)
  {
    hide SyncStatus, Render, WellFormed, IsFalse, EditStep, Reconcile, TakeTurn, SetFinalizer, ReconcileKind, Elements,
         SameStatus;
    var o := Live(w, key);
    RefreshedAt(w, key, o);
    var w0 := Refreshed(w, key);
    ReconcileUnfolds(w0, key, o);
    var w1 := TakeTurn(w0);
    PrepareAt(w1, key, o);
    var prepared := SetFinalizer(w1, o);
    var o1 := Live(prepared.w, key);
    SameRender(w.config, o, o1);
    BlamedKind(prepared.w, key, o1, prepared.obj);
    var pass := ReconcileLive(w1, o);
    var o2 := Live(pass.w, key);
    SyncStatusAt(pass, o, o2);
    SameRender(w.config, o, o2);
    SameRender(w.config, o, Live(SyncStatus(pass, o).w, key));
  }

  /** Whatever the gate says about later passes. */
  lemma {:induction false} BlamedForGood(w: World, key: Key, n: nat)
    requires Placed(w, key) && Blames(Live(w, key).status)
    ensures Placed(SyncedPasses(w, key, n), key) && Blames(Live(SyncedPasses(w, key, n), key).status)
  {
    hide Placed, Admitted, SyncedPass, Blames;
    if n > 0 {
      BlamedForGood(w, key, n - 1);
      var before := SyncedPasses(w, key, n - 1);
      PlacedIsStored(before, key);
      if Admitted(before, key) {
        BlamedPass(before, key);
      } else {
        RefusedPass(before, key);
      }
    }
  }

  lemma PlacedIsStored(w: World, key: Key)
    requires Placed(w, key)
    ensures Stored(w, key)
  {}

  // ----- exactly when an object converges

  lemma BlamedIsNotConverged(w: World, key: Key)
    requires Stored(w, key) && Blames(Live(w, key).status)
    ensures !Converged(w, key)
  {}

  /** Left alone with a synced cache, an undeleted object has converged after two
      passes, and from then on, exactly if its status does not blame dependencies
      and the gate lets it through, or there is nothing left to do but to add K. */
  lemma ConvergesExactly(w: World, key: Key, n: nat)
    requires Placed(w, key) && n >= 2
    ensures var o, w' := Live(w, key), SyncedPasses(w, key, n);
            Converged(w', key) <==>
            && !IsFalse(o.status.conditions, DependenciesInstalled)
            && (Admitted(w, key) ||
                (D in o.finalizers && o.status.version == VERSION && Settled(o.status.conditions)))
  {
    hide SyncedPasses, Render, WellFormed, IsFalse, Settled;
    var o := Live(w, key);
    if IsFalse(o.status.conditions, DependenciesInstalled) {
      BlamedForGood(w, key, n);
      BlamedIsNotConverged(SyncedPasses(w, key, n), key);
    } else if Admitted(w, key) {
      ConvergesInTwoPasses(w, key, n);
    } else {
      RefusedForGood(w, key, n);
    }
  }
}
