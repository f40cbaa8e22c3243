/** Left alone, an undeleted object converges in at most two passes, and then no
    pass writes to it again. */
module Convergence {
  import opened Conditions
  import opened Invariant
  import opened Lifecycle
  import opened Manifests
  import opened PassOutcomes
  import opened Passes
  import opened QuietCalls
  import opened Resources
  import opened Text
  import opened World
  import opened Writes

  /** The cache is told of the version stored under a key. */
  function Refreshed(w: World, key: Key): World {
    if Stored(w, key) then EditStep(w, Sync(key, w.live[key])) else w
  }

  predicate Synced(w: World, key: Key) {
    Stored(w, key) && key in w.cache && w.cache[key] == Entry(w.live[key], Some(Live(w, key)))
  }

  /** A pass with the cache synced before it. */
  function SyncedPass(w: World, key: Key): World {
    Reconcile(Refreshed(w, key), key).w
  }

  function SyncedPasses(w: World, key: Key, n: nat): World {
    if n == 0 then w else SyncedPass(SyncedPasses(w, key, n - 1), key)
  }

  /** An undeleted object of a world left alone, its transforms succeeding and its
      conditions such as the operator keeps. */
  ghost predicate Placed(w: World, key: Key) {
    && Stored(w, key)
    && var o := Live(w, key);
       && At(w, key, o) && !o.deleting
       && (key in w.cache ==> w.cache[key].at <= w.live[key])
       && Render(w.config, o).Some?
       && WellFormed(o.status.conditions)
  }

  /** The gate lets the object through: its generation is not older than the last
      one let through. */
  predicate Admitted(w: World, key: Key)
    requires Stored(w, key)
  {
    key in w.servings ==> w.servings[key] <= Live(w, key).generation
  }

  /** What convergence asks besides: that the object is let through and that its
      status does not blame dependencies. */
  ghost predicate Converging(w: World, key: Key) {
    Placed(w, key) && Admitted(w, key) && !IsFalse(Live(w, key).status.conditions, DependenciesInstalled)
  }

  /** Both finalizers stored, the version set, and everything marked True. */
  predicate Converged(w: World, key: Key) {
    && Stored(w, key)
    && var o := Live(w, key);
       && K in o.finalizers && D in o.finalizers
       && o.status.version == VERSION && Settled(o.status.conditions)
  }

  // ----- the steps of a pass

  /** The instance is the object, its finalizers perhaps in another order. */
  predicate Mirrors(instance: Serving, o: Serving) {
    instance == o.(finalizers := instance.finalizers) && Elements(instance.finalizers) == Elements(o.finalizers)
  }

  /** The list a pass leaves: K and D come last, in this order; where K was there
      and D was not, the others come in ascending order. */
  function Enlisted(finalizers: seq<string>): seq<string> {
    if K in finalizers then
      if D in finalizers then finalizers else SortedList(Elements(finalizers)) + [D]
    else if D in finalizers then finalizers + [K]
    else finalizers + [K, D]
  }

  lemma PrepareAt(w: World, key: Key, o: Serving)
    requires At(w, key, o) && Synced(w, key) && !o.deleting
    ensures var p := SetFinalizer(w, o);
            && Kept(w, p.w) && Stored(p.w, key)
            && var o1 := Live(p.w, key);
               && At(p.w, key, o1) && Mirrors(p.obj, o1)
               && o1 == o.(finalizers := o1.finalizers, rv := o1.rv) && o.rv <= o1.rv
               && Elements(o1.finalizers) == Elements(o.finalizers) + {K}
               && (if K in o.finalizers then
                     && p.w.versions == w.versions && p.w.live == w.live && o1 == o
                     && p.obj.finalizers == SortedList(Elements(o.finalizers))
                   else o1.finalizers == o.finalizers + [K] == p.obj.finalizers)
  {
    hide TakeTurn, Patch;
    var sorted := SortedList(Elements(o.finalizers) + {K});
    TurnUndisturbed(w);
    var w1 := TakeTurn(w);
    assert K in Elements(sorted);
    if K in o.finalizers {
      assert Elements(o.finalizers) + {K} == Elements(o.finalizers);
    } else {
      assert Elements(o.finalizers + [K]) == Elements(o.finalizers) + {K};
      PatchAt(w1, key, o, o.finalizers + [K]);
    }
  }

  lemma EnsureAt(w: World, key: Key, o: Serving, instance: Serving)
    requires At(w, key, o) && Mirrors(instance, o) && !o.deleting
    ensures var p := EnsureFinalizer(w, instance);
            && p.out == Fine && Kept(w, p.w) && Stored(p.w, key)
            && var o1 := Live(p.w, key);
               && At(p.w, key, o1)
               && o1 == o.(finalizers := o1.finalizers, rv := o1.rv) && o.rv <= o1.rv
               && Elements(o1.finalizers) == Elements(o.finalizers) + {D}
               && p.obj == instance.(finalizers := p.obj.finalizers)
               && (if D in o.finalizers then p.w == w && p.obj == instance
                   else o1.rv != instance.rv && o1.finalizers == instance.finalizers + [D])
  {
    hide Update;
    assert D in instance.finalizers <==> D in Elements(instance.finalizers);
    if D in o.finalizers {
      assert D in Elements(o.finalizers);
      assert Elements(o.finalizers) + {D} == Elements(o.finalizers);
    } else {
      var marked := instance.(finalizers := instance.finalizers + [D]);
      assert Elements(marked.finalizers) == Elements(instance.finalizers) + {D};
      UpdateAt(w, o, marked);
    }
  }

  lemma InitAt(w: World, key: Key, o: Serving, instance: Serving)
    requires At(w, key, o) && instance.key == key && !o.deleting
    ensures var p := InitStatus(w, instance);
            && Kept(w, p.w) && Stored(p.w, key) && At(p.w, key, Live(p.w, key))
            && Live(p.w, key) == o.(status := Live(p.w, key).status, rv := Live(p.w, key).rv)
            && o.rv <= Live(p.w, key).rv
            && (instance.status.conditions != [] ==> p == Pass(w, instance, Fine))
            && (instance.status.conditions == [] ==>
                  && p.obj.key == key && p.obj.status == InitialStatus(instance, w.now)
                  && (if instance.rv == o.rv then p.out == Fine && p.obj == Live(p.w, key) else p.out == Failing))
  {
    hide UpdateStatus, Marked;
    if instance.status.conditions == [] {
      var initialized := WithMark(instance, Initializing, w.now);
      if instance.rv == o.rv {
        UpdateStatusAt(w, o, initialized);
      } else {
        UpdateStatusConflicts(w, o, initialized);
        UndisturbedAt(w, UpdateStatus(w, initialized).w, key, o);
      }
    }
  }

  function InitialStatus(instance: Serving, now: int): Status {
    instance.status.(conditions := Marked(instance.status.conditions, Initializing, now))
  }

  /** Install, probe and clean up: the store is not touched, and the status is
      marked a success. */
  lemma LateAt(w: World, manifest: seq<Resource>, instance: Serving) returns (installed: int, probed: int)
    requires Quiet(w)
    ensures var p := RunStages(LATE, w, manifest, instance);
            && p.out == Fine && Undisturbed(w, p.w)
            && var marked := Marked(instance.status.conditions, InstallSucceeding, installed);
               p.obj == instance.(status := Status(Marked(marked, DeploymentsReady, probed), VERSION))
  {
    hide Marked, ApplyPhases, ProbeDeployments, DeletePhase;
    ApplyPhasesUndisturbed(w, instance, InstallPhases(manifest));
    var first := Install(w, manifest, instance);
    installed := first.w.now;
    ProbeUndisturbed(first.w, Deployments(manifest));
    var second := CheckDeployments(first.w, manifest, first.obj);
    probed := second.w.now;
    DeletePhaseUndisturbed(second.w, Obsolete(second.obj.key.namespace));
    var third := DeleteObsolete(second.w, second.obj);
    assert LATE[1..] == [CheckingDeployments, DeletingObsolete] && LATE[1..][1..] == [DeletingObsolete];
    assert LATE[1..][1..][1..] == [];
    assert RunStages([], third.w, manifest, third.obj) == Pass(third.w, third.obj, Fine);
    assert RunStages([DeletingObsolete], second.w, manifest, second.obj) == Pass(third.w, third.obj, Fine);
  }

  /** Where the stages leave an object with these conditions: installed, or,
      when D had to be attached to an object without conditions, initialized. */
  ghost predicate Staged(o: Serving, p: Pass) {
    && p.obj.key == o.key
    && if D in o.finalizers || o.status.conditions != [] then
         p.out == Fine && Succeeded(p.obj.status) && (Succeeded(o.status) ==> SameStatus(o.status, p.obj.status))
       else
         p.out == Failing && Begun(p.obj.status)
  }

  /** Where a successful pass leaves a status. */
  ghost predicate Succeeded(status: Status) {
    status.version == VERSION && WellFormed(status.conditions) && Settled(status.conditions)
  }

  /** Where initializing leaves it. */
  ghost predicate Begun(status: Status) {
    && WellFormed(status.conditions) && !IsFalse(status.conditions, DependenciesInstalled)
    && IsUnknown(status.conditions, Ready) && status.conditions != []
  }

  lemma BegunFromNothing(instance: Serving, now: int)
    requires instance.status.conditions == []
    ensures Begun(InitialStatus(instance, now))
  {
    hide Initialize;
    InitializeEffect([], now);
  }

  lemma SuccessMarked(cs: seq<Condition>, version: string, installed: int, probed: int)
    requires WellFormed(cs) && !IsFalse(cs, DependenciesInstalled)
    ensures var status := Status(Marked(Marked(cs, InstallSucceeding, installed), DeploymentsReady, probed), VERSION);
            Succeeded(status) && (Succeeded(Status(cs, version)) ==> status == Status(cs, version))
  {
    hide Marked, WellFormed, Settled, IsFalse;
    SuccessSettles(cs, installed, probed);
    if Succeeded(Status(cs, version)) {
      SettledStays(cs, installed, probed);
    }
  }

  /** The stages, on an object whose status may be installed over. */
  lemma StagesAt(w: World, manifest: seq<Resource>, key: Key, o: Serving, instance: Serving)
    requires At(w, key, o) && Mirrors(instance, o) && !o.deleting
    requires WellFormed(o.status.conditions) && !IsFalse(o.status.conditions, DependenciesInstalled)
    ensures var p := RunStages(STAGES, w, manifest, instance);
            && Staged(o, p) && Kept(w, p.w) && Stored(p.w, key)
            && var o1 := Live(p.w, key);
               && At(p.w, key, o1) && o.rv <= o1.rv
               && o1 == o.(finalizers := o1.finalizers, rv := o1.rv, status := o1.status)
               && Elements(o1.finalizers) == Elements(o.finalizers) + {D}
               && o1.finalizers == (if D in o.finalizers then o.finalizers else instance.finalizers + [D])
               && (o.status.conditions != [] ==> o1.status == o.status)
               && (D in o.finalizers && o.status.conditions != [] ==>
                     p.w.versions == w.versions && p.w.live == w.live && o1 == o)
  {
    hide RunStages, EnsureFinalizer, InitStatus, Marked, WellFormed, IsFalse, Succeeded, SameStatus, Elements, Begun;
    StagesUnfold(w, manifest, instance);
    EnsureAt(w, key, o, instance);
    var first := EnsureFinalizer(w, instance);
    InitAt(first.w, key, Live(first.w, key), first.obj);
    var second := InitStatus(first.w, first.obj);
    if o.status.conditions == [] {
      BegunFromNothing(first.obj, first.w.now);
      BegunMeaning(InitialStatus(first.obj, first.w.now));
    }
    if second.out == Fine {
      InstallingAt(second.w, manifest, key, second.obj);
      if o.status.conditions == [] {
        NothingYet(o.status);
      }
    }
  }

  lemma BegunMeaning(status: Status)
    requires Begun(status)
    ensures WellFormed(status.conditions) && !IsFalse(status.conditions, DependenciesInstalled)
  {}

  lemma NothingYet(status: Status)
    requires status.conditions == []
    ensures !Succeeded(status)
  {}

  lemma InstallingAt(w: World, manifest: seq<Resource>, key: Key, instance: Serving)
    requires Stored(w, key) && At(w, key, Live(w, key)) && instance.key == key
    requires WellFormed(instance.status.conditions) && !IsFalse(instance.status.conditions, DependenciesInstalled)
    ensures var p := RunStages(LATE, w, manifest, instance);
            && p.out == Fine && p.obj.key == key && Undisturbed(w, p.w) && At(p.w, key, Live(w, key))
            && Succeeded(p.obj.status)
            && (Succeeded(instance.status) ==> SameStatus(instance.status, p.obj.status))
  {
    hide RunStages, Marked, WellFormed, IsFalse, Succeeded;
    var installed, probed := LateAt(w, manifest, instance);
    UndisturbedAt(w, RunStages(LATE, w, manifest, instance).w, key, Live(w, key));
    SuccessMarked(instance.status.conditions, instance.status.version, installed, probed);
  }

  /** What a reconciliation did to the store: the finalizers are there, as listed,
      and if they were and the status was begun, it has not written. */
  predicate Advanced(w: World, key: Key, o: Serving, finalizers: set<string>, list: seq<string>, w': World) {
    && Stored(w', key) && w'.config == w.config && w'.cache == w.cache
    && w'.servings == w.servings[key := o.generation]
    && var o' := Live(w', key);
       && At(w', key, o') && o.rv <= o'.rv && o' == o.(finalizers := o'.finalizers, rv := o'.rv, status := o'.status)
       && Elements(o'.finalizers) == Elements(o.finalizers) + finalizers && o'.finalizers == list
       && (o.status.conditions != [] ==>
             && o'.status == o.status
             && (finalizers <= Elements(o.finalizers) ==> w'.versions == w.versions && w'.live == w.live))
  }

  /** The gate lets the object through and the stages run. */
  lemma ReconcileKindAt(w: World, key: Key, o: Serving, instance: Serving)
    requires At(w, key, o) && Mirrors(instance, o) && !o.deleting
    requires key in w.servings ==> w.servings[key] <= o.generation
    requires Render(w.config, o).Some?
    requires WellFormed(o.status.conditions) && !IsFalse(o.status.conditions, DependenciesInstalled)
    ensures var list := if D in o.finalizers then o.finalizers else instance.finalizers + [D];
            Staged(o, ReconcileKind(w, instance)) && Advanced(w, key, o, {D}, list, ReconcileKind(w, instance).w)
  {
    hide TakeTurn, RunStages, Render, Marked, WellFormed, IsFalse, Staged, Elements;
    var gate := PassGate(w.servings, key, instance.generation);
    var counted := Report(w, key, gate.report).(servings := gate.servings);
    TurnUndisturbed(counted);
    var w1 := TakeTurn(counted);
    SameRender(w.config, o, instance);
    InElements(D, o.finalizers);
    assert gate.open && At(w1, key, o);
    StagesAt(w1, Render(w.config, instance).value, key, o, instance);
  }

  lemma InElements(x: string, list: seq<string>)
    ensures x in Elements(list) <==> x in list
  {}

  lemma SameRender(config: Manifest, a: Serving, b: Serving)
    requires a.spec == b.spec && a.key == b.key
    ensures Render(config, a) == Render(config, b)
  {}

  lemma LivePassAt(w: World, key: Key, o: Serving)
    requires At(w, key, o) && Synced(w, key) && !o.deleting
    requires key in w.servings ==> w.servings[key] <= o.generation
    requires Render(w.config, o).Some?
    requires WellFormed(o.status.conditions) && !IsFalse(o.status.conditions, DependenciesInstalled)
    ensures Staged(o, ReconcileLive(w, o))
    ensures Advanced(w, key, o, {K, D}, Enlisted(o.finalizers), ReconcileLive(w, o).w)
  {
    hide SetFinalizer, ReconcileKind, Render, WellFormed, IsFalse, SortedList, Enlisted, Elements, Succeeded, Begun,
         SameStatus;
    PrepareAt(w, key, o);
    var prepared := SetFinalizer(w, o);
    var o1 := Live(prepared.w, key);
    SameRender(w.config, o, o1);
    PreparedHasD(o, o1);
    EnlistedInTwoSteps(o.finalizers, o1.finalizers, prepared.obj.finalizers);
    InElements(K, o.finalizers);
    ReconcileKindAt(prepared.w, key, o1, prepared.obj);
  }

  lemma EnlistedInTwoSteps(before: seq<string>, prepared: seq<string>, instance: seq<string>)
    requires prepared == if K in before then before else before + [K]
    requires instance == if K in before then SortedList(Elements(before)) else prepared
    ensures Enlisted(before) == if D in prepared then prepared else instance + [D]
  {
    assert D[0] != K[0];
    assert before + [K] + [D] == before + [K, D];
  }

  lemma PreparedHasD(o: Serving, o1: Serving)
    requires Elements(o1.finalizers) == Elements(o.finalizers) + {K}
    ensures D in o1.finalizers <==> D in o.finalizers
    ensures Elements(o1.finalizers) + {D} == Elements(o.finalizers) + {K, D}
  {
    assert D[0] != K[0];
    assert D in Elements(o1.finalizers) <==> D in Elements(o.finalizers);
  }

  // ----- the status write at the end of a pass

  /** The object a pass is about to end with, once its status is written. */
  lemma SyncStatusAt(pass: Pass, original: Serving, o: Serving)
    requires At(pass.w, pass.obj.key, o) && original.key == pass.obj.key && !o.deleting
    requires pass.out != Panicking
    ensures var w' := SyncStatus(pass, original).w;
            && Stored(w', original.key) && Kept(pass.w, w')
            && var o' := Live(w', original.key);
               && At(w', original.key, o') && o.rv <= o'.rv
               && o' == o.(rv := o'.rv, status := o'.status)
               && if SameStatus(original.status, pass.obj.status) then w' == pass.w
                  else o'.status == pass.obj.status
  {
    hide UpdateStatusFrom, SameStatus;
    if !SameStatus(original.status, pass.obj.status) {
      EqualIsSame(original.status, pass.obj.status);
      RetryAt(pass.w, o, original, pass.obj);
    }
  }

  lemma EqualIsSame(a: Status, b: Status)
    ensures a == b ==> SameStatus(a, b)
  {}

  /** Transition times apart, equal statuses are equally successful. */
  lemma SucceededUpToTime(a: Status, b: Status)
    requires SameStatus(a, b) && Succeeded(b)
    ensures Succeeded(a)
  {
    WellFormedUpToTime(a.conditions, b.conditions);
    GetUpToTime(a.conditions, b.conditions, InstallSucceeded);
    GetUpToTime(a.conditions, b.conditions, DeploymentsAvailable);
    GetUpToTime(a.conditions, b.conditions, Ready);
    GetUpToTime(a.conditions, b.conditions, DependenciesInstalled);
  }

  predicate SameConditions(a: seq<Condition>, b: seq<Condition>) {
    |a| == |b| && forall i | 0 <= i < |a| :: Same(a[i], b[i])
  }

  lemma WellFormedUpToTime(a: seq<Condition>, b: seq<Condition>)
    requires SameConditions(a, b) && WellFormed(b)
    ensures WellFormed(a)
  {
    forall c | c in a ensures Fits(c) {
      var i :| 0 <= i < |a| && a[i] == c;
      assert Same(c, b[i]) && b[i] in b;
    }
    forall i, j | 0 <= i < j < |a| ensures a[i].ctype != a[j].ctype {
      assert Same(a[i], b[i]) && Same(a[j], b[j]);
    }
  }

  lemma {:induction false} GetUpToTime(a: seq<Condition>, b: seq<Condition>, t: ConditionType)
    requires SameConditions(a, b)
    ensures Get(a, t).Some? <==> Get(b, t).Some?
    ensures Get(a, t).Some? ==> Same(Get(a, t).value, Get(b, t).value)
  {
    if a != [] {
      assert Same(a[0], b[0]);
      assert forall i | 0 <= i < |a| - 1 :: a[1..][i] == a[i + 1] && b[1..][i] == b[i + 1] && Same(a[i + 1], b[i + 1]);
      GetUpToTime(a[1..], b[1..], t);
    }
  }

  // ----- the theorem

  lemma RefreshedAt(w: World, key: Key, o: Serving)
    requires At(w, key, o) && (key in w.cache ==> w.cache[key].at <= w.live[key])
    ensures var w' := Refreshed(w, key);
            w' == w.(cache := w'.cache) && Synced(w', key) && At(w', key, o) && w'.cache[key].at == w.live[key]
  {}

  /** Where a pass leaves the object `o`. */
  ghost predicate Ended(w: World, key: Key, o: Serving, w': World) {
    && Stored(w', key) && w'.config == w.config && w'.cache == w.cache
    && w'.servings == w.servings[key := o.generation]
    && var o' := Live(w', key);
       && At(w', key, o') && o.rv <= o'.rv && o' == o.(finalizers := o'.finalizers, rv := o'.rv, status := o'.status)
       && K in o'.finalizers && D in o'.finalizers && o'.finalizers == Enlisted(o.finalizers)
       && (if D in o.finalizers || o.status.conditions != [] then Succeeded(o'.status) else Begun(o'.status))
       && (Succeeded(o.status) && K in o.finalizers && D in o.finalizers ==>
             w'.versions == w.versions && w'.live == w.live)
  }

  /** From the stages to the end of the pass. */
  lemma PassEnds(w: World, key: Key, o: Serving, pass: Pass)
    requires At(w, key, o) && !o.deleting
    requires Staged(o, pass) && Advanced(w, key, o, {K, D}, Enlisted(o.finalizers), pass.w)
    ensures Ended(w, key, o, SyncStatus(pass, o).w)
  {
    hide SyncStatus, SameStatus, WellFormed, IsFalse, Settled, Elements, Enlisted;
    var o1 := Live(pass.w, key);
    SyncStatusAt(pass, o, o1);
    InElements(K, o1.finalizers);
    InElements(D, o1.finalizers);
    InElements(K, o.finalizers);
    InElements(D, o.finalizers);
    EmptyIsNotSame(o.status, pass.obj.status);
    if o.status.conditions == [] {
      NothingYet(o.status);
    }
    if D in o.finalizers || o.status.conditions != [] {
      if SameStatus(o.status, pass.obj.status) {
        SucceededUpToTime(o.status, pass.obj.status);
      }
    }
  }

  lemma EmptyIsNotSame(a: Status, b: Status)
    ensures SameStatus(a, b) && a.conditions == [] ==> b.conditions == []
  {}

  lemma ReconcileUnfolds(w0: World, key: Key, o: Serving)
    requires At(w0, key, o) && Synced(w0, key) && !o.deleting
    ensures var w := TakeTurn(w0);
            && At(w, key, o) && Undisturbed(w0, w)
            && (ReconcileLive(w, o).out != Panicking ==> Reconcile(w0, key) == SyncStatus(ReconcileLive(w, o), o))
  {
    hide TakeTurn, ReconcileLive, SyncStatus;
    TurnUndisturbed(w0);
    UndisturbedAt(w0, TakeTurn(w0), key, o);
  }

  lemma SyncedPassEnds(w: World, key: Key)
    requires Converging(w, key)
    ensures var w0 := Refreshed(w, key);
            && w0 == w.(cache := w0.cache) && key in w0.cache && w0.cache[key].at == w.live[key]
            && Ended(w0, key, Live(w, key), SyncedPass(w, key))
  {
    hide ReconcileLive, SyncStatus, Render, WellFormed, IsFalse, Advanced, EditStep, Reconcile, Succeeded, Begun,
         TakeTurn, Enlisted;
    var o := Live(w, key);
    RefreshedAt(w, key, o);
    var w0 := Refreshed(w, key);
    ReconcileUnfolds(w0, key, o);
    var w1 := TakeTurn(w0);
    LivePassAt(w1, key, o);
    PassEnds(w1, key, o, ReconcileLive(w1, o));
  }

  lemma SucceededConverges(w: World, key: Key)
    requires Stored(w, key) && K in Live(w, key).finalizers && D in Live(w, key).finalizers
    ensures Succeeded(Live(w, key).status) ==> Converged(w, key) && Live(w, key).status.conditions != []
    ensures Begun(Live(w, key).status) ==> !Converged(w, key)
    ensures Succeeded(Live(w, key).status) || Begun(Live(w, key).status) ==>
              var cs := Live(w, key).status.conditions; WellFormed(cs) && !IsFalse(cs, DependenciesInstalled)
  {}

  /** One pass converges exactly unless it has to attach D to an object without
      conditions; then the next one does. A converged object is not written. */
  lemma OnePass(w: World, key: Key)
    requires Converging(w, key)
    ensures var o, w' := Live(w, key), SyncedPass(w, key);
            && Converging(w', key)
            && (Converged(w', key) <==> D in o.finalizers || o.status.conditions != [])
            && D in Live(w', key).finalizers
            && (Converged(w, key) ==> w'.versions == w.versions && w'.live == w.live)
  {
    hide SyncedPass, Refreshed, Render, WellFormed, IsFalse, Settled, Succeeded, Begun, Enlisted;
    var o, w' := Live(w, key), SyncedPass(w, key);
    SyncedPassEnds(w, key);
    SucceededConverges(w', key);
    SameRender(w.config, o, Live(w', key));
    if Converged(w, key) {
      ConvergedSucceeded(w, key);
    }
  }

  /** Where the finalizers end up in the list: whatever was there stays in front, in
      its order, unless K alone was there already: then what comes before D is in
      ascending order. */
  lemma AttachedInOrder(w: World, key: Key, sorted: seq<string>)
    requires Converging(w, key)
    requires Ascending(sorted) && Elements(sorted) == Elements(Live(w, key).finalizers)
    ensures Stored(SyncedPass(w, key), key)
    ensures var before, after := Live(w, key).finalizers, Live(SyncedPass(w, key), key).finalizers;
            && (K in before && D in before ==> after == before)
            && (K in before && D !in before ==> after == sorted + [D])
            && (K !in before && D in before ==> after == before + [K])
            && (K !in before && D !in before ==> after == before + [K, D])
  {
    hide SyncedPass, Refreshed, Render, WellFormed, IsFalse, Settled, Succeeded, Begun, Ascending, SortedList;
    SyncedPassEnds(w, key);
    SortedAscends(Elements(sorted));
    AscendingIsUnique(sorted, SortedList(Elements(sorted)));
  }

  lemma ConvergedSucceeded(w: World, key: Key)
    requires Converged(w, key) && WellFormed(Live(w, key).status.conditions)
    ensures Succeeded(Live(w, key).status)
  {}

  /** Both finalizers stored, the version set and everything True, including
      Ready, after at most two passes; every later pass leaves all versions of
      all objects as they are. */
  lemma {:induction false} ConvergesInTwoPasses(w: World, key: Key, n: nat)
    requires Converging(w, key) && n >= 2
    ensures Converging(SyncedPasses(w, key, n), key) && Converged(SyncedPasses(w, key, n), key)
    ensures IsTrue(Live(SyncedPasses(w, key, n), key).status.conditions, Ready)
    ensures SyncedPasses(w, key, n).versions == SyncedPasses(w, key, 2).versions
  {
    hide Converging, SyncedPass, Settled;
    if n == 2 {
      var first := SyncedPass(w, key);
      OnePass(w, key);
      OnePass(first, key);
      assert SyncedPasses(w, key, 0) == w && SyncedPasses(w, key, 1) == first;
      assert SyncedPasses(w, key, 2) == SyncedPass(first, key);
    } else {
      ConvergesInTwoPasses(w, key, n - 1);
      OnePass(SyncedPasses(w, key, n - 1), key);
    }
    ConvergedIsReady(SyncedPasses(w, key, n), key);
  }

  lemma ConvergedIsReady(w: World, key: Key)
    requires Converged(w, key)
    ensures IsTrue(Live(w, key).status.conditions, Ready)
  {}

  /** Every object the operator can meet, in any run, is placed as `Converging`
      asks, and refreshing its cache entry is an edit of the environment. */
  lemma ReachablyPlaced(w: World, key: Key)
    requires Inv(w) && Stored(w, key) && Quiet(w)
    ensures At(w, key, Live(w, key)) && (key in w.cache ==> w.cache[key].at <= w.live[key])
    ensures Inv(Refreshed(w, key)) && Env(w, Refreshed(w, key))
  {
    hide EditStep;
    assert VersionOK(w.versions, w.live[key]);
    if key in w.cache {
      assert EntryOK(w, key);
    }
    EditKeeps(w, Sync(key, w.live[key]));
  }
}
