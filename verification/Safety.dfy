/** Safety over every run: D is only lost after a teardown, and a manifest is
    only applied for an object on which D is stored. */
module Safety {
  import opened Calls
  import opened Conditions
  import opened Invariant
  import opened LivePath
  import opened Manifests
  import opened Passes
  import opened Resources
  import opened Text
  import opened World
  import opened Writes

  // ----- what a finalization has deleted so far

  /** Since `b`, every resource of `rs` has been deleted. */
  ghost predicate DeletedSince(log: seq<Action>, b: nat, rs: seq<Resource>) {
    forall r | r in rs :: exists q: nat :: b < q < |log| && log[q] == Removed(r.Id())
  }

  /** A finalization of `key` began at `b` and no other has since. */
  predicate Began(log: seq<Action>, key: Key, others: bool, b: nat) {
    && b < |log| && log[b] == Finalizing(key, others)
    && forall q: nat | b < q < |log| :: !log[q].Finalizing?
  }

  predicate NoneBegins(log: seq<Action>, log': seq<Action>) {
    log <= log' && forall q: nat | |log| <= q < |log'| :: !log'[q].Finalizing?
  }

  lemma BeganStays(log: seq<Action>, log': seq<Action>, key: Key, others: bool, b: nat)
    requires Began(log, key, others, b) && NoneBegins(log, log')
    ensures Began(log', key, others, b)
  {}

  lemma DeletedStays(log: seq<Action>, log': seq<Action>, b: nat, rs: seq<Resource>)
    requires DeletedSince(log, b, rs) && log <= log'
    ensures DeletedSince(log', b, rs)
  {
    forall r | r in rs ensures exists q: nat :: b < q < |log'| && log'[q] == Removed(r.Id()) {
      var q: nat :| b < q < |log| && log[q] == Removed(r.Id());
      assert log'[q] == log[q];
    }
  }

  lemma EnvBeginsNone(a: World, b: World)
    requires Env(a, b)
    ensures NoneBegins(a.log, b.log)
  {}

  lemma DeleteOneLog(w0: World, r: Resource, b: nat)
    requires Inv(w0) && b < |w0.log|
    ensures var p := DeleteOne(w0, r);
            NoneBegins(w0.log, p.w.log) && (p.ok ==> DeletedSince(p.w.log, b, [r]))
  {
    hide Inv, TakeTurn, Env;
    var w := TakeTurn(w0);
    TurnKeeps(w0);
    EnvBeginsNone(w0, w);
    var p := DeleteOne(w0, r);
    if p.ok {
      assert p.w.log[|w.log|] == Removed(r.Id());
    }
  }

  lemma {:induction false} DeletePhaseLog(w: World, rs: seq<Resource>, b: nat)
    requires Inv(w) && b < |w.log|
    ensures var p := DeletePhase(w, rs);
            NoneBegins(w.log, p.w.log) && (p.ok ==> DeletedSince(p.w.log, b, rs))
    decreases |rs|
  {
    hide Inv, DeleteOne, DeletedSince, Calm, NoNewD;
    if rs == [] {
      NoneDeleted(w.log, b);
    } else {
      var first := DeleteOne(w, rs[0]);
      DeleteOneLog(w, rs[0], b);
      DeleteOneKeeps(w, rs[0]);
      if first.ok {
        var p := DeletePhase(first.w, rs[1..]);
        DeletePhaseLog(first.w, rs[1..], b);
        if p.ok {
          DeletedStays(first.w.log, p.w.log, b, [rs[0]]);
          DeletedBoth(p.w.log, b, rs);
        }
      }
    }
  }

  lemma NoneDeleted(log: seq<Action>, b: nat)
    ensures DeletedSince(log, b, [])
  {}

  lemma DeletedBoth(log: seq<Action>, b: nat, rs: seq<Resource>)
    requires rs != [] && DeletedSince(log, b, [rs[0]]) && DeletedSince(log, b, rs[1..])
    ensures DeletedSince(log, b, rs)
  {
    assert rs == [rs[0]] + rs[1..];
    forall r | r in rs ensures exists q: nat :: b < q < |log| && log[q] == Removed(r.Id()) {
      assert r in [rs[0]] || r in rs[1..];
    }
  }

  lemma {:induction false} DeletePhasesKeeps(w: World, phases: seq<seq<Resource>>, b: nat)
    requires Inv(w) && b < |w.log|
    ensures var p := DeletePhases(w, phases);
            && Inv(p.w) && Calm(w, p.w) && NoNewD(w, p.w) && p.w.servings == w.servings
            && NoneBegins(w.log, p.w.log)
            && (p.ok ==> forall rs | rs in phases :: DeletedSince(p.w.log, b, rs))
    decreases |phases|
  {
    hide Inv, Calm, NoNewD, DeletePhase, DeletedSince;
    CalmReflexive(w);
    NoNewDSelf(w);
    if phases != [] {
      var first := DeletePhase(w, phases[0]);
      DeletePhaseKeeps(w, phases[0]);
      DeletePhaseLog(w, phases[0], b);
      if first.ok {
        var p := DeletePhases(first.w, phases[1..]);
        DeletePhasesKeeps(first.w, phases[1..], b);
        CalmTransitive(w, first.w, p.w);
        NoNewDTransitive(w, first.w, p.w);
        if p.ok {
          DeletedStays(first.w.log, p.w.log, b, phases[0]);
          assert phases == [phases[0]] + phases[1..];
        }
      }
    }
  }

  /** A completed teardown, or one that still tracked other keys. */
  lemma TeardownCovers(config: seq<Resource>, log: seq<Action>, key: Key, others: bool, b: nat)
    requires Began(log, key, others, b)
    requires others || forall rs | rs in TeardownPhases(config) :: DeletedSince(log, b, rs)
    ensures TornDown(config, log, key, b, |log|)
  {
    if !others {
      TeardownPhaseMembers(config);
      var phases := TeardownPhases(config);
      assert phases[1] in phases && phases[2] in phases;
      forall r | Covered(config, r) ensures exists q: nat :: b < q < |log| && log[q] == Removed(r.Id()) {
        assert r in phases[1] || r in phases[2];
      }
    }
  }

  lemma TornDownExtends(config: seq<Resource>, log: seq<Action>, log': seq<Action>, key: Key, b: nat)
    requires TornDown(config, log, key, b, |log|) && NoneBegins(log, log')
    ensures TornDown(config, log', key, b, |log'|)
  {
    assert log'[b] == log[b];
    forall r | !log[b].others && Covered(config, r)
      ensures exists q: nat :: b < q < |log'| && log'[q] == Removed(r.Id())
    {
      var q: nat :| b < q < |log| && log[q] == Removed(r.Id());
      assert log'[q] == log[q];
    }
    forall q: nat | b < q < |log'| ensures !log'[q].Finalizing? {
      if q < |log| {
        assert log'[q] == log[q];
      }
    }
  }

  // ----- releasing

  /** Releasing the version the cache shows: allowed once torn down, if D would
      only be taken from an object being deleted. */
  lemma ReleaseKeeps(w: World, key: Key, edited: Serving, b: nat)
    requires Inv(w) && key in w.cache && w.cache[key].obj.Some?
    requires var o := w.cache[key].obj.value;
             edited == o.(finalizers := edited.finalizers) && Elements(edited.finalizers) <= Elements(o.finalizers)
    requires TornDown(w.config, w.log, key, b, |w.log|)
    requires HasD(w.versions[w.cache[key].at]) ==> w.versions[w.cache[key].at].obj.deleting
    ensures var at := w.cache[key].at;
            var w' := w.(cache := w.cache[key := Entry(at, Some(edited))], released := w.released + {at},
                         log := w.log + [Released(key, at)]);
            Inv(w') && Grows(w, w')
  {
    hide VersionsOK, OrderOK, LiveOK, ContinuedOK, SeenOK, ReleasedOK, LogOK, AllWritten, TornDown, Grows;
    var at := w.cache[key].at;
    var w' := w.(cache := w.cache[key := Entry(at, Some(edited))], released := w.released + {at},
                 log := w.log + [Released(key, at)]);
    assert EntryOK(w, key);
    ReleaseVersions(w, w', at);
    ReleaseLog(w, w', key, at, b);
    ReleaseCache(w, w', key, at, edited);
    ReleaseSeen(w, w', at);
  }

  lemma ReleaseVersions(w: World, w': World, at: nat)
    requires Inv(w)
    requires w' == w.(cache := w'.cache, released := w.released + {at}, log := w'.log) && w.log <= w'.log
    ensures VersionsOK(w') && OrderOK(w') && LiveOK(w') && ContinuedOK(w') && AllWritten(w')
  {
    WrittenStays(w.log, w'.log);
    forall n: nat | n < |w'.versions| ensures Continued(w', n) {
      assert Continued(w, n);
    }
  }

  lemma ReleaseLog(w: World, w': World, key: Key, at: nat, b: nat)
    requires Inv(w) && at < |w.versions| && w.versions[at].obj.key == key
    requires TornDown(w.config, w.log, key, b, |w.log|)
    requires w' == w.(cache := w'.cache, released := w.released + {at}, log := w.log + [Released(key, at)])
    requires CacheForward(w, w')
    ensures LogOK(w') && Grows(w, w')
  {
    hide TornDown, OrderOK, LiveOK, ContinuedOK, CacheOK, SeenOK, ReleasedOK, AllWritten;
    forall j: nat | j < |w'.log| ensures ActionOK(w', j) {
      if j < |w.log| {
        ActionStays(w, w', j);
      } else {
        TornDownStays(w.config, w.log, w'.log, key, b, |w.log|);
      }
    }
    assert w'.log[|w.log|] == Released(key, at);
    forall rv | rv in w'.released
      ensures rv < |w'.versions| && Happened(w'.log, Released(w'.versions[rv].obj.key, rv), |w'.log|)
    {
      if rv != at {
        HappenedStays(w.log, w'.log, Released(w.versions[rv].obj.key, rv), |w.log|, |w'.log|);
      }
    }
  }

  lemma ReleaseCache(w: World, w': World, key: Key, at: nat, edited: Serving)
    requires CacheOK(w) && key in w.cache && w.cache[key].obj.Some? && w.cache[key].at == at
    requires w' == w.(cache := w.cache[key := Entry(at, Some(edited))], released := w.released + {at}, log := w'.log)
    requires var o := w.cache[key].obj.value;
             edited == o.(finalizers := edited.finalizers) && Elements(edited.finalizers) <= Elements(o.finalizers)
    ensures CacheOK(w')
  {
    forall k | k in w'.cache ensures EntryOK(w', k) {
      assert EntryOK(w, k);
    }
  }

  lemma ReleaseSeen(w: World, w': World, at: nat)
    requires SeenOK(w) && ReleasedOK(w) && CacheForward(w, w') && CacheForward(w', w) && w'.cache.Keys == w.cache.Keys
    requires w' == w.(cache := w'.cache, released := w.released + {at}, log := w'.log)
    requires ReleaseOK(w, at)
    ensures SeenOK(w') && ReleasedOK(w')
  {
    forall n: nat | n < |w'.versions| && HasD(w'.versions[n])
      ensures Seen(w', w'.versions[n].obj.key, w'.versions[n].obj.uid)
    {
      assert Seen(w, w.versions[n].obj.key, w.versions[n].obj.uid);
    }
    forall rv | rv in w'.released ensures ReleaseOK(w', rv) {
      assert ReleaseOK(w, rv);
    }
  }

  /** A pass began on an object seen being deleted. Whatever the cache shows
      under its key by now, D is on it only if it is being deleted too: D
      reaches no object that the cache had not been told of. */
  lemma StillDeleting(w: World, w1: World, key: Key)
    requires Inv(w) && Inv(w1) && Grows(w, w1) && NoNewD(w, w1)
    requires key in w.cache && w.versions[w.cache[key].at].obj.deleting
    requires key in w1.cache
    ensures w1.cache[key].at < |w1.versions|
    ensures var v := w1.versions[w1.cache[key].at]; HasD(v) ==> v.obj.deleting
  {
    var at, at1 := w.cache[key].at, w1.cache[key].at;
    assert EntryOK(w, key) && EntryOK(w1, key);
    var v := w1.versions[at1];
    assert w1.versions[at] == w.versions[at];
    assert Ordered(w1.versions[at], v);
    if HasD(v) {
      var m: nat :| m < |w.versions| && HasD(w.versions[m]) && w.versions[m].obj.uid == v.obj.uid;
      SameUidSameKey(w, w1, m, at1);
      assert Seen(w, key, v.obj.uid);
    }
  }

  lemma SameUidSameKey(w: World, w1: World, m: nat, n: nat)
    requires VersionsOK(w) && VersionsOK(w1) && w.versions <= w1.versions
    requires m < |w.versions| && n < |w1.versions| && w.versions[m].obj.uid == w1.versions[n].obj.uid
    ensures w.versions[m].obj.key == w1.versions[n].obj.key
  {
    assert VersionOK(w.versions, m) && VersionOK(w1.versions, n);
    assert w1.versions[w.versions[m].obj.uid] == w.versions[w.versions[m].obj.uid];
  }

  lemma TailElements(finalizers: seq<string>)
    requires finalizers != []
    ensures Elements(finalizers[1..]) <= Elements(finalizers)
  {}

  lemma DropFinalizerKeeps(w: World, w0: World, key: Key, b: nat)
    requires Inv(w) && Inv(w0) && Grows(w, w0) && NoNewD(w, w0)
    requires key in w.cache && w.versions[w.cache[key].at].obj.deleting
    requires TornDown(w0.config, w0.log, key, b, |w0.log|)
    ensures Inv(DropFinalizer(w0, key).w) && Grows(w0, DropFinalizer(w0, key).w)
  {
    hide Inv, Env, TakeTurn, NoNewD, TornDown, Update, HasD, Snap, Grows, Legal, MayFollow, Rewrote, Elements;
    var w1 := TakeTurn(w0);
    TurnKeeps(w0);
    EnvIsGrowth(w0, w1);
    EnvBeginsNone(w0, w1);
    GrowsTransitive(w, w0, w1);
    NoNewDTransitive(w, w0, w1);
    var refetched := Listed(w1, key);
    if refetched.Some? && refetched.value.finalizers != [] {
      var edited := refetched.value.(finalizers := refetched.value.finalizers[1..]);
      var at := w1.cache[key].at;
      TailElements(refetched.value.finalizers);
      StillDeleting(w, w1, key);
      TornDownExtends(w0.config, w0.log, w1.log, key, b);
      SameConfig(w0, w1);
      ReleaseKeeps(w1, key, edited, b);
      var released := w1.(cache := w1.cache[key := Entry(at, Some(edited))],
                          released := w1.released + {at}, log := w1.log + [Released(key, at)]);
      ReleasedMayFollow(w1, released, key, edited);
      UpdateKeeps(released, edited);
      CalmIsGrowth(released, Update(released, edited).w);
      GrowsTransitive(w0, w1, released);
      GrowsTransitive(w0, released, Update(released, edited).w);
    }
  }

  lemma SameConfig(a: World, b: World)
    requires Grows(a, b)
    ensures a.config == b.config
  {}

  lemma ReleasedMayFollow(w: World, released: World, key: Key, edited: Serving)
    requires Inv(w) && Listed(w, key).Some?
    requires edited == Listed(w, key).value.(finalizers := edited.finalizers)
    requires Elements(edited.finalizers) <= Elements(Listed(w, key).value.finalizers)
    requires released.versions == w.versions && w.cache[key].at in released.released
    ensures 0 <= edited.rv < |released.versions| && MayFollow(released, edited.rv, edited.finalizers)
    ensures var o := released.versions[edited.rv].obj; edited.labels == o.labels && edited.spec == o.spec
  {
    ListedIsSnap(w, key);
    if D in edited.finalizers {
      assert D in Elements(edited.finalizers) && D in Elements(w.versions[edited.rv].obj.finalizers);
    }
  }

  lemma FinalizeKindKeeps(w: World, original: Serving)
    requires Inv(w)
    requires original.key in w.cache && w.cache[original.key].obj == Some(original) && original.deleting
    ensures Inv(FinalizeKind(w, original).w) && Grows(w, FinalizeKind(w, original).w)
  {
    hide Inv, DeletePhases, DropFinalizer, NoNewD, DeletedSince, Grows, TornDown;
    var servings := w.servings - {original.key};
    var others := servings != map[];
    var b := |w.log|;
    var begun := w.(servings := servings, log := w.log + [Finalizing(original.key, others)]);
    BeginKeeps(w, begun, original);
    CalmIsGrowth(w, begun);
    if HeadIsD(original.finalizers) {
      var deleted := if others then Phase(begun, true) else DeletePhases(begun, TeardownPhases(begun.config));
      CalmReflexive(begun);
      NoNewDSelf(begun);
      if !others {
        DeletePhasesKeeps(begun, TeardownPhases(begun.config), b);
      }
      CalmIsGrowth(begun, deleted.w);
      GrowsTransitive(w, begun, deleted.w);
      if deleted.ok {
        SameConfig(begun, deleted.w);
        BeganStays(begun.log, deleted.w.log, original.key, others, b);
        TeardownCovers(begun.config, deleted.w.log, original.key, others, b);
        DropFinalizerKeeps(begun, deleted.w, original.key, b);
        GrowsTransitive(w, deleted.w, DropFinalizer(deleted.w, original.key).w);
      }
    }
  }

  lemma BeginKeeps(w: World, begun: World, original: Serving)
    requires Inv(w)
    requires original.key in w.cache && w.cache[original.key].obj == Some(original) && original.deleting
    requires begun == w.(servings := begun.servings, log := begun.log)
    requires |begun.log| == |w.log| + 1 && w.log <= begun.log && begun.log[|w.log|].Finalizing?
    ensures Inv(begun) && Calm(w, begun) && begun.versions[begun.cache[original.key].at].obj.deleting
  {
    hide Inv, Grows;
    LogGrows(w, begun);
    NamedEntry(w, original.key);
  }

  lemma NamedEntry(w: World, key: Key)
    requires Inv(w) && key in w.cache
    ensures EntryOK(w, key)
  {}

  lemma ReconcileDeletingKeeps(w: World, original: Serving)
    requires Inv(w)
    requires original.key in w.cache && w.cache[original.key].obj == Some(original) && original.deleting
    ensures Inv(ReconcileDeleting(w, original).w) && Grows(w, ReconcileDeleting(w, original).w)
  {
    hide Inv, FinalizeKind, ClearFinalizer, Grows, UpdateFinalizersFiltered;
    FinalizeKindKeeps(w, original);
    var finalized := FinalizeKind(w, original);
    if finalized.out != Panicking {
      ClearFinalizerKeeps(finalized.w, original, finalized.out);
      GrowsTransitive(w, finalized.w, ReconcileDeleting(w, original).w);
    }
  }

  lemma ClearFinalizerKeeps(w: World, resource: Serving, event: Outcome)
    requires Inv(w)
    ensures Inv(ClearFinalizer(w, resource, event).w) && Grows(w, ClearFinalizer(w, resource, event).w)
  {
    hide Inv, UpdateFinalizersFiltered;
    var finalizers := Elements(resource.finalizers);
    var kept := if event == Fine then finalizers - {K} else finalizers;
    FilteredKeeps(w, resource.(finalizers := SortedList(kept)));
  }

  // ----- passes and runs

  lemma ReconcileKeeps(w0: World, key: Key)
    requires Inv(w0)
    ensures Inv(Reconcile(w0, key).w) && Grows(w0, Reconcile(w0, key).w)
  {
    hide Inv, Env, TakeTurn, ReconcileDeleting, ReconcileLive, SyncStatus, Grows, Snap;
    var w := TakeTurn(w0);
    TurnKeeps(w0);
    EnvIsGrowth(w0, w);
    var listed := Listed(w, key);
    if listed.Some? {
      var original := listed.value;
      ListedIsSnap(w, key);
      NamedKey(w, key);
      if original.deleting {
        ReconcileDeletingKeeps(w, original);
      } else {
        ReconcileLiveSafe(w, original);
        CalmIsGrowth(w, ReconcileLive(w, original).w);
      }
      var pass := if original.deleting then ReconcileDeleting(w, original) else ReconcileLive(w, original);
      GrowsTransitive(w0, w, pass.w);
      if pass.out != Panicking {
        SyncStatusKeeps(pass, original);
        CalmIsGrowth(pass.w, SyncStatus(pass, original).w);
        GrowsTransitive(w0, pass.w, SyncStatus(pass, original).w);
      }
    }
  }

  lemma NamedKey(w: World, key: Key)
    requires Inv(w) && key in w.cache
    ensures key.name != ""
  {
    assert EntryOK(w, key);
    assert VersionOK(w.versions, w.cache[key].at);
  }

  lemma RestartKeeps(w: World)
    requires Inv(w)
    ensures Inv(Restart(w)) && Grows(w, Restart(w))
  {
    var w' := Restart(w);
    forall key | key in w'.cache ensures EntryOK(w', key) {
      assert EntryOK(w, key);
      ToldOK(w, w.cache[key].at);
    }
    CacheMoves(w, w');
  }

  lemma HappenKeeps(w: World, e: Event)
    requires Inv(w)
    ensures Inv(Happen(w, e)) && Grows(w, Happen(w, e))
  {
    hide Inv, Env, TakeTurn, Reconcile, Restart, Grows;
    match e
    case Elapse =>
      TurnKeeps(w);
      EnvIsGrowth(w, TakeTurn(w));
    case PassOver(key) =>
      ReconcileKeeps(w, key);
      RestartKeeps(Reconcile(w, key).w);
      GrowsTransitive(w, Reconcile(w, key).w, Restart(Reconcile(w, key).w));
    case Restarting => RestartKeeps(w);
  }

  lemma {:induction false} RunKeeps(w: World, events: seq<Event>)
    requires Inv(w)
    ensures Inv(Run(w, events)) && Grows(w, Run(w, events))
    decreases |events|
  {
    hide Inv, Happen;
    if events != [] {
      HappenKeeps(w, events[0]);
      RunKeeps(Happen(w, events[0]), events[1..]);
      GrowsTransitive(w, Happen(w, events[0]), Run(w, events));
    }
  }

  lemma InitialOK(w: World)
    requires Initial(w)
    ensures Inv(w)
  {}

  // ----- the theorems

  /** In every run, with a stale cache, conflicts, lost calls, crashes and edits
      that leave D alone: if version `n` takes D from an object (perhaps by being
      its last), then before it was written, the version it replaced had been
      released, by a finalization that still tracked other keys or had deleted
      every resource of the shipped manifest that a teardown may delete. */
  lemma ReleaseOnlyAfterTeardown(w: World, events: seq<Event>, n: nat) returns (b: nat, i: nat, j: nat)
    requires Initial(w)
    requires LosesD(Run(w, events).versions, n)
    ensures var end := Run(w, events);
            var lost := end.versions[n];
            && b < i < j
            && IsWrite(end.log, j, n)
            && end.log[i] == Released(lost.obj.key, lost.prev)
            && TornDown(w.config, end.log, lost.obj.key, b, i)
  {
    hide Run;
    InitialOK(w);
    RunKeeps(w, events);
    var end := Run(w, events);
    assert Written(end.log, n);
    j :| IsWrite(end.log, j, n);
    assert ActionOK(end, j);
    var released := Released(end.versions[n].obj.key, end.versions[n].prev);
    i :| i < j && i < |end.log| && end.log[i] == released;
    assert ActionOK(end, i);
    b :| TornDown(end.config, end.log, end.versions[n].obj.key, b, i);
  }

  /** In every such run: if a write of the operator's own drops a finalizer other
      than K, then the version it replaced had been released before, by such a
      finalization. Nothing else the operator does takes anyone's finalizer. */
  lemma OwnWritesDropOnlyK(w: World, events: seq<Event>, j: nat, x: string) returns (b: nat, i: nat)
    requires Initial(w)
    requires var end := Run(w, events);
             && j < |end.log| && end.log[j].Wrote? && end.log[j].own && end.log[j].rv < |end.versions|
             && var wrote := end.versions[end.log[j].rv];
                && 0 <= wrote.prev < |end.versions|
                && x in end.versions[wrote.prev].obj.finalizers && x !in wrote.obj.finalizers && x != K
    ensures var end := Run(w, events);
            var wrote := end.versions[end.log[j].rv];
            && b < i < j
            && end.log[i] == Released(wrote.obj.key, wrote.prev)
            && TornDown(w.config, end.log, wrote.obj.key, b, i)
  {
    hide Run;
    InitialOK(w);
    RunKeeps(w, events);
    var end := Run(w, events);
    assert ActionOK(end, j);
    var n := end.log[j].rv;
    assert x in Elements(end.versions[end.versions[n].prev].obj.finalizers) - Elements(end.versions[n].obj.finalizers);
    var released := Released(end.versions[n].obj.key, end.versions[n].prev);
    i :| i < j && i < |end.log| && end.log[i] == released;
    assert ActionOK(end, i);
    b :| TornDown(end.config, end.log, end.versions[n].obj.key, b, i);
  }

  /** In every such run, a write of the operator's own replaces a version and leaves
      spec, labels, generation and deletion alone; it changes the finalizers, adding
      none but the operator's two, or the status, never both. */
  lemma OwnWritesChangeOnePart(w: World, events: seq<Event>, j: nat)
    requires Initial(w)
    requires j < |Run(w, events).log| && Run(w, events).log[j].Wrote? && Run(w, events).log[j].own
    ensures var end := Run(w, events);
            && end.log[j].rv < |end.versions| && 0 <= end.versions[end.log[j].rv].prev < end.log[j].rv
            && var b, a := end.versions[end.log[j].rv].obj, end.versions[end.versions[end.log[j].rv].prev].obj;
               && b.key == a.key && b.uid == a.uid && b.generation == a.generation && b.deleting == a.deleting
               && b.labels == a.labels && b.spec == a.spec
               && (b.finalizers == a.finalizers || b.status == a.status)
               && forall x | x in b.finalizers && x !in a.finalizers ::
                    x == "knativeservings.operator.knative.dev" || x == "delete-knative-serving-manifest"
  {
    hide Run;
    InitialOK(w);
    RunKeeps(w, events);
    var end := Run(w, events);
    assert ActionOK(end, j) && VersionOK(end.versions, end.log[j].rv);
    var n := end.log[j].rv;
    var a, b := end.versions[end.versions[n].prev].obj, end.versions[n].obj;
    forall x | x in b.finalizers && x !in a.finalizers ensures x == K || x == D {
      assert x in Elements(b.finalizers) - Elements(a.finalizers);
    }
  }

  /** In every run, from one version of an object to the next: its generation counts
      the changes of its spec and its deletion, which is for good, and after which
      no finalizer comes on; with the last one it is gone. */
  lemma VersionHistory(w: World, events: seq<Event>, n: nat)
    requires Initial(w) && n < |Run(w, events).versions|
    ensures var v := Run(w, events).versions[n];
            && v.obj.rv == n && (v.gone <==> v.obj.deleting && v.obj.finalizers == [])
            && if v.prev < 0 then v.obj.generation == 1 && !v.obj.deleting
               else
                 && v.prev < n
                 && var a, b := Run(w, events).versions[v.prev].obj, v.obj;
                    && b.key == a.key && b.uid == a.uid && (a.deleting ==> b.deleting)
                    && b.generation == a.generation + (if b.spec != a.spec || b.deleting != a.deleting then 1 else 0)
                    && (a.deleting ==> forall x | x in b.finalizers :: x in a.finalizers)
  {
    hide Run;
    InitialOK(w);
    RunKeeps(w, events);
    var vs := Run(w, events).versions;
    assert VersionOK(vs, n);
    if vs[n].prev >= 0 && vs[vs[n].prev].obj.deleting {
      forall x | x in vs[n].obj.finalizers ensures x in vs[vs[n].prev].obj.finalizers {
        assert x in Elements(vs[n].obj.finalizers);
      }
    }
  }

  /** In every such run, whenever a manifest resource is applied for an object,
      that very object is stored at that moment, with D on it. */
  lemma FinalizerBeforeInstall(w: World, events: seq<Event>, j: nat)
    requires Initial(w)
    requires j < |Run(w, events).log| && Run(w, events).log[j].Applied?
    ensures var end := Run(w, events);
            var applied := end.log[j];
            && 0 <= applied.live < |end.versions|
            && end.versions[applied.live].obj.uid == applied.uid
            && D in end.versions[applied.live].obj.finalizers
  {
    hide Run;
    InitialOK(w);
    RunKeeps(w, events);
    assert ActionOK(Run(w, events), j);
  }

  /** While the cache shows an object undeleted, D, once stored on it, is on the
      live object. */
  lemma FinalizerWhileUndeleted(w: World, events: seq<Event>, key: Key, n: nat)
    requires Initial(w)
    requires var end := Run(w, events);
             && n < |end.versions| && HasD(end.versions[n])
             && Listed(end, key).Some? && !Listed(end, key).value.deleting
             && Listed(end, key).value.uid == end.versions[n].obj.uid
    ensures var end := Run(w, events);
            Stored(end, key) && Live(end, key).uid == end.versions[n].obj.uid && D in Live(end, key).finalizers
  {
    hide Run;
    InitialOK(w);
    RunKeeps(w, events);
    var end := Run(w, events);
    assert EntryOK(end, key);
    UndeletedIsUnreleased(end, key);
    assert VersionOK(end.versions, n) && VersionOK(end.versions, end.cache[key].at);
    DStays(end, n);
  }
}
