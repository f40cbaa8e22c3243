/** Writes, edits and turns of the environment keep the invariant. */
module Writes {
  import opened Invariant
  import opened Lifecycle
  import opened Resources
  import opened World

  /** A write that starts an object, or continues one without dropping D from a
      version that was never released or adding it to an object never seen. */
  predicate Legal(w: World, obj: Serving) {
    if obj.key in w.live then
      var at := w.live[obj.key];
      && at < |w.versions|
      && var current := w.versions[at].obj;
         && Succeeds(current, obj)
         && (D in current.finalizers && D !in obj.finalizers ==> at in w.released)
         && (D in obj.finalizers && D !in current.finalizers ==> Seen(w, obj.key, obj.uid))
    else
      obj.uid == |w.versions| && obj.key.name != "" && D !in obj.finalizers && obj.generation == 1 && !obj.deleting
  }

  /** A write of the operator's replaces an object, its finalizers or its status
      only; it adds no finalizer but K and D, and drops none but K, unless from a
      version that was released. */
  predicate Careful(w: World, obj: Serving) {
    && obj.key in w.live && w.live[obj.key] < |w.versions|
    && var current := w.versions[w.live[obj.key]].obj;
       && (obj == current.(finalizers := obj.finalizers) || obj == current.(status := obj.status))
       && AddsOwn(current.finalizers, obj.finalizers)
       && (KeepsOthers(current.finalizers, obj.finalizers) || w.live[obj.key] in w.released)
  }

  lemma CommitVersions(w: World, obj: Serving, own: bool)
    requires Inv(w) && Legal(w, obj)
    ensures VersionsOK(Commit(w, obj, own)) && OrderOK(Commit(w, obj, own))
  {
    hide ContinuedOK, CacheOK, SeenOK, ReleasedOK, LogOK, AllWritten;
    var w' := Commit(w, obj, own);
    var n := |w.versions|;
    forall m: nat | m < n ensures VersionOK(w'.versions, m) {
      assert VersionOK(w.versions, m);
    }
    if obj.key in w.live {
      assert VersionOK(w.versions, w.live[obj.key]);
    }
    assert VersionOK(w'.versions, n);
    forall a: nat, b: nat | a <= b < |w'.versions| ensures Ordered(w'.versions[a], w'.versions[b]) {
      if b < n {
        assert Ordered(w.versions[a], w.versions[b]);
      } else if a < n && w.versions[a].obj.key == obj.key {
        assert VersionOK(w.versions, a);
        if obj.key in w.live {
          assert Ordered(w.versions[a], w.versions[w.live[obj.key]]);
        }
      }
    }
  }

  lemma CommitLive(w: World, obj: Serving, own: bool)
    requires Inv(w) && Legal(w, obj)
    ensures LiveOK(Commit(w, obj, own)) && ContinuedOK(Commit(w, obj, own))
  {
    hide OrderOK, CacheOK, SeenOK, ReleasedOK, LogOK, AllWritten;
    var w' := Commit(w, obj, own);
    var n := |w.versions|;
    forall m: nat | m < |w'.versions| ensures Continued(w', m) {
      if m < n {
        assert Continued(w, m);
        if !w.versions[m].gone {
          if obj.key in w.live && w.live[obj.key] == m {
            assert Replaces(w'.versions, n, m);
          } else if !(w.versions[m].obj.key in w.live && w.live[w.versions[m].obj.key] == m) {
            var s: nat :| Replaces(w.versions, s, m);
            assert Replaces(w'.versions, s, m);
          } else {
            assert w.versions[m].obj.key != obj.key;
          }
        }
      }
    }
  }

  lemma CommitCache(w: World, obj: Serving, own: bool)
    requires Inv(w) && Legal(w, obj)
    ensures CacheOK(Commit(w, obj, own)) && SeenOK(Commit(w, obj, own)) && ReleasedOK(Commit(w, obj, own))
  {
    hide OrderOK, ContinuedOK, LogOK, AllWritten;
    var w' := Commit(w, obj, own);
    var n := |w.versions|;
    forall key | key in w'.cache ensures EntryOK(w', key) {
      assert EntryOK(w, key);
    }
    forall m: nat | m < |w'.versions| && HasD(w'.versions[m])
      ensures Seen(w', w'.versions[m].obj.key, w'.versions[m].obj.uid)
    {
      if m < n {
        assert Seen(w, w.versions[m].obj.key, w.versions[m].obj.uid);
      } else if HasD(w.versions[w.live[obj.key]]) {
        assert Seen(w, obj.key, obj.uid);
      }
    }
    forall rv | rv in w'.released ensures ReleaseOK(w', rv) {
      assert ReleaseOK(w, rv);
    }
  }

  lemma ActionStays(w: World, w': World, j: nat)
    requires j < |w.log| && ActionOK(w, j) && Grows(w, w')
    requires VersionsOK(w)
    ensures ActionOK(w', j)
  {
    assert w'.log[j] == w.log[j];
    match w.log[j]
    case Wrote(rv, own) =>
      assert VersionOK(w.versions, rv);
      assert LosesD(w'.versions, rv) <==> LosesD(w.versions, rv);
      assert DropsOthers(w'.versions, rv) <==> DropsOthers(w.versions, rv);
    case Released(key, rv) =>
      var b: nat :| TornDown(w.config, w.log, key, b, j);
      TornDownStays(w.config, w.log, w'.log, key, b, j);
    case _ =>
  }

  lemma TornDownStays(config: seq<Resource>, log: seq<Action>, log': seq<Action>, key: Key, b: nat, i: nat)
    requires log <= log' && TornDown(config, log, key, b, i)
    ensures TornDown(config, log', key, b, i)
  {
    assert log'[b] == log[b];
    forall r | !log[b].others && Covered(config, r) ensures exists q: nat :: b < q < i && log'[q] == Removed(r.Id()) {
      var q: nat :| b < q < i && log[q] == Removed(r.Id());
      assert log'[q] == log[q];
    }
    forall q: nat | b < q < i ensures !log'[q].Finalizing? {
      assert log'[q] == log[q];
    }
  }

  lemma HappenedStays(log: seq<Action>, log': seq<Action>, a: Action, i: nat, j: nat)
    requires log <= log' && Happened(log, a, i) && i <= j
    ensures Happened(log', a, j)
  {
    var k: nat :| k < i && k < |log| && log[k] == a;
    assert log'[k] == a;
  }

  lemma CommitLog(w: World, obj: Serving, own: bool)
    requires Inv(w) && Legal(w, obj) && (own ==> Careful(w, obj))
    ensures LogOK(Commit(w, obj, own)) && Grows(w, Commit(w, obj, own))
  {
    hide OrderOK, ContinuedOK, CacheOK, SeenOK, ReleasedOK, AllWritten, KeepsOthers;
    var w' := Commit(w, obj, own);
    var n := |w.versions|;
    forall j: nat | j < |w'.log| ensures ActionOK(w', j) {
      if j < |w.log| {
        ActionStays(w, w', j);
      } else if LosesD(w'.versions, n) || (own && DropsOthers(w'.versions, n)) {
        var at := w.live[obj.key];
        assert w'.versions[at] == w.versions[at];
        HappenedStays(w.log, w'.log, Released(obj.key, at), |w.log|, |w.log|);
      }
    }
    forall rv | rv in w'.released
      ensures rv < |w'.versions| && Happened(w'.log, Released(w'.versions[rv].obj.key, rv), |w'.log|)
    {
      HappenedStays(w.log, w'.log, Released(w.versions[rv].obj.key, rv), |w.log|, |w'.log|);
    }
  }

  lemma CommitWritten(w: World, obj: Serving, own: bool)
    requires Inv(w) && Legal(w, obj)
    ensures AllWritten(Commit(w, obj, own))
  {
    hide OrderOK, ContinuedOK, CacheOK, SeenOK, ReleasedOK, LogOK;
    var w' := Commit(w, obj, own);
    var n := |w.versions|;
    WrittenStays(w.log, w'.log);
    assert IsWrite(w'.log, |w.log|, n);
    forall m: nat | m < |w'.versions|
      ensures LosesD(w'.versions, m) ==> w'.versions[m].prev in w'.released
      ensures Written(w'.log, m)
    {
      if m < n {
        assert VersionOK(w.versions, m);
        assert LosesD(w'.versions, m) <==> LosesD(w.versions, m);
      }
    }
  }

  lemma CommitKeeps(w: World, obj: Serving, own: bool)
    requires Inv(w) && Legal(w, obj) && (own ==> Careful(w, obj))
    ensures Inv(Commit(w, obj, own)) && Grows(w, Commit(w, obj, own))
  {
    hide Inv, Grows;
    CommitVersions(w, obj, own);
    CommitLive(w, obj, own);
    CommitCache(w, obj, own);
    CommitLog(w, obj, own);
    CommitWritten(w, obj, own);
    Together(Commit(w, obj, own));
  }

  lemma Together(w: World)
    requires VersionsOK(w) && OrderOK(w) && LiveOK(w) && ContinuedOK(w)
    requires CacheOK(w) && SeenOK(w) && ReleasedOK(w) && LogOK(w) && AllWritten(w)
    ensures Inv(w)
  {}

  /** A write that continues an object with its finalizers' D as it was brings D
      to no other object. */
  lemma CommitNoNewD(w: World, obj: Serving, own: bool)
    requires Inv(w) && Legal(w, obj)
    requires D in obj.finalizers ==> obj.key in w.live && D in w.versions[w.live[obj.key]].obj.finalizers
    ensures NoNewD(w, Commit(w, obj, own))
  {
    var w' := Commit(w, obj, own);
    forall n: nat | n < |w'.versions| && HasD(w'.versions[n])
      ensures exists m: nat ::
                m < |w.versions| && HasD(w.versions[m]) && w.versions[m].obj.uid == w'.versions[n].obj.uid
    {
      if n < |w.versions| {
        assert HasD(w.versions[n]);
      } else {
        assert HasD(w.versions[w.live[obj.key]]);
      }
    }
  }

  // ----- the environment

  /** Same history, whatever the cache, the script or the servings are. */
  predicate SameHistory(w: World, w': World) {
    && w'.config == w.config && w'.versions == w.versions && w'.live == w.live
    && w'.released == w.released && w'.log == w.log
  }

  lemma HistoryStays(w: World, w': World)
    requires Inv(w) && SameHistory(w, w') && CacheForward(w, w')
    ensures VersionsOK(w') && OrderOK(w') && LiveOK(w') && ContinuedOK(w') && LogOK(w') && AllWritten(w')
    ensures Grows(w, w') && NoNewD(w, w')
  {
    forall n: nat | n < |w'.versions| ensures Continued(w', n) {
      assert Continued(w, n);
    }
    forall j: nat | j < |w'.log| ensures ActionOK(w', j) {
      ActionStays(w, w', j);
    }
  }

  lemma SeenStays(w: World, w': World)
    requires Inv(w) && SameHistory(w, w') && CacheForward(w, w') && CacheOK(w')
    ensures SeenOK(w') && ReleasedOK(w')
  {
    forall n: nat | n < |w'.versions| && HasD(w'.versions[n])
      ensures Seen(w', w'.versions[n].obj.key, w'.versions[n].obj.uid)
    {
      var key := w.versions[n].obj.key;
      assert Seen(w, key, w.versions[n].obj.uid);
      assert EntryOK(w, key) && EntryOK(w', key);
      assert Ordered(w.versions[w.cache[key].at], w.versions[w'.cache[key].at]);
    }
    forall rv | rv in w'.released ensures ReleaseOK(w', rv) {
      assert ReleaseOK(w, rv);
    }
  }

  /** The cache may move forward to entries that are genuine. */
  lemma CacheMoves(w: World, w': World)
    requires Inv(w) && SameHistory(w, w') && CacheForward(w, w') && CacheOK(w')
    ensures Inv(w') && Grows(w, w') && NoNewD(w, w')
  {
    HistoryStays(w, w');
    SeenStays(w, w');
  }

  lemma ToldOK(w: World, rv: nat)
    requires VersionsOK(w) && rv < |w.versions|
    ensures var e := Told(w, rv);
            e.obj.Some? ==> e.obj.value.rv == rv && Snap(w.versions, w.released, e.obj.value)
  {
    assert VersionOK(w.versions, rv);
  }

  lemma NoNewDSelf(w: World)
    ensures NoNewD(w, w)
  {}

  lemma SyncKeeps(w: World, key: Key, rv: nat)
    requires Inv(w)
    ensures Inv(EditStep(w, Sync(key, rv))) && Env(w, EditStep(w, Sync(key, rv)))
  {
    hide OrderOK, LiveOK, ContinuedOK, SeenOK, ReleasedOK, LogOK, AllWritten, NoNewD;
    NoNewDSelf(w);
    var w' := EditStep(w, Sync(key, rv));
    if w' != w {
      ToldOK(w, rv);
      forall k | k in w'.cache ensures EntryOK(w', k) {
        if k != key {
          assert EntryOK(w, k);
        }
      }
      CacheMoves(w, w');
    }
  }

  lemma EnvCommit(w: World, obj: Serving)
    requires Inv(w) && Legal(w, obj)
    requires D in obj.finalizers ==> obj.key in w.live && D in w.versions[w.live[obj.key]].obj.finalizers
    ensures Inv(Commit(w, obj, false)) && Env(w, Commit(w, obj, false))
  {
    CommitKeeps(w, obj, false);
    CommitNoNewD(w, obj, false);
    hide Inv;
  }

  lemma LiveKey(w: World, key: Key)
    requires Inv(w) && Stored(w, key)
    ensures Live(w, key).key == key && Legal(w, Live(w, key))
  {
    assert w.versions[w.live[key]].obj.key == key;
  }

  /** An edit the environment may make keeps the invariant. */
  lemma EditKeeps(w: World, e: Edit)
    requires Inv(w)
    ensures Inv(EditStep(w, e)) && Env(w, EditStep(w, e))
  {
    hide Inv, Commit, Env;
    EnvReflexive(w);
    match e
    case Create(key, labels, finalizers, spec) =>
      if LeavesAlone(w, e) && key.name != "" && key !in w.live {
        EnvCommit(w, Serving(key, |w.versions|, -1, 1, false, finalizers, labels, spec, Status([], "")));
      }
    case Modify(key, labels, finalizers, spec) =>
      if LeavesAlone(w, e) && Stored(w, key) && FinalizersAllowed(Live(w, key), finalizers) {
        LiveKey(w, key);
        var current := Live(w, key);
        EnvCommit(w, Rewritten(current, current.(labels := labels, finalizers := finalizers, spec := spec)));
      }
    case Restatus(key, status) =>
      if Stored(w, key) {
        LiveKey(w, key);
        EnvCommit(w, Live(w, key).(status := status));
      }
    case Delete(key) =>
      if Stored(w, key) && !Live(w, key).deleting {
        LiveKey(w, key);
        EnvCommit(w, Live(w, key).(deleting := true, generation := Live(w, key).generation + 1));
      }
    case Sync(key, rv) => SyncKeeps(w, key, rv);
  }

  lemma {:induction false} EditAllKeeps(w: World, edits: seq<Edit>)
    requires Inv(w)
    ensures Inv(EditAll(w, edits)) && Env(w, EditAll(w, edits))
    decreases |edits|
  {
    hide Inv, EditStep;
    if edits == [] {
      EnvReflexive(w);
    } else {
      var next := EditStep(w, edits[0]);
      EditKeeps(w, edits[0]);
      EditAllKeeps(next, edits[1..]);
      EnvTransitive(w, next, EditAll(w, edits));
    }
  }

  /** Worlds that differ in the script and the clock only. */
  lemma ScriptIrrelevant(w: World, w': World)
    requires Inv(w) && w' == w.(turns := w'.turns, now := w'.now)
    ensures Inv(w') && Env(w, w')
  {
    forall key | key in w'.cache ensures EntryOK(w', key) {
      assert EntryOK(w, key);
    }
    CacheMoves(w, w');
  }

  lemma TurnKeeps(w: World)
    requires Inv(w)
    ensures Inv(TakeTurn(w)) && Env(w, TakeTurn(w))
  {
    hide Inv;
    var begun := w.(turns := if w.turns == [] then [] else w.turns[1..], now := NextTurn(w).now);
    ScriptIrrelevant(w, begun);
    EditAllKeeps(begun, NextTurn(w).edits);
    EnvTransitive(w, begun, TakeTurn(w));
  }
}
