/** Scripts of the environment written out turn by turn, and what short passes do
    with them: an object is created and gets D, and is deleted. */
module Scripts {
  import opened Conditions
  import opened Lifecycle
  import opened Manifests
  import opened PassOutcomes
  import opened Passes
  import opened Resources
  import opened Text
  import opened World
  import Pipeline

  const LOST_REPLY := QUIET.(fault := LostReply)
  const DROPPED := QUIET.(fault := Dropped)

  function During(edits: seq<Edit>): Turn {
    QUIET.(edits := edits)
  }

  /** An object as its creator sends it. */
  function Fresh(key: Key, n: nat, finalizers: seq<string>): Serving {
    Serving(key, n, n, 1, false, finalizers, map[], EMPTY_SPEC, Status([], ""))
  }

  // ----- one turn

  lemma Turned(w: World, t: Turn, rest: seq<Turn>)
    requires w.turns == [t] + rest
    ensures NextTurn(w) == t && TakeTurn(w) == EditAll(w.(turns := rest, now := t.now), t.edits)
  {}

  lemma QuietlyTurned(w: World, t: Turn, rest: seq<Turn>)
    requires w.turns == [t] + rest && t.edits == []
    ensures NextTurn(w) == t && TakeTurn(w) == w.(turns := rest, now := t.now)
  {}

  lemma ScriptOver(w: World)
    requires w.turns == []
    ensures TakeTurn(w) == w.(now := 0)
  {}

  lemma OneEdit(w: World, a: Edit)
    ensures EditAll(w, [a]) == EditStep(w, a)
  {
    hide EditStep;
    assert [a][1..] == [];
    assert EditAll(EditStep(w, a), []) == EditStep(w, a);
  }

  lemma TwoEdits(w: World, a: Edit, b: Edit)
    ensures EditAll(w, [a, b]) == EditStep(EditStep(w, a), b)
  {
    hide EditStep;
    assert [a, b][1..] == [b] && [b][1..] == [];
    assert EditAll(EditStep(EditStep(w, a), b), []) == EditStep(EditStep(w, a), b);
  }

  // ----- one edit

  /** The world with `obj` stored as the next version of its key. */
  function Replaced(w: World, obj: Serving): World {
    var n := |w.versions|;
    var prev: int := if obj.key in w.live then w.live[obj.key] else -1;
    w.(versions := w.versions + [Version(obj.(rv := n), prev, false)], live := w.live[obj.key := n],
       log := w.log + [Wrote(n, false)])
  }

  lemma Creates(w: World, key: Key, finalizers: seq<string>)
    requires key.name != "" && key !in w.live && D !in finalizers
    ensures EditStep(w, Create(key, map[], finalizers, EMPTY_SPEC)) == Replaced(w, Fresh(key, |w.versions|, finalizers))
  {}

  lemma Modifies(w: World, key: Key, finalizers: seq<string>, spec: KnativeServingSpec)
    requires Stored(w, key) && Live(w, key).key == key && Live(w, key).labels == map[]
    requires D in finalizers <==> D in Live(w, key).finalizers
    requires FinalizersAllowed(Live(w, key), finalizers) && !(Live(w, key).deleting && finalizers == [])
    ensures var o := Live(w, key);
            EditStep(w, Modify(key, map[], finalizers, spec)) ==
            Replaced(w, o.(finalizers := finalizers, spec := spec,
                           generation := if spec == o.spec then o.generation else o.generation + 1))
  {}

  lemma Restatuses(w: World, key: Key, status: Status)
    requires Stored(w, key) && Live(w, key).key == key && !Live(w, key).deleting
    ensures EditStep(w, Restatus(key, status)) == Replaced(w, Live(w, key).(status := status))
  {}

  lemma Deletes(w: World, key: Key)
    requires Stored(w, key) && Live(w, key).key == key && !Live(w, key).deleting && Live(w, key).finalizers != []
    ensures var o := Live(w, key);
            EditStep(w, Delete(key)) == Replaced(w, o.(deleting := true, generation := o.generation + 1))
  {}

  lemma Syncs(w: World, key: Key, n: nat)
    requires n < |w.versions| && w.versions[n].obj.key == key && !w.versions[n].gone
    requires key in w.cache ==> w.cache[key].at <= n
    ensures EditStep(w, Sync(key, n)) == w.(cache := w.cache[key := Entry(n, Some(w.versions[n].obj))])
  {}

  /** Someone creates the object, and the cache hears of it. */
  lemma Created(w: World, key: Key, finalizers: seq<string>)
    requires key.name != "" && key !in w.live && key !in w.cache && D !in finalizers
    ensures var n, o := |w.versions|, Fresh(key, |w.versions|, finalizers);
            EditAll(w, [Create(key, map[], finalizers, EMPTY_SPEC), Sync(key, n)]) ==
            w.(versions := w.versions + [Version(o, -1, false)], live := w.live[key := n],
               cache := w.cache[key := Entry(n, Some(o))], log := w.log + [Wrote(n, false)])
  {
    hide EditStep;
    var n := |w.versions|;
    TwoEdits(w, Create(key, map[], finalizers, EMPTY_SPEC), Sync(key, n));
    Creates(w, key, finalizers);
    Syncs(Replaced(w, Fresh(key, n, finalizers)), key, n);
  }

  // ----- the first pass: D is attached, with as few calls as can be

  /** A spec that asks for no certificates never fails a transform. */
  lemma PlainRenders(config: Manifest, instance: Serving)
    requires instance.spec.controllerCustomCerts == EMPTY_SPEC.controllerCustomCerts
    ensures Render(config, instance).Some?
  {
    hide Pipeline.RunAll, Pipeline.TransformAll;
    Pipeline.TransformedManifest(instance.spec, InjectedAll(instance.key.namespace, config));
  }

  /** The script of such a pass. */
  function Attaching(key: Key, n: nat, rest: seq<Turn>): seq<Turn> {
    [During([Create(key, map[], [K], EMPTY_SPEC), Sync(key, n)])] + ([QUIET] + ([QUIET] + ([LOST_REPLY] + rest)))
  }

  /** The world after it: version `n` as created, and `n + 1` with D, of which
      the cache has not heard. */
  predicate Attached(w: World, key: Key, w': World, rest: seq<Turn>) {
    var n := |w.versions|;
    var o := Fresh(key, n, [K]);
    && |w'.versions| == n + 2 && w'.versions[..n] == w.versions && w'.versions[n] == Version(o, -1, false)
    && w'.versions[n + 1] == Version(o.(rv := n + 1, finalizers := w'.versions[n + 1].obj.finalizers), n, false)
    && Elements(w'.versions[n + 1].obj.finalizers) == {K, D}
    && w' == w.(versions := w'.versions, live := w.live[key := n + 1], cache := w.cache[key := Entry(n, Some(o))],
                servings := w.servings[key := 1], turns := rest, now := 0, log := w'.log)
  }

  lemma Attaches(w: World, key: Key, rest: seq<Turn>)
    requires key.name != "" && key !in w.live && key !in w.cache && key !in w.servings
    requires w.turns == Attaching(key, |w.versions|, rest)
    ensures Reconcile(w, key).out == Failing && Attached(w, key, Happen(w, PassOver(key)), rest)
  {
    hide TakeTurn, EditAll, ReconcileKind, SetFinalizer, Reconcile, Happen, Commit, Attached;
    var n := |w.versions|;
    var o := Fresh(key, n, [K]);
    var t2 := [QUIET] + ([LOST_REPLY] + rest);
    var t1 := [QUIET] + t2;
    Turned(w, During([Create(key, map[], [K], EMPTY_SPEC), Sync(key, n)]), t1);
    Created(w.(turns := t1, now := 0), key, [K]);
    var w1 := TakeTurn(w);
    HasKAlready(w1, o, t2);
    var prepared := SetFinalizer(w1, o);
    AttachedByKind(prepared.w, key, o, prepared.obj, rest);
    var pass := ReconcileKind(prepared.w, prepared.obj);
    LivePassEnds(w, key, o, pass);
    AttachedByCommit(w, key, pass.w, pass.obj.finalizers, rest);
  }

  /** A live pass that leaves the status alone. */
  lemma LivePassEnds(w: World, key: Key, o: Serving, pass: Pass)
    requires Listed(TakeTurn(w), key) == Some(o) && !o.deleting
    requires ReconcileLive(TakeTurn(w), o) == pass && pass.out != Panicking && pass.obj.status == o.status
    ensures Reconcile(w, key) == pass && Happen(w, PassOver(key)) == pass.w
  {
    hide TakeTurn, ReconcileLive, ReconcileDeleting, UpdateStatusFrom, Restart;
    assert SameStatus(o.status, pass.obj.status);
  }

  lemma AttachedByCommit(w: World, key: Key, w': World, finalizers: seq<string>, rest: seq<Turn>)
    requires key !in w.live && key !in w.cache && Elements(finalizers) == {K, D}
    requires var n := |w.versions|;
             var o := Fresh(key, n, [K]);
             w' == Commit(w.(versions := w.versions + [Version(o, -1, false)], live := w.live[key := n],
                             cache := w.cache[key := Entry(n, Some(o))], servings := w.servings[key := 1],
                             turns := rest, now := 0, log := w.log + [Wrote(n, false)] + [Reported(key, Creation)]),
                          o.(finalizers := finalizers), true)
    ensures Attached(w, key, w', rest)
  {}

  /** K is there already, so nothing is sent. */
  lemma HasKAlready(w1: World, o: Serving, rest: seq<Turn>)
    requires w1.turns == [QUIET] + rest && Listed(w1, o.key) == Some(o) && o.finalizers == [K]
    ensures var p := SetFinalizer(w1, o);
            && p.w == w1.(turns := rest, now := 0) && p.out == Fine
            && p.obj == o.(finalizers := p.obj.finalizers) && Elements(p.obj.finalizers) == {K}
  {
    hide TakeTurn;
    QuietlyTurned(w1, QUIET, rest);
    assert K in Elements(SortedList(Elements(o.finalizers) + {K}));
  }

  lemma AttachedByKind(w2: World, key: Key, o: Serving, instance: Serving, rest: seq<Turn>)
    requires w2.turns == [QUIET] + ([LOST_REPLY] + rest) && key.name != "" && key !in w2.servings
    requires o.key == key && 0 <= o.rv && !o.deleting && o.spec == EMPTY_SPEC && o.generation == 1
    requires instance == o.(finalizers := instance.finalizers) && Elements(instance.finalizers) == {K}
    requires Stored(w2, key) && w2.live[key] == o.rv && Live(w2, key) == o
    ensures var marked := instance.(finalizers := instance.finalizers + [D]);
            ReconcileKind(w2, instance) ==
            Pass(Commit(w2.(turns := rest, now := 0, servings := w2.servings[key := 1],
                            log := w2.log + [Reported(key, Creation)]), marked, true), marked, Failing)
    ensures Elements(instance.finalizers + [D]) == {K, D}
  {
    hide TakeTurn, Render, RunStages, Commit, EnsureFinalizer;
    var counted := Report(w2, key, Some(Creation)).(servings := w2.servings[key := 1]);
    QuietlyTurned(counted, QUIET, [LOST_REPLY] + rest);
    var w3 := TakeTurn(counted);
    PlainRenders(w3.config, instance);
    StagesUnfold(w3, Render(w3.config, instance).value, instance);
    AttachedByUpdate(w3, key, o.rv, o, instance, rest);
  }

  lemma AttachedByUpdate(w3: World, key: Key, n: nat, o: Serving, instance: Serving, rest: seq<Turn>)
    requires w3.turns == [LOST_REPLY] + rest && key.name != "" && o.key == key && o.rv == n && !o.deleting
    requires instance == o.(finalizers := instance.finalizers) && Elements(instance.finalizers) == {K}
    requires Stored(w3, key) && w3.live[key] == n && Live(w3, key) == o
    ensures var marked := instance.(finalizers := instance.finalizers + [D]);
            EnsureFinalizer(w3, instance) ==
            Pass(Commit(w3.(turns := rest, now := 0), marked, true), marked, Failing)
    ensures Elements(instance.finalizers + [D]) == {K, D}
  {
    hide TakeTurn;
    QuietlyTurned(w3, LOST_REPLY, rest);
    assert D[0] != K[0];
    assert D !in Elements(instance.finalizers);
  }

  lemma AttachedIsPlain(w: World, key: Key, w': World, rest: seq<Turn>)
    requires Attached(w, key, w', rest)
    ensures PlainWithD(w', key) && Live(w', key).rv == |w.versions| + 1 && Live(w', key).status == Status([], "")
    ensures |w'.versions| == |w.versions| + 2 && w'.live[key] == |w.versions| + 1 && w'.turns == rest
    ensures w'.cluster == w.cluster
    ensures w'.servings == w.servings[key := 1] && w'.config == w.config && w'.live == w.live[key := |w.versions| + 1]
  {
    assert D in Elements(w'.versions[|w.versions| + 1].obj.finalizers);
  }

  // ----- then it is deleted, its finalizers reordered

  lemma ThreeEdits(w: World, a: Edit, b: Edit, c: Edit)
    ensures EditAll(w, [a, b, c]) == EditStep(EditStep(EditStep(w, a), b), c)
  {
    hide EditStep;
    assert [a, b, c][1..] == [b, c];
    TwoEdits(EditStep(w, a), b, c);
  }

  function Condemning(key: Key, finalizers: seq<string>, m: nat): seq<Edit> {
    [Modify(key, map[], finalizers, EMPTY_SPEC), Delete(key), Sync(key, m + 1)]
  }

  /** `o` with these finalizers, being deleted, as version `m + 1`. */
  function Condemned(o: Serving, finalizers: seq<string>, m: nat): Serving {
    o.(finalizers := finalizers, deleting := true, generation := o.generation + 1, rv := m + 1)
  }

  /** A plain object with D is stored; the cache may be behind. */
  predicate PlainWithD(w: World, key: Key) {
    && Stored(w, key) && key in w.cache && w.cache[key].at <= |w.versions|
    && var o := Live(w, key);
       o.key == key && !o.deleting && D in o.finalizers && o.labels == map[] && o.spec == EMPTY_SPEC
  }

  lemma Condemns(w: World, key: Key, finalizers: seq<string>)
    requires PlainWithD(w, key) && D in finalizers
    ensures var m := |w.versions|;
            var o := Condemned(Live(w, key), finalizers, m);
            var w' := EditAll(w, Condemning(key, finalizers, m));
            && w' == w.(versions := w'.versions, live := w.live[key := m + 1],
                        cache := w.cache[key := Entry(m + 1, Some(o))], log := w'.log)
            && |w'.versions| == m + 2 && w'.versions[..m] == w.versions && w'.versions[m + 1] == Version(o, m, false)
  {
    hide EditStep, Replaced, Elements;
    var m, o := |w.versions|, Live(w, key);
    ThreeEdits(w, Modify(key, map[], finalizers, EMPTY_SPEC), Delete(key), Sync(key, m + 1));
    assert FinalizersAllowed(o, finalizers);
    Modifies(w, key, finalizers, EMPTY_SPEC);
    var w2 := ReplacedTwice(w, key, o.(finalizers := finalizers));
    Deletes(Replaced(w, o.(finalizers := finalizers)), key);
    Syncs(w2, key, m + 1);
  }

  /** Stored as it is given, then as being deleted. */
  lemma ReplacedTwice(w: World, key: Key, o: Serving) returns (w2: World)
    requires o.key == key && o.finalizers != []
    ensures var w1, m := Replaced(w, o), |w.versions|;
            var gone := o.(deleting := true, generation := o.generation + 1);
            && Stored(w1, key) && Live(w1, key) == o.(rv := m)
            && w2 == Replaced(w1, gone.(rv := m))
            && w2 == w.(versions := w2.versions, live := w.live[key := m + 1], log := w2.log)
            && |w2.versions| == m + 2 && w2.versions[..m] == w.versions
            && w2.versions[m + 1] == Version(gone.(rv := m + 1), m, false)
  {
    var m := |w.versions|;
    w2 := Replaced(Replaced(w, o), o.(deleting := true, generation := o.generation + 1, rv := m));
  }

  /** A pass over an object being deleted that leaves the status alone. */
  lemma DeletingPassEnds(w: World, key: Key, o: Serving, pass: Pass)
    requires Listed(TakeTurn(w), key) == Some(o) && o.deleting
    requires ReconcileDeleting(TakeTurn(w), o) == pass && pass.out != Panicking && pass.obj.status == o.status
    ensures Reconcile(w, key) == pass && Happen(w, PassOver(key)) == pass.w
  {
    hide TakeTurn, ReconcileLive, ReconcileDeleting, UpdateStatusFrom, Restart;
    assert SameStatus(o.status, pass.obj.status);
  }

  lemma NothingToDelete(w: World)
    ensures DeletePhases(w, TeardownPhases([])) == Phase(w, true)
  {
    var phases: seq<seq<Resource>> := [[], [], []];
    assert TeardownPhases([]) == phases;
    assert phases[1..] == [[], []] && phases[1..][1..] == [[]] && phases[1..][1..][1..] == [];
    assert DeletePhases(w, phases[1..][1..]) == Phase(w, true);
    assert DeletePhases(w, phases[1..]) == Phase(w, true);
  }

  lemma ElapseIsTurn(w: World)
    ensures Happen(w, Elapse) == TakeTurn(w)
  {}

  lemma RunsOfTwo(w: World, a: Event, b: Event)
    ensures Run(w, [a, b]) == Happen(Happen(w, a), b)
  {
    hide Happen;
    assert [a, b][1..] == [b] && [b][1..] == [];
    assert Run(Happen(Happen(w, a), b), []) == Happen(Happen(w, a), b);
  }

  lemma RunsOfThree(w: World, a: Event, b: Event, c: Event)
    ensures Run(w, [a, b, c]) == Happen(Happen(Happen(w, a), b), c)
  {
    hide Happen;
    assert [a, b, c][1..] == [b, c] && [b, c][1..] == [c] && [c][1..] == [];
    assert Run(Happen(Happen(w, a), b), [c]) == Happen(Happen(Happen(w, a), b), c) by {
      assert Run(Happen(Happen(Happen(w, a), b), c), []) == Happen(Happen(Happen(w, a), b), c);
    }
    assert Run(Happen(w, a), [b, c]) == Run(Happen(Happen(w, a), b), [c]);
  }

  lemma RunsOf(w: World, e: Event)
    ensures Run(w, [e, e]) == Happen(Happen(w, e), e)
    ensures Run(w, [e, e, e]) == Happen(Happen(Happen(w, e), e), e)
  {
    hide Happen;
    assert [e, e][1..] == [e] && [e, e, e][1..] == [e, e] && [e][1..] == [];
    forall v: World ensures Run(v, [e]) == Happen(v, e) && Run(v, [e, e]) == Happen(Happen(v, e), e) {
      assert Run(Happen(v, e), []) == Happen(v, e);
      assert Run(Happen(Happen(v, e), e), []) == Happen(Happen(v, e), e);
    }
  }

  /** `o` is stored and cached as version `n`. */
  predicate StoredAs(w: World, key: Key, o: Serving, n: nat) {
    && Stored(w, key) && w.live[key] == n && Live(w, key) == o && o.key == key && o.rv == n && key.name != ""
    && n < |w.versions| && key in w.cache && w.cache[key] == Entry(n, Some(o))
  }
}
