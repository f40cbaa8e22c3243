/** Inputs on which the operator does not do what is meant, each as a run that
    starts with nothing stored. */
module Inputs {
  import opened Conditions
  import opened Convergence
  import opened Invariant
  import opened Lifecycle
  import opened PassOutcomes
  import opened Passes
  import opened QuietCalls
  import opened Refusals
  import opened Resources
  import opened RoundTrip
  import opened Safety
  import opened Scripts
  import opened StatusLoss
  import opened Text
  import opened Tracking
  import opened World
  import opened ZeroObject

  // ----- a release that is lost, and the patch that clears K

  /** The object `o`, D before K, is stored and cached as version `n`. */
  predicate Cached(w: World, key: Key, o: Serving, n: nat) {
    StoredAs(w, key, o, n) && o.deleting && o.finalizers == [D, K]
  }

  /** The cache's object has lost D, the stored one has not. */
  function Cut(w: World, key: Key, o: Serving, n: nat): World {
    w.(cache := w.cache[key := Entry(n, Some(o.(finalizers := [K])))], released := w.released + {n},
       log := w.log + [Released(key, n)])
  }

  lemma LostRelease(w: World, key: Key, o: Serving, n: nat, rest: seq<Turn>)
    requires Cached(w, key, o, n) && w.turns == [QUIET] + ([DROPPED] + rest)
    ensures DropFinalizer(w, key) ==
            Pass(Cut(w, key, o, n).(turns := rest, now := 0), o.(finalizers := [K]), Failing)
  {
    hide TakeTurn;
    assert [D, K][1..] == [K];
    QuietlyTurned(w, QUIET, [DROPPED] + rest);
    var w1 := TakeTurn(w);
    var released := Cut(w1, key, o, n);
    QuietlyTurned(released, DROPPED, rest);
  }

  /** A finalization, nothing else remembered and nothing to delete, whose release
      is lost. */
  lemma LosesRelease(w: World, key: Key, o: Serving, n: nat)
    requires Cached(w, key, o, n) && w.turns == [QUIET] + ([DROPPED] + [])
    requires w.config == [] && w.servings.Keys <= {key}
    ensures var p := ReconcileDeleting(w, o);
            && p.out == Failing && p.obj.status == o.status
            && p.w == Cut(w, key, o, n).(turns := [], now := 0, servings := map[], log := p.w.log)
  {
    hide TakeTurn, DropFinalizer, DeletePhases, SortedList;
    var begun := w.(servings := w.servings - {key}, log := w.log + [Finalizing(key, false)]);
    assert begun.servings == map[];
    NothingToDelete(begun);
    LostRelease(begun, key, o, n, []);
    var finalized := FinalizeKind(w, o);
    assert finalized == DropFinalizer(begun, key);
    KStays(finalized.w, key, o);
  }

  /** K is on the cache's object, and nothing is to be cleared. */
  lemma KStays(w: World, key: Key, o: Serving)
    requires w.turns == [] && Listed(w, key).Some? && K in Listed(w, key).value.finalizers
    requires o.key == key && K in o.finalizers
    ensures var p := ClearFinalizer(w, o, Failing); p.w == w.(now := 0) && p.obj.status == o.status
  {
    hide SortedList;
    assert TakeTurn(w) == w.(now := 0);
    assert K in Elements(SortedList(Elements(o.finalizers)));
  }

  /** Both gone at one stroke, where what was to go is K. */
  lemma ClearsBoth(w: World, key: Key, o: Serving, n: nat)
    requires Stored(w, key) && w.live[key] == n && Live(w, key) == o && o.key == key && key.name != "" && o.deleting
    requires o.rv == n && key in w.cache && w.cache[key] == Entry(n, Some(o.(finalizers := [K]))) && w.turns == []
    requires o.finalizers == [D, K]
    ensures var p := ReconcileDeleting(w, o.(finalizers := [K]));
            && p.out == Fine && p.obj.status == o.status && p.w.live == w.live - {key}
            && p.w.versions == w.versions + [Version(o.(finalizers := [], rv := |w.versions|), n, true)]
  {
    hide TakeTurn, DropFinalizer, DeletePhases, UpdateFinalizersFiltered;
    var o1 := o.(finalizers := [K]);
    var begun := FinalizeKind(w, o1).w;
    assert D[0] != K[0];
    assert begun == w.(servings := begun.servings, log := begun.log);
    assert Elements(o1.finalizers) - {K} == {} && SortedList({}) == [];
    assert FinalizeKind(w, o1) == Pass(begun, o1, Fine);
    var p := ReconcileDeleting(w, o1);
    var cleared := UpdateFinalizersFiltered(begun, o1.(finalizers := []));
    assert p == Pass(cleared.w, cleared.obj, Fine);
    PatchesAway(begun, key, o, n, o1.(finalizers := []));
  }

  lemma PatchesAway(w: World, key: Key, o: Serving, n: nat, resource: Serving)
    requires Stored(w, key) && w.live[key] == n && Live(w, key) == o && o.key == key && key.name != "" && o.deleting
    requires o.rv == n && key in w.cache && w.cache[key] == Entry(n, Some(o.(finalizers := [K]))) && w.turns == []
    requires resource.key == key && resource.finalizers == []
    ensures var p := UpdateFinalizersFiltered(w, resource);
            && p.out == Fine && p.obj.status == o.status && p.w.live == w.live - {key}
            && p.w.versions == w.versions + [Version(o.(finalizers := [], rv := |w.versions|), n, true)]
  {
    assert Elements([K]) - {K} == {};
    var w1 := w.(now := 0);
    assert TakeTurn(w) == w1 && TakeTurn(w1) == w1;
    assert PatchDue(resource, o.(finalizers := [K])) == Some([]);
    assert Refusal(w1, key, n, []).None?;
  }

  /** The run: D is attached; the object is deleted, and a finalization releases
      it with an update that is lost; the next pass clears K. */
  function LostReleaseScript(key: Key): seq<Turn> {
    Attaching(key, 0, [During(Condemning(key, [D, K], 2))] + ([QUIET] + ([DROPPED] + [])))
  }

  /** The finalizer patch as a set operation fails here: K and D are stored, K is
      to be removed, and the patch, built from the cache's object, leaves neither;
      the object is gone without D ever having been given up by a write that was
      acknowledged. */
  lemma ReleasedCopyTakesD(w: World, key: Key)
    requires Initial(w) && w.config == [] && key.name != "" && w.turns == LostReleaseScript(key)
    ensures var before := Run(w, [PassOver(key), PassOver(key)]);
            && Stored(before, key) && Live(before, key).finalizers == [D, K]
            && Reconcile(Happen(w, PassOver(key)), key).out == Failing
    ensures var before := Run(w, [PassOver(key), PassOver(key)]);
            var after := Run(w, [PassOver(key), PassOver(key), PassOver(key)]);
            && key !in after.live && |after.versions| == |before.versions| + 1
            && after.versions[|before.versions|].prev == before.live[key]
  {
    hide Happen, Reconcile, ReconcileDeleting, TakeTurn, EditAll, Attached;
    var t4 := During(Condemning(key, [D, K], 2));
    var t5 := [QUIET] + ([DROPPED] + []);
    Attaches(w, key, [t4] + t5);
    var w1 := Happen(w, PassOver(key));
    AttachedIsPlain(w, key, w1, [t4] + t5);
    var o := Condemned(Live(w1, key), [D, K], 2);
    Turned(w1, t4, t5);
    Condemns(w1.(turns := t5, now := 0), key, [D, K]);
    LosesRelease(TakeTurn(w1), key, o, 3);
    DeletingPassEnds(w1, key, o, ReconcileDeleting(TakeTurn(w1), o));
    var w2 := Happen(w1, PassOver(key));
    ScriptOver(w2);
    ClearsBoth(TakeTurn(w2), key, o, 3);
    var o1 := o.(finalizers := [K]);
    DeletingPassEnds(w2, key, o1, ReconcileDeleting(TakeTurn(w2), o1));
    RunsOf(w, PassOver(key));
  }

  // ----- a list reordered before the second fetch

  /** The finalizers reordered, and the cache told. */
  function Reordering(key: Key, finalizers: seq<string>, n: nat): Turn {
    During([Modify(key, map[], finalizers, EMPTY_SPEC), Sync(key, n)])
  }

  /** What is cut is the other finalizer. */
  lemma CutsOther(w: World, key: Key, o: Serving, n: nat, other: string)
    requires StoredAs(w, key, o, n) && o.deleting && o.finalizers == [D, other] && other != D
    requires o.labels == map[] && o.spec == EMPTY_SPEC
    requires w.turns == [Reordering(key, [other, D], |w.versions|)] + []
    ensures var p, cut := DropFinalizer(w, key), o.(finalizers := [D]);
            && p.out == Fine && p.w.turns == [] && key in p.w.cache
            && Listed(p.w, key) == Some(cut.(rv := |w.versions|))
            && Stored(p.w, key) && Live(p.w, key) == cut.(rv := |w.versions| + 1)
  {
    hide EditStep;
    var n1 := |w.versions|;
    var t := Reordering(key, [other, D], n1);
    Turned(w, t, []);
    var w0 := w.(turns := [], now := 0);
    TwoEdits(w0, t.edits[0], t.edits[1]);
    assert Elements([other, D]) == Elements([D, other]);
    Modifies(w0, key, [other, D], EMPTY_SPEC);
    var w1 := Replaced(w0, o.(finalizers := [other, D]));
    Syncs(w1, key, n1);
    var w2 := w1.(cache := w1.cache[key := Entry(n1, Some(o.(finalizers := [other, D], rv := n1)))]);
    assert TakeTurn(w) == w2 && [other, D][1..] == [D];
    var w3 := w2.(cache := w2.cache[key := Entry(n1, Some(o.(finalizers := [D], rv := n1)))],
                  released := w2.released + {n1}, log := w2.log + [Released(key, n1)]);
    assert TakeTurn(w3) == w3;
    assert Refusal(w3, key, n1, [D]).None?;
  }

  /** The run: D is attached; the object is deleted, [D, other] on it, and while
      it is finalized the list is reordered. */
  function ReorderingScript(key: Key, other: string): seq<Turn> {
    Attaching(key, 0, [During(Condemning(key, [D, other], 2))] + ([Reordering(key, [other, D], 4)] + []))
  }

  /** The finalization, of an object D leads when it begins, ends well; it has
      taken the other finalizer, and D stays stored. */
  lemma ReorderedListLosesOther(w: World, key: Key, other: string)
    requires Initial(w) && w.config == [] && key.name != "" && other != D && other != K
    requires w.turns == ReorderingScript(key, other)
    ensures var before, after := Happen(w, PassOver(key)), Run(w, [PassOver(key), PassOver(key)]);
            && Listed(TakeTurn(before), key).Some? && HeadIsD(Listed(TakeTurn(before), key).value.finalizers)
            && Reconcile(before, key).out == Fine
            && Stored(after, key) && Live(after, key).finalizers == [D]
  {
    hide Happen, Reconcile, ReconcileDeleting, TakeTurn, EditAll, Attached;
    var t4 := During(Condemning(key, [D, other], 2));
    var t5 := [Reordering(key, [other, D], 4)] + [];
    Attaches(w, key, [t4] + t5);
    var w1 := Happen(w, PassOver(key));
    AttachedIsPlain(w, key, w1, [t4] + t5);
    var o := Condemned(Live(w1, key), [D, other], 2);
    Turned(w1, t4, t5);
    Condemns(w1.(turns := t5, now := 0), key, [D, other]);
    LosesOther(TakeTurn(w1), key, o, 3, other);
    DeletingPassEnds(w1, key, o, ReconcileDeleting(TakeTurn(w1), o));
    RunsOf(w, PassOver(key));
  }

  lemma LosesOther(w: World, key: Key, o: Serving, n: nat, other: string)
    requires StoredAs(w, key, o, n) && o.deleting && o.finalizers == [D, other] && other != D && other != K
    requires o.labels == map[] && o.spec == EMPTY_SPEC && w.config == [] && w.servings.Keys <= {key}
    requires w.turns == [Reordering(key, [other, D], |w.versions|)] + []
    ensures var p := ReconcileDeleting(w, o);
            && p.out == Fine && p.obj.status == o.status && Stored(p.w, key) && Live(p.w, key).finalizers == [D]
  {
    hide TakeTurn, DropFinalizer, DeletePhases, SortedList;
    var begun := w.(servings := w.servings - {key}, log := w.log + [Finalizing(key, false)]);
    assert begun.servings == map[];
    NothingToDelete(begun);
    CutsOther(begun, key, o, n, other);
    var finalized := FinalizeKind(w, o);
    assert finalized == DropFinalizer(begun, key);
    ScriptOver(finalized.w);
    assert D[0] != K[0];
    assert K !in Elements(SortedList(Elements(o.finalizers) - {K}));
  }

  // ----- a failed patch of K

  /** The run begins with an object without finalizers, and something happens to
      the patch that is to add K. */
  function PatchingScript(key: Key, patch: Turn, rest: seq<Turn>): seq<Turn> {
    [During([Create(key, map[], [], EMPTY_SPEC), Sync(key, 0)])] + ([QUIET] + ([patch] + rest))
  }

  /** The world when the pass is about to send it. */
  lemma AboutToPatch(w: World, key: Key, patch: Turn, rest: seq<Turn>)
    requires Initial(w) && key.name != "" && w.turns == PatchingScript(key, patch, rest)
    ensures var w1, w2 := TakeTurn(w), TakeTurn(TakeTurn(w));
            && w2.turns == [patch] + rest && w1.versions == w2.versions && w1.live == w2.live
            && w2.versions == [Version(Fresh(key, 0, []), -1, false)] && w2.live == map[key := 0]
            && Listed(w1, key) == Listed(w2, key) == Some(Fresh(key, 0, []))
            && w2 == w.(turns := w2.turns, now := 0, versions := w2.versions, live := w2.live, cache := w2.cache,
                        log := w2.log)
  {
    hide TakeTurn, EditAll;
    var t1 := [QUIET] + ([patch] + rest);
    Turned(w, During([Create(key, map[], [], EMPTY_SPEC), Sync(key, 0)]), t1);
    Created(w.(turns := t1, now := 0), key, []);
    QuietlyTurned(TakeTurn(w), QUIET, [patch] + rest);
  }

  /** The call is dropped, or its reply lost. */
  lemma LostPatchGivesZero(w: World, key: Key, fault: Fault, rest: seq<Turn>)
    requires Initial(w) && key.name != "" && fault != NoFault
    requires w.turns == PatchingScript(key, QUIET.(fault := fault), rest)
    ensures ZeroPass(w, PassOver(key))
    ensures ZERO.key in Reconcile(w, key).w.servings
  {
    hide TakeTurn, Inv, Reconcile, Refusal;
    AboutToPatch(w, key, QUIET.(fault := fault), rest);
    InitialOK(w);
    PassTracksZero(w, key);
  }

  /** Somebody writes to the object first. */
  lemma ConflictGivesZero(w: World, key: Key, status: Status, rest: seq<Turn>)
    requires Initial(w) && key.name != ""
    requires w.turns == PatchingScript(key, During([Restatus(key, status)]), rest)
    ensures ZeroPass(w, PassOver(key))
    ensures ZERO.key in Reconcile(w, key).w.servings
  {
    hide TakeTurn, EditAll, Inv, Reconcile;
    var t := During([Restatus(key, status)]);
    AboutToPatch(w, key, t, rest);
    var w2 := TakeTurn(TakeTurn(w));
    Turned(w2, t, rest);
    var w3 := w2.(turns := rest, now := 0);
    OneEdit(w3, Restatus(key, status));
    assert EditStep(w3, Restatus(key, status)).live[key] == 1;
    InitialOK(w);
    PassTracksZero(w, key);
  }

  /** With the zero object, nothing is written. */
  lemma ZeroKind(w: World, rest: seq<Turn>)
    requires w.turns == [QUIET] + ([QUIET] + rest) && ZERO.key !in w.servings
    ensures ReconcileKind(w, ZERO) ==
            Pass(w.(turns := rest, now := 0, servings := w.servings[ZERO.key := 0]), ZERO.(finalizers := [D]), Failing)
  {
    hide TakeTurn, Render, RunStages;
    var counted := w.(servings := w.servings[ZERO.key := 0]);
    QuietlyTurned(counted, QUIET, [QUIET] + rest);
    var w1 := TakeTurn(counted);
    QuietlyTurned(w1, QUIET, rest);
    PlainRenders(w1.config, ZERO);
    StagesUnfold(w1, Render(w1.config, ZERO).value, ZERO);
  }

  lemma LosesPatch(w: World, o: Serving, rest: seq<Turn>)
    requires w.turns == [QUIET] + ([DROPPED] + ([QUIET] + ([QUIET] + rest))) && ZERO.key !in w.servings
    requires Listed(w, o.key) == Some(o) && o.finalizers == [] && Stored(w, o.key) && o.key.name != ""
    ensures ReconcileLive(w, o) ==
            Pass(w.(turns := rest, now := 0, servings := w.servings[ZERO.key := 0]), ZERO.(finalizers := [D]), Failing)
  {
    hide TakeTurn, ReconcileKind, SortedList;
    var t2 := [QUIET] + ([QUIET] + rest);
    QuietlyTurned(w, QUIET, [DROPPED] + t2);
    var w1 := TakeTurn(w);
    QuietlyTurned(w1, DROPPED, t2);
    assert K in Elements(SortedList(Elements(o.finalizers) + {K}));
    var prepared := SetFinalizer(w, o);
    assert prepared == Pass(TakeTurn(w1), ZERO, Failing);
    ZeroKind(prepared.w, rest);
  }

  /** The whole pass, over an object the cache has just heard of. */
  lemma PassLosesPatch(w: World, key: Key, rest: seq<Turn>)
    requires Initial(w) && key.name != "" && w.turns == PatchingScript(key, DROPPED, [QUIET] + ([QUIET] + rest))
    ensures var o := Fresh(key, 0, []);
            Happen(w, PassOver(key)) ==
            w.(versions := [Version(o, -1, false)], live := map[key := 0], cache := map[key := Entry(0, Some(o))],
               servings := map[ZERO.key := 0], turns := rest, now := 0, log := [Wrote(0, false)])
  {
    hide TakeTurn, EditAll, ReconcileLive, Happen, Reconcile;
    var o := Fresh(key, 0, []);
    var t1 := [QUIET] + ([DROPPED] + ([QUIET] + ([QUIET] + rest)));
    Turned(w, During([Create(key, map[], [], EMPTY_SPEC), Sync(key, 0)]), t1);
    Created(w.(turns := t1, now := 0), key, []);
    var w1 := TakeTurn(w);
    LosesPatch(w1, o, rest);
    LivePassEnds(w, key, o, ReconcileLive(w1, o));
  }

  // ----- the last finalization deletes nothing

  /** The run: K's patch on an object `a` is dropped; `a` is deleted and gone; D is
      attached to another object, which is deleted in its turn. */
  function ZeroKeyScript(a: Key, key: Key): seq<Turn> {
    PatchingScript(a, DROPPED, [QUIET] + ([QUIET] + ([During([Delete(a)])] +
      Attaching(key, 2, [During(Condemning(key, [D, K], 4))] + ([QUIET] + ([QUIET] + []))))))
  }

  lemma GoesAtOnce(w: World, a: Key)
    requires Stored(w, a) && Live(w, a).key == a && !Live(w, a).deleting && Live(w, a).finalizers == []
    ensures var w' := EditAll(w, [Delete(a)]);
            && w' == w.(versions := w'.versions, live := w.live - {a}, log := w'.log)
            && |w'.versions| == |w.versions| + 1
  {
    OneEdit(w, Delete(a));
  }

  /** The release of an object D leads, with nobody interfering. */
  lemma Releases(w: World, key: Key, o: Serving, n: nat)
    requires Cached(w, key, o, n) && w.turns == [QUIET] + ([QUIET] + [])
    ensures DropFinalizer(w, key).out == Fine
  {
    hide TakeTurn;
    assert [D, K][1..] == [K];
    QuietlyTurned(w, QUIET, [QUIET] + []);
    var cut := Cut(TakeTurn(w), key, o, n);
    QuietlyTurned(cut, QUIET, []);
    assert Elements([K]) <= Elements([D, K]);
  }

  /** The last KnativeServing is finalized and released; whatever manifest there
      is stays as it is. */
  lemma LastFinalizationDeletesNothing(w: World, a: Key, key: Key)
    requires Initial(w) && a.name != "" && key.name != "" && a != key && w.turns == ZeroKeyScript(a, key)
    ensures var end := Run(w, [PassOver(a), Elapse, PassOver(key)]);
            && TakeTurn(end).live.Keys == {key} && FinalizingPass(end, key)
            && Reconcile(end, key).w.cluster == w.cluster
  {
    hide Happen, Reconcile, TakeTurn, Inv, FinalizingPass, Run, EditAll;
    var t3 := [During(Condemning(key, [D, K], 4))] + ([QUIET] + ([QUIET] + []));
    var t2 := Attaching(key, 2, t3);
    PassLosesPatch(w, a, [During([Delete(a)])] + t2);
    var w1 := Happen(w, PassOver(a));
    Turned(w1, During([Delete(a)]), t2);
    GoesAtOnce(w1.(turns := t2, now := 0), a);
    var w2 := TakeTurn(w1);
    ElapseIsTurn(w1);
    assert w2.live == map[];
    AttachedBesideZero(w2, key);
    RunsOfThree(w, PassOver(a), Elapse, PassOver(key));
    InitialOK(w);
    RunKeeps(w, [PassOver(a), Elapse, PassOver(key)]);
    FinalizationDeletesIff(Happen(w2, PassOver(key)), key);
  }

  lemma AttachedBesideZero(w2: World, key: Key)
    requires key.name != "" && key !in w2.cache && w2.live == map[] && w2.servings == map[ZERO.key := 0]
    requires |w2.versions| == 2
    requires w2.turns == Attaching(key, 2, [During(Condemning(key, [D, K], 4))] + ([QUIET] + ([QUIET] + [])))
    ensures var end := Happen(w2, PassOver(key));
            && TakeTurn(end).live.Keys == {key} && FinalizingPass(end, key) && !(end.servings.Keys <= {key})
            && end.cluster == w2.cluster
  {
    hide Happen, FinalizingPass, TakeTurn, EditAll, Attached, PlainWithD;
    var t3 := [During(Condemning(key, [D, K], 4))] + ([QUIET] + ([QUIET] + []));
    Attaches(w2, key, t3);
    var end := Happen(w2, PassOver(key));
    AttachedIsPlain(w2, key, end, t3);
    assert ZERO.key in end.servings.Keys;
    FinalizedBesideZero(end, key);
  }

  lemma FinalizedBesideZero(end: World, key: Key)
    requires PlainWithD(end, key) && key.name != "" && |end.versions| == 4 && ZERO.key in end.servings
    requires end.turns == [During(Condemning(key, [D, K], 4))] + ([QUIET] + ([QUIET] + []))
    ensures TakeTurn(end).live == end.live[key := 5] && FinalizingPass(end, key)
  {
    hide ReconcileDeleting, TakeTurn, EditAll, HeadIsD;
    Turned(end, During(Condemning(key, [D, K], 4)), [QUIET] + ([QUIET] + []));
    Condemns(end.(turns := [QUIET] + ([QUIET] + []), now := 0), key, [D, K]);
    var o := Condemned(Live(end, key), [D, K], 4);
    FinalizesBesideZero(TakeTurn(end), key, o, 5);
    LeadsByD(o);
  }

  lemma LeadsByD(o: Serving)
    requires o.finalizers == [D, K]
    ensures HeadIsD(o.finalizers)
  {}

  lemma FinalizesBesideZero(w: World, key: Key, o: Serving, n: nat)
    requires Cached(w, key, o, n) && w.turns == [QUIET] + ([QUIET] + []) && ZERO.key in w.servings
    ensures ReconcileDeleting(w, o).out == Fine
  {
    hide TakeTurn, DropFinalizer, DeletePhases, UpdateFinalizersFiltered;
    var servings := w.servings - {key};
    assert ZERO.key in servings;
    var begun := w.(servings := servings, log := w.log + [Finalizing(key, servings != map[])]);
    Releases(begun, key, o, n);
  }

  // ----- an object that vanishes between two listings

  /** The run: an object, already edited once, is listed, and is deleted before it
      is listed again; later it is created anew. */
  function VanishingScript(key: Key, spec: KnativeServingSpec): seq<Turn> {
    [During([Create(key, map[], [], EMPTY_SPEC), Modify(key, map[], [], spec), Sync(key, 1)])] +
    ([During([Delete(key), Sync(key, 2)])] + ([QUIET] + ([QUIET] +
     ([During([Create(key, map[], [], EMPTY_SPEC), Sync(key, 3)])] + []))))
  }

  function EditedOnce(key: Key, spec: KnativeServingSpec): Serving {
    Fresh(key, 0, []).(rv := 1, generation := 2, spec := spec)
  }

  /** Created and edited once. */
  lemma CreatedAndEdited(w: World, key: Key, spec: KnativeServingSpec)
    requires Initial(w) && key.name != "" && spec != EMPTY_SPEC
    ensures var o := EditedOnce(key, spec);
            EditAll(w, [Create(key, map[], [], EMPTY_SPEC), Modify(key, map[], [], spec), Sync(key, 1)]) ==
            w.(versions := [Version(Fresh(key, 0, []), -1, false), Version(o, 0, false)], live := map[key := 1],
               cache := map[key := Entry(1, Some(o))], log := [Wrote(0, false), Wrote(1, false)])
  {
    hide EditStep;
    ThreeEdits(w, Create(key, map[], [], EMPTY_SPEC), Modify(key, map[], [], spec), Sync(key, 1));
    Creates(w, key, []);
    var w1 := Replaced(w, Fresh(key, 0, []));
    Modifies(w1, key, [], spec);
    Syncs(Replaced(w1, EditedOnce(key, spec)), key, 1);
  }

  /** Deleted and, without finalizers, gone; the cache hears of it. */
  lemma Vanishes(w: World, key: Key)
    requires Stored(w, key) && w.live[key] == |w.versions| - 1 && Live(w, key).key == key && !Live(w, key).deleting
    requires key in w.cache && w.cache[key].at < |w.versions|
    requires Live(w, key).finalizers == []
    ensures var n := |w.versions|;
            var w' := EditAll(w, [Delete(key), Sync(key, n)]);
            && w' == w.(versions := w'.versions, live := w.live - {key}, cache := w.cache[key := Entry(n, None)],
                        log := w'.log)
            && |w'.versions| == n + 1
  {
    TwoEdits(w, Delete(key), Sync(key, |w.versions|));
  }

  /** The pass goes on with the copy it has, and its key is remembered. */
  lemma GoesOnWithoutObject(w: World, o: Serving, rest: seq<Turn>)
    requires o.key.name != "" && o.key !in w.live && o.key !in w.servings && o.generation == 2
    requires o.spec.controllerCustomCerts == EMPTY_SPEC.controllerCustomCerts && D !in o.finalizers
    requires w.turns == [QUIET] + ([QUIET] + rest)
    ensures var p := ReconcileKind(w, o);
            && p.out == Failing && p.obj.status == o.status
            && p.w == w.(turns := rest, now := 0, servings := w.servings[o.key := 2])
  {
    hide TakeTurn, Render, RunStages;
    var counted := w.(servings := w.servings[o.key := 2]);
    QuietlyTurned(counted, QUIET, [QUIET] + rest);
    var w1 := TakeTurn(counted);
    QuietlyTurned(w1, QUIET, rest);
    PlainRenders(w1.config, o);
    StagesUnfold(w1, Render(w1.config, o).value, o);
  }

  /** Nothing is stored under the key any more, and it is remembered, without the
      zero object having played a part. */
  lemma VanishedIsRemembered(w: World, key: Key, spec: KnativeServingSpec)
    requires Initial(w) && key.name != "" && w.turns == VanishingScript(key, spec)
    requires spec != EMPTY_SPEC && spec.controllerCustomCerts == EMPTY_SPEC.controllerCustomCerts
    ensures var w' := Happen(w, PassOver(key));
            && w'.live == map[] && w'.servings == map[key := 2] && !ZeroPass(w, PassOver(key))
            && |w'.versions| == 3 && w'.cache == map[key := Entry(2, None)]
            && w'.turns == [During([Create(key, map[], [], EMPTY_SPEC), Sync(key, 3)])] + []
  {
    hide TakeTurn, EditAll, ReconcileKind, ReconcileLive, Happen, Reconcile, SortedList;
    var o := EditedOnce(key, spec);
    var t4 := [During([Create(key, map[], [], EMPTY_SPEC), Sync(key, 3)])] + [];
    var t2 := [QUIET] + ([QUIET] + t4);
    var t1 := [During([Delete(key), Sync(key, 2)])] + t2;
    var first := During([Create(key, map[], [], EMPTY_SPEC), Modify(key, map[], [], spec), Sync(key, 1)]);
    Turned(w, first, t1);
    CreatedAndEdited(w.(turns := t1, now := 0), key, spec);
    var w1 := TakeTurn(w);
    Turned(w1, During([Delete(key), Sync(key, 2)]), t2);
    Vanishes(w1.(turns := t2, now := 0), key);
    ListsNothing(w1, o, t4);
    LivePassEnds(w, key, o, ReconcileLive(w1, o));
  }

  lemma ListsNothing(w1: World, o: Serving, rest: seq<Turn>)
    requires var w2 := TakeTurn(w1);
             && Listed(w2, o.key).None? && o.key !in w2.live && o.key !in w2.servings
             && w2.turns == [QUIET] + ([QUIET] + rest)
    requires o.key.name != "" && o.generation == 2 && o.finalizers == []
    requires o.spec.controllerCustomCerts == EMPTY_SPEC.controllerCustomCerts
    ensures var p, w2 := ReconcileLive(w1, o), TakeTurn(w1);
            && p.out == Failing && p.obj.status == o.status
            && p.w == w2.(turns := rest, now := 0, servings := w2.servings[o.key := 2])
  {
    hide TakeTurn, ReconcileKind, SortedList;
    var resource := o.(finalizers := SortedList(Elements(o.finalizers) + {K}));
    assert D[0] != K[0];
    assert D !in Elements(resource.finalizers);
    GoesOnWithoutObject(TakeTurn(w1), resource, rest);
  }

  /** When it is created anew, at generation 1, the gate refuses it. */
  lemma RecreatedIsRefused(w: World, key: Key, spec: KnativeServingSpec)
    requires Initial(w) && key.name != "" && w.turns == VanishingScript(key, spec)
    requires spec != EMPTY_SPEC && spec.controllerCustomCerts == EMPTY_SPEC.controllerCustomCerts
    ensures var end := Run(w, [PassOver(key), Elapse]);
            && StoredAs(end, key, Fresh(key, 3, []), 3) && end.turns == []
            && end.servings == map[key := 2] && Fresh(key, 3, []).generation == 1 && !end.versions[3].gone
  {
    hide TakeTurn, EditAll, Happen;
    VanishedIsRemembered(w, key, spec);
    var w1 := Happen(w, PassOver(key));
    Turned(w1, During([Create(key, map[], [], EMPTY_SPEC), Sync(key, 3)]), []);
    CreatedAgain(w1.(turns := [], now := 0), key);
    RunsOfTwo(w, PassOver(key), Elapse);
    ElapseIsTurn(w1);
  }

  lemma CreatedAgain(w: World, key: Key)
    requires key.name != "" && key !in w.live && |w.versions| == 3 && w.cache == map[key := Entry(2, None)]
    ensures var o := Fresh(key, 3, []);
            var w' := EditAll(w, [Create(key, map[], [], EMPTY_SPEC), Sync(key, 3)]);
            && w' == w.(versions := w.versions + [Version(o, -1, false)], live := w.live[key := 3],
                        cache := map[key := Entry(3, Some(o))], log := w'.log)
  {
    TwoEdits(w, Create(key, map[], [], EMPTY_SPEC), Sync(key, 3));
  }

  /** Left alone from then on, it never converges. */
  lemma RecreatedNeverConverges(w: World, key: Key, spec: KnativeServingSpec, n: nat)
    requires Initial(w) && key.name != "" && w.turns == VanishingScript(key, spec) && n >= 2
    requires spec != EMPTY_SPEC && spec.controllerCustomCerts == EMPTY_SPEC.controllerCustomCerts
    ensures var end := Run(w, [PassOver(key), Elapse]);
            Placed(end, key) && !Converged(SyncedPasses(end, key, n), key)
  {
    hide Run, SyncedPasses, Render, IsFalse, Settled, Converged;
    RecreatedIsRefused(w, key, spec);
    var end := Run(w, [PassOver(key), Elapse]);
    PlainRenders(end.config, Fresh(key, 3, []));
    assert end.turns == [] && Quiet(end);
    assert WellFormed([]);
    ConvergesExactly(end, key, n);
  }

  // ----- a status that is lost

  /** The run: an object with a status, whose patch of K is dropped. */
  function ErasingScript(key: Key, status: Status): seq<Turn> {
    [During([Create(key, map[], [], EMPTY_SPEC), Restatus(key, status), Sync(key, 1)])] +
    ([QUIET] + ([DROPPED] + ([QUIET] + ([QUIET] + []))))
  }

  lemma CreatedWithStatus(w: World, key: Key, status: Status)
    requires Initial(w) && key.name != ""
    ensures var o := Fresh(key, 0, []).(rv := 1, status := status);
            EditAll(w, [Create(key, map[], [], EMPTY_SPEC), Restatus(key, status), Sync(key, 1)]) ==
            w.(versions := [Version(Fresh(key, 0, []), -1, false), Version(o, 0, false)], live := map[key := 1],
               cache := map[key := Entry(1, Some(o))], log := [Wrote(0, false), Wrote(1, false)])
  {
    hide EditStep;
    ThreeEdits(w, Create(key, map[], [], EMPTY_SPEC), Restatus(key, status), Sync(key, 1));
    Creates(w, key, []);
    var w1 := Replaced(w, Fresh(key, 0, []));
    Restatuses(w1, key, status);
    Syncs(Replaced(w1, Fresh(key, 0, []).(rv := 1, status := status)), key, 1);
  }

  /** Nobody interferes, and the pass leaves the object without its status. */
  lemma LostPatchErasesStatus(w: World, key: Key, status: Status)
    requires Initial(w) && key.name != "" && status != NO_STATUS && w.turns == ErasingScript(key, status)
    ensures var before, after := TakeTurn(w), Happen(w, PassOver(key));
            && Stored(before, key) && Live(before, key).status == status
            && Stored(after, key) && Live(after, key) == Live(before, key).(rv := 2, status := NO_STATUS)
  {
    hide TakeTurn, EditAll, ReconcileLive, Happen, Reconcile, SyncStatus;
    var o := Fresh(key, 0, []).(rv := 1, status := status);
    var t1 := [QUIET] + ([DROPPED] + ([QUIET] + ([QUIET] + [])));
    var first := During([Create(key, map[], [], EMPTY_SPEC), Restatus(key, status), Sync(key, 1)]);
    Turned(w, first, t1);
    CreatedWithStatus(w.(turns := t1, now := 0), key, status);
    var w1 := TakeTurn(w);
    LosesPatch(w1, o, []);
    var pass := ReconcileLive(w1, o);
    ErasedAtOnce(pass, o);
    PassThenStatus(w, key, o, pass);
  }

  lemma PassThenStatus(w: World, key: Key, o: Serving, pass: Pass)
    requires Listed(TakeTurn(w), key) == Some(o) && !o.deleting
    requires ReconcileLive(TakeTurn(w), o) == pass && pass.out != Panicking && SyncStatus(pass, o).out != Panicking
    ensures Happen(w, PassOver(key)) == SyncStatus(pass, o).w
  {
    hide TakeTurn, ReconcileLive, ReconcileDeleting, SyncStatus, Restart;
  }

  lemma ErasedAtOnce(pass: Pass, o: Serving)
    requires pass.w.turns == [] && pass.obj.status == NO_STATUS != o.status && pass.out == Failing
    requires o.key.name != "" && Stored(pass.w, o.key) && Live(pass.w, o.key) == o && pass.w.live[o.key] == o.rv
    requires !o.deleting
    ensures var p := SyncStatus(pass, o);
            && p.out == Failing && Stored(p.w, o.key)
            && Live(p.w, o.key) == o.(rv := |pass.w.versions|, status := NO_STATUS)
  {
    hide TakeTurn;
    ScriptOver(pass.w);
    EmptyIsSame(o.status);
    assert FinalizersAllowed(o, []);
    assert Refusal(TakeTurn(pass.w), o.key, o.rv, []).None?;
    assert UpdateStatus(pass.w, o.(status := NO_STATUS)) ==
           Reply(Commit(TakeTurn(pass.w), o.(status := NO_STATUS), true),
                 Ok(o.(status := NO_STATUS, rv := |pass.w.versions|)));
  }
}
