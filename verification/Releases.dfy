/** The end of a finalization, step by step: which finalizer the hand-written half
    cuts, and whether the generated half still gets K off in the same pass. */
module Releases {
  import opened Calls
  import opened Conditions
  import opened Invariant
  import opened LivePath
  import opened Manifests
  import opened PassOutcomes
  import opened Passes
  import opened Resources
  import opened Safety
  import opened Termination
  import opened Text
  import opened World
  import opened Writes

  // ----- which finalizer is cut

  /** What the code cuts is the head of the list it fetched again, whatever that
      is and whoever put it there: D goes exactly if it is the head then and
      occurs but once, any other finalizer likewise, and if the head occurs again
      nobody loses anything. Without an object or a finalizer, nothing is cut. */
  lemma CutTakesHead(w0: World, key: Key)
    ensures var refetched, p := Listed(TakeTurn(w0), key), DropFinalizer(w0, key);
            if refetched.None? || refetched.value.finalizers == [] then
              p.w == TakeTurn(w0) && p.out == (if refetched.None? then Failing else Panicking)
            else
              var before, after := Elements(refetched.value.finalizers), Elements(p.obj.finalizers);
              var head, tail := refetched.value.finalizers[0], refetched.value.finalizers[1..];
              && p.obj == refetched.value.(finalizers := p.obj.finalizers)
              && after == (if head in tail then before else before - {head})
              && (D in before && D !in after <==> HeadIsD(refetched.value.finalizers) && D !in tail)
  {
    hide TakeTurn, Update;
    var refetched := Listed(TakeTurn(w0), key);
    if refetched.Some? && refetched.value.finalizers != [] {
      var finalizers := refetched.value.finalizers;
      assert finalizers == [finalizers[0]] + finalizers[1..];
    }
  }

  // ----- whether K goes in the same pass

  /** A patch based on a version that is no longer live is never accepted,
      whatever the environment does first. */
  lemma StaleCopyNeverClears(w: World, key: Key, rv: int, finalizers: seq<string>)
    requires Inv(w) && key in w.live && rv < w.live[key]
    ensures Patch(w, key, rv, finalizers).result.Err?
  {
    hide TakeTurn, Commit, Env;
    var w1 := TakeTurn(w);
    TurnKeeps(w);
    EnvIsCalm(w, w1);
    if key in w1.live {
      var n := w.live[key];
      assert w1.versions[n] == w.versions[n] && w.versions[n].obj.key == key;
      assert n <= w1.live[key];
    }
  }

  /** The cache may hear of versions; nothing else happens. */
  predicate NewsTurn(t: Turn) {
    t.fault == NoFault && forall e | e in t.edits :: e.Sync?
  }

  /** The cache's entry for a key is the one it was, or one told since. */
  ghost predicate Heard(a: World, b: World, key: Key) {
    && key in a.cache && key in b.cache
    && (b.cache[key] == a.cache[key] ||
        exists rv: nat ::
          a.cache[key].at <= rv < |a.versions| && a.versions[rv].obj.key == key && b.cache[key] == Told(a, rv))
  }

  lemma {:induction false} NewsEdits(w: World, edits: seq<Edit>, key: Key)
    requires (forall e | e in edits :: e.Sync?) && key in w.cache
    ensures var w' := EditAll(w, edits); w' == w.(cache := w'.cache) && key in w'.cache && Heard(w, w', key)
    decreases |edits|
  {
    if edits != [] {
      assert edits[0] in edits && forall e | e in edits[1..] :: e in edits;
      NewsEdits(EditStep(w, edits[0]), edits[1..], key);
    }
  }

  lemma NewsOnly(w: World, key: Key)
    requires NewsTurn(NextTurn(w)) && key in w.cache
    ensures var t := TakeTurn(w);
            t == w.(turns := t.turns, now := t.now, cache := t.cache) && key in t.cache && Heard(w, t, key)
  {
    hide EditAll;
    var begun := w.(turns := if w.turns == [] then [] else w.turns[1..], now := NextTurn(w).now);
    NewsEdits(begun, NextTurn(w).edits, key);
  }

  /** The update that cut D is in, K is left, and the cache is behind. */
  predicate JustReleased(w: World, key: Key) {
    && Stored(w, key) && Live(w, key).deleting && K in Live(w, key).finalizers
    && key in w.cache && w.cache[key].at < w.live[key]
  }

  /** The list a second fetch finds K on, and the patch that follows. */
  lemma HeardClears(w: World, key: Key, resource: Serving)
    requires Inv(w) && JustReleased(w, key) && resource.key == key && K !in resource.finalizers
    requires NewsTurn(NextTurn(w)) && NewsTurn(NextTurn(TakeTurn(w)))
    requires key in TakeTurn(w).cache && TakeTurn(w).cache[key].at == w.live[key]
    ensures StoredFinalizers(UpdateFinalizersFiltered(w, resource).w, key) ==
            SortedList(Elements(Live(w, key).finalizers) - {K})
  {
    hide Inv, TakeTurn, SortedList, PatchDue, FinalizersAllowed;
    NewsOnly(w, key);
    var t, current := TakeTurn(w), Live(w, key);
    LiveInOrder(w, key);
    assert Listed(t, key) == Some(current);
    var due := SortedList(Elements(current.finalizers) - {K});
    assert PatchDue(resource, current) == Some(due) by { DueOf(resource, current); }
    NewsOnly(t, key);
    var t2 := TakeTurn(t);
    DueSubset(current);
    assert Refusal(t2, key, current.rv, due).None?;
  }

  lemma LiveInOrder(w: World, key: Key)
    requires Inv(w) && Stored(w, key)
    ensures Live(w, key).key == key && Live(w, key).rv == w.live[key] && !w.versions[w.live[key]].gone
    ensures key.name != ""
  {
    assert VersionOK(w.versions, w.live[key]);
  }

  lemma DueOf(resource: Serving, existing: Serving)
    requires K !in resource.finalizers && K in existing.finalizers
    ensures PatchDue(resource, existing) == Some(SortedList(Elements(existing.finalizers) - {K}))
  {}

  lemma DueSubset(o: Serving)
    ensures FinalizersAllowed(o, SortedList(Elements(o.finalizers) - {K}))
    ensures K !in SortedList(Elements(o.finalizers) - {K})
  {
    assert K !in Elements(SortedList(Elements(o.finalizers) - {K}));
  }

  lemma BehindKeeps(w: World, key: Key, resource: Serving)
    requires Inv(w) && JustReleased(w, key) && resource.key == key && K !in resource.finalizers
    requires NewsTurn(NextTurn(w)) && NewsTurn(NextTurn(TakeTurn(w)))
    requires key in TakeTurn(w).cache && TakeTurn(w).cache[key].at != w.live[key]
    ensures var w' := UpdateFinalizersFiltered(w, resource).w; w'.versions == w.versions && w'.live == w.live
  {
    hide Inv, TakeTurn, SortedList, PatchDue, Env, Snap;
    NewsOnly(w, key);
    var t := TakeTurn(w);
    TurnKeeps(w);
    NewsOnly(t, key);
    if Listed(t, key).Some? {
      ListedIsSnap(t, key);
    }
  }

  /** In a finalizing pass that nobody but the cache's own news interferes with,
      once the update that cut D is in: K goes in the same pass exactly if the
      cache has heard of that very update by the time the generated half lists;
      otherwise the patch, based on the released version, changes nothing. */
  lemma KGoesInTheSamePass(w: World, key: Key, original: Serving)
    requires Inv(w) && JustReleased(w, key) && original.key == key
    requires NewsTurn(NextTurn(w)) && NewsTurn(NextTurn(TakeTurn(w)))
    ensures key in TakeTurn(w).cache
    ensures var p := ClearFinalizer(w, original, Fine);
            var heard := TakeTurn(w).cache[key].at == w.live[key];
            && (K !in StoredFinalizers(p.w, key) <==> heard)
            && (heard ==> StoredFinalizers(p.w, key) == SortedList(Elements(Live(w, key).finalizers) - {K}))
            && (!heard ==> p.w.versions == w.versions)
  {
    hide TakeTurn, SortedList, UpdateFinalizersFiltered, Inv;
    NewsOnly(w, key);
    var resource := original.(finalizers := SortedList(Elements(original.finalizers) - {K}));
    DueSubset(original);
    DueSubset(Live(w, key));
    if TakeTurn(w).cache[key].at == w.live[key] {
      HeardClears(w, key, resource);
    } else {
      BehindKeeps(w, key, resource);
    }
  }

  /** Whatever the environment does, the operator's own patch takes K off exactly
      if the cache's object has K when the generated half lists, that version is
      still what is stored when the patch arrives, and the patch does arrive;
      otherwise the pass's last step writes nothing. */
  lemma ClearsKExactly(w: World, key: Key, original: Serving)
    requires Inv(w) && original.key == key
    ensures var t, t2 := TakeTurn(w), TakeTurn(TakeTurn(w));
            var again, w' := Listed(t, key), ClearFinalizer(w, original, Fine).w;
            var due := again.Some? && K in again.value.finalizers;
            if due && NextTurn(t).fault != Dropped && Stored(t2, key) && t2.live[key] == again.value.rv then
              && |w'.versions| == |t2.versions| + 1 && w'.versions[..|t2.versions|] == t2.versions
              && w'.versions[|t2.versions|].prev == t2.live[key]
              && var left := w'.versions[|t2.versions|].obj;
                 && left == Live(t2, key).(rv := |t2.versions|, finalizers := left.finalizers)
                 && Elements(left.finalizers) == Elements(again.value.finalizers) - {K}
            else w' == if due then t2 else t
  {
    hide Inv, TakeTurn, SortedList, PatchDue, Snap, Env;
    var resource := original.(finalizers := SortedList(Elements(original.finalizers) - {K}));
    DueSubset(original);
    var t := TakeTurn(w);
    TurnKeeps(w);
    var again := Listed(t, key);
    if again.Some? {
      ListedIsSnap(t, key);
      NamedKey(t, key);
      if K in again.value.finalizers {
        DueOf(resource, again.value);
        var due := SortedList(Elements(again.value.finalizers) - {K});
        var t2 := TakeTurn(t);
        TurnKeeps(t);
        EnvIsGrowth(t, t2);
        if Stored(t2, key) && t2.live[key] == again.value.rv {
          DueAllowed(t, t2, key, again.value);
        }
      } else {
        NothingDue(resource, again.value);
      }
    }
  }

  lemma NothingDue(resource: Serving, existing: Serving)
    requires K !in resource.finalizers && K !in existing.finalizers
    ensures PatchDue(resource, existing).None?
  {}

  lemma DueAllowed(t: World, t2: World, key: Key, existing: Serving)
    requires Grows(t, t2) && Snap(t.versions, t.released, existing)
    requires Stored(t2, key) && t2.live[key] == existing.rv
    ensures FinalizersAllowed(Live(t2, key), SortedList(Elements(existing.finalizers) - {K}))
  {
    assert t2.versions[existing.rv] == t.versions[existing.rv];
  }

  // ----- a finalization that fails

  /** The hand-written half: without D at the head it does nothing and ends well;
      with it, and no other key remembered, a deletion that is not acknowledged
      ends it with an error and nothing is released. */
  lemma FinalizationFails(w: World, o: Serving)
    ensures var p, calls := FinalizeKind(w, o), |InSequence(TeardownPhases(w.config))|;
            && (!HeadIsD(o.finalizers) ==> p.out == Fine && p.w.versions == w.versions && p.w.turns == w.turns)
            && (HeadIsD(o.finalizers) && w.servings.Keys <= {o.key} && !Faultless(w, 0, calls) ==>
                  p.out == Failing && p.w.released == w.released)
  {
    hide DeletePhases, DropFinalizer, HeadIsD, InSequence, TeardownPhases, Faultless;
    var servings := w.servings - {o.key};
    var begun := w.(servings := servings, log := w.log + [Finalizing(o.key, servings != map[])]);
    var calls := |InSequence(TeardownPhases(w.config))|;
    SameTurns(begun, w);
    LaterTurns(w, begun, 0, 0, calls);
    DeletePhasesCalls(begun, TeardownPhases(w.config));
    PhasesAreOneDelete(begun, TeardownPhases(w.config));
    DeleteReleasesNone(begun, InSequence(TeardownPhases(w.config)));
    if w.servings.Keys <= {o.key} {
      assert servings.Keys == {};
    }
  }

  lemma SameTurns(a: World, b: World)
    requires a.turns == b.turns
    ensures forall i: nat :: Ahead(a, i) == Ahead(b, i + 0)
  {}

  lemma TurnReleasesNone(w: World)
    ensures TakeTurn(w).released == w.released
  {
    hide EditAll;
    var turn := NextTurn(w);
    EditsReleaseNone(w.(turns := if w.turns == [] then [] else w.turns[1..], now := turn.now), turn.edits);
  }

  lemma {:induction false} EditsReleaseNone(w: World, edits: seq<Edit>)
    ensures EditAll(w, edits).released == w.released
    decreases |edits|
  {
    if edits != [] {
      EditsReleaseNone(EditStep(w, edits[0]), edits[1..]);
    }
  }

  lemma {:induction false} DeleteReleasesNone(w: World, rs: seq<Resource>)
    ensures DeletePhase(w, rs).w.released == w.released
    decreases |rs|
  {
    hide TakeTurn;
    if rs != [] {
      TurnReleasesNone(w);
      DeleteReleasesNone(DeleteOne(w, rs[0]).w, rs[1..]);
    }
  }

  /** A pass whose finalization failed ends with that error, whatever becomes of K,
      and does not take K: it writes nothing, unless the cache has come to show the
      object without K; then it asks for K to be added. */
  lemma FailedFinalizationKeepsK(w: World, o: Serving)
    requires FinalizeKind(w, o).out == Failing && K in o.finalizers
    ensures var p, t := ReconcileDeleting(w, o), TakeTurn(FinalizeKind(w, o).w);
            var listed := Listed(t, o.key);
            && p.out == Failing
            && p.w == if listed.None? || K in listed.value.finalizers then t
                      else Patch(t, o.key, listed.value.rv, listed.value.finalizers + [K]).w
  {
    hide FinalizeKind, TakeTurn, Patch, SortedList;
    assert K in Elements(SortedList(Elements(o.finalizers)));
  }
}
