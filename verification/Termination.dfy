/** Left alone, a deleted object sheds one finalizer a pass. Whether D is among
    them depends on its place in the list. */
module Termination {
  import opened Conditions
  import opened Convergence
  import opened Manifests
  import opened Passes
  import opened QuietCalls
  import opened Resources
  import opened Text
  import opened World

  /** What a pass does to the stored list: D goes if it is the head; otherwise K
      goes, and what is left gets sorted. */
  function Shed(finalizers: seq<string>): seq<string> {
    if HeadIsD(finalizers) then finalizers[1..]
    else if K in finalizers then SortedList(Elements(finalizers) - {K})
    else finalizers
  }

  function ShedAll(finalizers: seq<string>, n: nat): seq<string>
    decreases n
  {
    if n == 0 then finalizers else ShedAll(Shed(finalizers), n - 1)
  }

  /** The finalizers stored under a key, none once the object is gone. */
  function StoredFinalizers(w: World, key: Key): seq<string> {
    if Stored(w, key) then Live(w, key).finalizers else []
  }

  /** Up to `n` synced passes, while there is an object. */
  function TeardownPasses(w: World, key: Key, n: nat): World
    decreases n
  {
    if n == 0 || !Stored(w, key) then w else TeardownPasses(SyncedPass(w, key), key, n - 1)
  }

  /** A deleted object that still exists, in a world left alone. */
  predicate Terminating(w: World, key: Key) {
    && Stored(w, key)
    && var o := Live(w, key);
       && At(w, key, o) && o.deleting && o.finalizers != []
       && (key in w.cache ==> w.cache[key].at <= w.live[key])
  }

  predicate CacheBehind(w: World, key: Key, o: Serving) {
    key in w.cache ==> w.cache[key].at <= o.rv
  }

  /** `o` with new finalizers is stored, or gone with its last one. */
  predicate Left(w: World, key: Key, o: Serving, finalizers: seq<string>) {
    && Quiet(w) && CacheBehind(w, key, o)
    && (if finalizers == [] then key !in w.live
        else
          && Stored(w, key) && At(w, key, Live(w, key)) && o.rv <= Live(w, key).rv
          && Live(w, key) == o.(finalizers := finalizers, rv := Live(w, key).rv))
  }

  // ----- the two writes of a finalizing pass

  lemma CommitLeft(w: World, key: Key, o: Serving, finalizers: seq<string>)
    requires At(w, key, o) && o.deleting && CacheBehind(w, key, o)
    ensures Left(Commit(w, o.(finalizers := finalizers), true), key, o, finalizers)
    ensures finalizers != [] ==> Live(Commit(w, o.(finalizers := finalizers), true), key).rv != o.rv
  {}

  lemma PatchLeft(w0: World, key: Key, o: Serving, finalizers: seq<string>)
    requires At(w0, key, o) && o.deleting && CacheBehind(w0, key, o) && FinalizersAllowed(o, finalizers)
    ensures var reply := Patch(w0, key, o.rv, finalizers);
            && reply.result == Ok(o.(finalizers := finalizers, rv := |w0.versions|))
            && Left(reply.w, key, o, finalizers) && reply.w.cache == w0.cache
  {
    hide TakeTurn, Left;
    TurnUndisturbed(w0);
    CommitLeft(TakeTurn(w0), key, o, finalizers);
  }

  lemma UpdateLeft(w0: World, o: Serving, sent: Serving)
    requires At(w0, sent.key, o) && o.deleting && CacheBehind(w0, sent.key, o) && FinalizersAllowed(o, sent.finalizers)
    requires sent == o.(finalizers := sent.finalizers)
    ensures var reply := Update(w0, sent);
            && reply.result.Ok? && Left(reply.w, sent.key, o, sent.finalizers) && reply.w.cache == w0.cache
            && (sent.finalizers != [] ==> Live(reply.w, sent.key).rv != o.rv)
  {
    hide TakeTurn, Left;
    TurnUndisturbed(w0);
    CommitLeft(TakeTurn(w0), sent.key, o, sent.finalizers);
  }

  /** A patch based on a version replaced since. */
  lemma PatchConflicts(w0: World, key: Key, o: Serving, rv: int, finalizers: seq<string>)
    requires At(w0, key, o) && rv != o.rv
    ensures Patch(w0, key, rv, finalizers).result == Err(Conflict) && Undisturbed(w0, Patch(w0, key, rv, finalizers).w)
  {
    hide TakeTurn;
    TurnUndisturbed(w0);
  }

  // ----- the pass

  lemma TailAllowed(o: Serving)
    requires o.finalizers != []
    ensures FinalizersAllowed(o, o.finalizers[1..])
    ensures FinalizersAllowed(o, SortedList(Elements(o.finalizers) - {K}))
  {}

  lemma DropFinalizerLeaves(w: World, key: Key, o: Serving)
    requires At(w, key, o) && Synced(w, key) && o.deleting && HeadIsD(o.finalizers)
    ensures var p := DropFinalizer(w, key);
            && p.out == Fine && Left(p.w, key, o, o.finalizers[1..])
            && Listed(p.w, key) == Some(o.(finalizers := o.finalizers[1..]))
            && (o.finalizers[1..] != [] ==> Live(p.w, key).rv != o.rv)
  {
    hide TakeTurn, Update, Left;
    TurnUndisturbed(w);
    var w1 := TakeTurn(w);
    var edited := o.(finalizers := o.finalizers[1..]);
    var released := w1.(cache := w1.cache[key := Entry(w1.cache[key].at, Some(edited))],
                        released := w1.released + {w1.cache[key].at},
                        log := w1.log + [Released(key, w1.cache[key].at)]);
    TailAllowed(o);
    UpdateLeft(released, o, edited);
  }

  /** The hand-written half of a finalizing pass. */
  lemma FinalizeKindLeaves(w: World, key: Key, o: Serving)
    requires At(w, key, o) && Synced(w, key) && o.deleting && o.finalizers != []
    ensures var p := FinalizeKind(w, o);
            p.out == Fine &&
            if HeadIsD(o.finalizers) then
              && Left(p.w, key, o, o.finalizers[1..])
              && Listed(p.w, key) == Some(o.(finalizers := o.finalizers[1..]))
              && (o.finalizers[1..] != [] ==> Live(p.w, key).rv != o.rv)
            else At(p.w, key, o) && Synced(p.w, key) && p.w.versions == w.versions
  {
    hide DeletePhases, DropFinalizer, Left, HeadIsD;
    var servings := w.servings - {o.key};
    var begun := w.(servings := servings, log := w.log + [Finalizing(o.key, servings != map[])]);
    DeletePhasesUndisturbed(begun, TeardownPhases(begun.config));
    var deleted := if servings == map[] then DeletePhases(begun, TeardownPhases(begun.config)) else Phase(begun, true);
    if HeadIsD(o.finalizers) {
      DropFinalizerLeaves(deleted.w, key, o);
    }
  }

  lemma SortedWithoutK(finalizers: seq<string>)
    ensures K !in SortedList(Elements(finalizers) - {K})
  {
    assert K !in Elements(SortedList(Elements(finalizers) - {K}));
  }

  /** The generated half, when D was not the head: K goes. */
  lemma ClearFinalizerLeaves(w: World, key: Key, o: Serving)
    requires At(w, key, o) && Synced(w, key) && o.deleting && o.finalizers != []
    ensures var p := ClearFinalizer(w, o, Fine);
            && Left(p.w, key, o, if K in o.finalizers then SortedList(Elements(o.finalizers) - {K}) else o.finalizers)
            && (K !in o.finalizers ==> p.w.versions == w.versions)
            && p.obj.status == o.status
  {
    hide TakeTurn, Patch, SortedList;
    TurnUndisturbed(w);
    var w1 := TakeTurn(w);
    SortedWithoutK(o.finalizers);
    TailAllowed(o);
    if K in o.finalizers {
      PatchLeft(w1, key, o, SortedList(Elements(o.finalizers) - {K}));
    }
  }

  /** The generated half, when D was the head: the cache's own object was edited,
      so a patch based on it conflicts. */
  lemma ClearFinalizerConflicts(w: World, key: Key, o: Serving)
    requires Quiet(w) && o.key == key && o.finalizers != []
    requires Listed(w, key) == Some(o.(finalizers := o.finalizers[1..])) && Left(w, key, o, o.finalizers[1..])
    requires o.finalizers[1..] != [] ==> Live(w, key).rv != o.rv
    ensures var p := ClearFinalizer(w, o, Fine);
            && Undisturbed(w, p.w) && ((p.obj == ZERO && o.finalizers[1..] != []) || p.obj.status == o.status)
  {
    hide TakeTurn, Patch, SortedList;
    TurnUndisturbed(w);
    var w1 := TakeTurn(w);
    SortedWithoutK(o.finalizers);
    var tail := o.finalizers[1..];
    if K in tail {
      PatchConflicts(w1, key, Live(w1, key), o.rv, SortedList(Elements(tail) - {K}));
    }
  }

  /** The status write a zero object asks for fails at its second attempt. */
  lemma ZeroStatusFails(w: World, o: Serving, current: Serving)
    requires At(w, o.key, current) && o.rv != current.rv
    ensures Undisturbed(w, SyncStatus(Pass(w, ZERO, Fine), o).w)
  {
    hide UpdateStatus, TakeTurn, SameStatus;
    if !SameStatus(o.status, ZERO.status) {
      EqualIsSame(o.status, ZERO.status);
      var sent := o.(status := ZERO.status);
      UpdateStatusConflicts(w, current, sent);
      var w1 := UpdateStatus(w, sent).w;
      TurnUndisturbed(w1);
    }
  }

  lemma LeftUndisturbed(a: World, b: World, key: Key, o: Serving, finalizers: seq<string>)
    requires Left(a, key, o, finalizers) && Undisturbed(a, b)
    ensures Left(b, key, o, finalizers)
  {}

  lemma SyncStatusSkips(pass: Pass, o: Serving)
    requires pass.obj.status == o.status
    ensures SyncStatus(pass, o) == pass
  {
    EqualIsSame(o.status, pass.obj.status);
  }

  /** A pass whose cache is synced sheds one finalizer, or writes nothing. */
  lemma DeletingPass(w: World, key: Key, o: Serving)
    requires At(w, key, o) && Synced(w, key) && o.deleting && o.finalizers != []
    ensures var p := ReconcileDeleting(w, o);
            && p.out == Fine
            && Left(SyncStatus(p, o).w, key, o, Shed(o.finalizers))
            && (!HeadIsD(o.finalizers) && K !in o.finalizers ==> SyncStatus(p, o).w.versions == w.versions)
  {
    hide FinalizeKind, ClearFinalizer, Left, SyncStatus, SortedList, Elements, HeadIsD;
    FinalizeKindLeaves(w, key, o);
    var finalized := FinalizeKind(w, o);
    var p := ReconcileDeleting(w, o);
    if HeadIsD(o.finalizers) {
      var tail := o.finalizers[1..];
      LeftQuiet(finalized.w, key, o, tail);
      ClearFinalizerConflicts(finalized.w, key, o);
      LeftUndisturbed(finalized.w, p.w, key, o, tail);
      if p.obj.status == o.status {
        SyncStatusSkips(p, o);
      } else {
        LeftIsAt(p.w, key, o, tail);
        ZeroStatusFails(p.w, o, Live(p.w, key));
        LeftUndisturbed(p.w, SyncStatus(p, o).w, key, o, tail);
      }
    } else {
      ClearFinalizerLeaves(finalized.w, key, o);
      SyncStatusSkips(p, o);
    }
  }

  lemma LeftQuiet(w: World, key: Key, o: Serving, finalizers: seq<string>)
    requires Left(w, key, o, finalizers)
    ensures Quiet(w)
  {}

  lemma LeftIsAt(w: World, key: Key, o: Serving, finalizers: seq<string>)
    requires Left(w, key, o, finalizers) && finalizers != []
    ensures Stored(w, key) && At(w, key, Live(w, key))
  {}

  /** A synced pass over a deleted object takes its stored finalizers one step
      further, and the object is gone exactly when none is left. */
  lemma PassSheds(w: World, key: Key)
    requires Terminating(w, key)
    ensures var w' := SyncedPass(w, key);
            && StoredFinalizers(w', key) == Shed(Live(w, key).finalizers)
            && (if Shed(Live(w, key).finalizers) == [] then key !in w'.live else Terminating(w', key))
            && (!HeadIsD(Live(w, key).finalizers) && K !in Live(w, key).finalizers ==> w'.versions == w.versions)
  {
    hide SyncStatus, ReconcileDeleting, Shed, EditStep, TakeTurn;
    var o := Live(w, key);
    RefreshedAt(w, key, o);
    var w0 := Refreshed(w, key);
    TurnUndisturbed(w0);
    var w1 := TakeTurn(w0);
    UndisturbedAt(w0, w1, key, o);
    DeletingPass(w1, key, o);
  }

  /** So do any number of passes. */
  lemma {:induction false} PassesShed(w: World, key: Key, n: nat)
    requires Terminating(w, key)
    ensures StoredFinalizers(TeardownPasses(w, key, n), key) == ShedAll(Live(w, key).finalizers, n)
    ensures ShedAll(Live(w, key).finalizers, n) == [] ==> key !in TeardownPasses(w, key, n).live
    decreases n
  {
    hide SyncedPass, Shed;
    if n > 0 {
      PassSheds(w, key);
      var next := SyncedPass(w, key);
      if Shed(Live(w, key).finalizers) == [] {
        ShedShrinks([]);
        ShedFixed([], n - 1);
      } else {
        PassesShed(next, key, n - 1);
      }
    }
  }

  // ----- the lists

  lemma {:induction false} SortedSize(finalizers: seq<string>)
    ensures |Elements(finalizers)| <= |finalizers|
  {
    if finalizers != [] {
      SortedSize(finalizers[1..]);
      assert Elements(finalizers) == {finalizers[0]} + Elements(finalizers[1..]);
    }
  }

  /** Either the list gets shorter or it never changes again. */
  lemma ShedShrinks(finalizers: seq<string>)
    ensures if HeadIsD(finalizers) || K in finalizers then |Shed(finalizers)| < |finalizers|
            else Shed(finalizers) == finalizers
  {
    if !HeadIsD(finalizers) && K in finalizers {
      SortedSize(finalizers);
    }
  }

  lemma {:induction false} ShedFixed(finalizers: seq<string>, n: nat)
    requires !HeadIsD(finalizers) && K !in finalizers
    ensures ShedAll(finalizers, n) == finalizers
    decreases n
  {
    if n > 0 {
      ShedFixed(finalizers, n - 1);
    }
  }

  /** The operator's own finalizers. */
  function OperatorsOwn(): set<string> {
    {K, D}
  }

  /** Nobody else's finalizer is touched, and none is added. */
  lemma ShedElements(finalizers: seq<string>)
    ensures Elements(finalizers) - OperatorsOwn() <= Elements(Shed(finalizers)) <= Elements(finalizers)
  {
    if HeadIsD(finalizers) {
      assert finalizers == [D] + finalizers[1..];
    }
  }

  lemma {:induction false} ShedAllElements(finalizers: seq<string>, n: nat)
    ensures Elements(finalizers) - OperatorsOwn() <= Elements(ShedAll(finalizers, n)) <= Elements(finalizers)
    decreases n
  {
    hide Shed, Elements, OperatorsOwn;
    if n > 0 {
      ShedElements(finalizers);
      ShedAllElements(Shed(finalizers), n - 1);
    }
  }

  lemma OwnShrinks(finalizers: seq<string>)
    requires Elements(finalizers) <= OperatorsOwn()
    ensures finalizers != [] ==> |Shed(finalizers)| < |finalizers|
  {
    hide Shed;
    ShedShrinks(finalizers);
    if finalizers != [] {
      assert finalizers[0] in Elements(finalizers);
      assert finalizers[0] == D || finalizers[0] == K;
    }
  }

  /** Within as many passes as there are finalizers the object is gone, exactly
      when all of them are the operator's own; each pass before that shrinks the
      list. */
  lemma {:induction false} OwnFinalizersVanish(finalizers: seq<string>, n: nat)
    requires n >= |finalizers|
    ensures ShedAll(finalizers, n) == [] <==> Elements(finalizers) <= OperatorsOwn()
    ensures Elements(finalizers) <= OperatorsOwn() && finalizers != [] ==> |Shed(finalizers)| < |finalizers|
    decreases n
  {
    hide Shed, OperatorsOwn, HeadIsD;
    ShedAllElements(finalizers, n);
    if Elements(finalizers) <= OperatorsOwn() {
      OwnShrinks(finalizers);
      if finalizers == [] {
        assert ShedAll(finalizers, n) == [] by {
          assert Elements(ShedAll(finalizers, n)) == {};
          NoElements(ShedAll(finalizers, n));
        }
      } else {
        ShedElements(finalizers);
        OwnFinalizersVanish(Shed(finalizers), n - 1);
      }
    } else {
      var other :| other in Elements(finalizers) && other !in OperatorsOwn();
      assert other in Elements(ShedAll(finalizers, n));
    }
  }

  predicate NoDuplicates(finalizers: seq<string>) {
    forall i, j | 0 <= i < j < |finalizers| :: finalizers[i] != finalizers[j]
  }

  /** The place D must have: nowhere, or at the head (again and again, if it is
      listed more than once), or before all others once K has gone and the rest is
      listed in order. */
  ghost predicate DWillLead(finalizers: seq<string>)
    decreases |finalizers|
  {
    D !in finalizers ||
    if HeadIsD(finalizers) then DWillLead(finalizers[1..])
    else K in finalizers && ForemostD(finalizers)
  }

  /** D comes before everyone else's finalizers, compared by characters. */
  ghost predicate ForemostD(finalizers: seq<string>) {
    forall x | x in finalizers && x != K && x != D :: Precedes(D, x)
  }

  lemma ForemostIsLeast(finalizers: seq<string>)
    requires D in finalizers
    ensures ForemostD(finalizers) <==> IsLeast(D, Elements(finalizers) - {K})
  {
    hide LexLeq, Precedes;
    KIsNotD();
    forall x ensures LexLeq(D, x) <==> x == D || Precedes(D, x) {
      LexLeqExactly(D, x);
    }
  }

  /** What a pass leaves of a list: D at the head is cut; otherwise K goes, and
      the others are listed in ascending order. */
  lemma ShedAscends(finalizers: seq<string>)
    ensures HeadIsD(finalizers) ==> finalizers == [D] + Shed(finalizers)
    ensures !HeadIsD(finalizers) && K in finalizers ==>
              Ascending(Shed(finalizers)) && Elements(Shed(finalizers)) == Elements(finalizers) - {K}
  {
    SortedAscends(Elements(finalizers) - {K});
  }

  /** As many passes as there are finalizers, or more, release D exactly if it has
      its place; K they always clear. */
  lemma {:induction false} DReleased(finalizers: seq<string>, n: nat)
    requires n >= |finalizers|
    ensures D !in ShedAll(finalizers, n) <==> DWillLead(finalizers)
    ensures K !in ShedAll(finalizers, n)
    decreases |finalizers|
  {
    hide ForemostD, Shed, Elements;
    ShedAllElements(finalizers, n);
    ElementsOf(finalizers, ShedAll(finalizers, n));
    if HeadIsD(finalizers) {
      HeadShed(finalizers);
      DReleased(finalizers[1..], n - 1);
    } else if K in finalizers {
      SecondAfterK(finalizers);
      HeadIsListed(Shed(finalizers));
      ShedAfterK(finalizers, n);
    } else {
      ShedFixed(finalizers, n);
    }
  }

  lemma ElementsOf(a: seq<string>, b: seq<string>)
    ensures Elements(b) <= Elements(a) ==> forall x | x in b :: x in a
  {
    if Elements(b) <= Elements(a) {
      forall x | x in b ensures x in a {
        assert x in Elements(b);
      }
    }
  }

  lemma HeadIsListed(finalizers: seq<string>)
    ensures HeadIsD(finalizers) ==> D in finalizers
  {}

  lemma HeadShed(finalizers: seq<string>)
    requires HeadIsD(finalizers)
    ensures finalizers != [] && Shed(finalizers) == finalizers[1..]
  {}

  /** D not at the head and K listed: K goes first, and D next or never. */
  lemma ShedAfterK(finalizers: seq<string>, n: nat)
    requires !HeadIsD(finalizers) && K in finalizers && n >= |finalizers|
    requires K !in Shed(finalizers)
    requires D in finalizers ==> HeadIsD(Shed(finalizers)) || D in Shed(finalizers)
    requires HeadIsD(Shed(finalizers)) ==> D in finalizers && D !in Elements(Shed(Shed(finalizers)))
    ensures K !in ShedAll(finalizers, n)
    ensures D in finalizers ==> (D !in ShedAll(finalizers, n) <==> HeadIsD(Shed(finalizers)))
  {
    hide Shed, Elements;
    var first := Shed(finalizers);
    assert ShedAll(finalizers, n) == ShedAll(first, n - 1);
    ShedAllElements(first, n - 1);
    ElementsOf(first, ShedAll(first, n - 1));
    if HeadIsD(first) {
      KIsNotD();
      TwoMembers(finalizers, K, D);
      var second := Shed(first);
      assert ShedAll(first, n - 1) == ShedAll(second, n - 2);
      ShedAllElements(second, n - 2);
      ElementsOf(second, ShedAll(second, n - 2));
      InElements(D, second);
    } else {
      ShedFixed(first, n - 1);
    }
  }

  lemma TwoMembers(list: seq<string>, a: string, b: string)
    requires a in list && b in list && a != b
    ensures |list| >= 2
  {}

  lemma KIsNotD()
    ensures K != D
  {
    assert D[0] != K[0];
  }

  /** Two passes are enough for a list without duplicates. */
  lemma DReleasedInTwo(finalizers: seq<string>, n: nat)
    requires NoDuplicates(finalizers) && D in finalizers && n >= 2
    ensures D !in ShedAll(finalizers, n) <==> DWillLead(finalizers)
    ensures K !in ShedAll(finalizers, n)
  {
    hide ForemostD;
    var first := Shed(finalizers);
    var second := Shed(first);
    assert D[0] != K[0];
    assert ShedAll(finalizers, n) == ShedAll(first, n - 1) == ShedAll(second, n - 2);
    ShedAllElements(second, n - 2);
    if HeadIsD(finalizers) {
      HeadOnce(finalizers);
      SecondAfterHead(first);
    } else if K in finalizers {
      SecondAfterK(finalizers);
      if !HeadIsD(first) {
        ShedFixed(first, n - 1);
      }
    } else {
      ShedFixed(finalizers, n);
    }
  }

  lemma HeadOnce(finalizers: seq<string>)
    requires NoDuplicates(finalizers) && HeadIsD(finalizers)
    ensures D !in Shed(finalizers)
  {}

  /** D gone, the second pass sees to K. */
  lemma SecondAfterHead(first: seq<string>)
    requires D !in first
    ensures D !in Elements(Shed(first)) && K !in Elements(Shed(first))
  {
    ShedElements(first);
    assert !HeadIsD(first);
    if K in first {
      SortedWithoutK(first);
    }
  }

  /** K gone and the rest sorted: D leads if it is the least. */
  lemma SecondAfterK(finalizers: seq<string>)
    requires !HeadIsD(finalizers) && K in finalizers
    ensures var first := Shed(finalizers);
            && K !in first && (D in finalizers <==> D in first)
            && (D in finalizers ==> (HeadIsD(first) <==> ForemostD(finalizers)))
            && (HeadIsD(first) ==> D !in Elements(Shed(first)) && K !in Elements(Shed(first)))
  {
    hide ForemostD;
    if D in finalizers {
      ForemostIsLeast(finalizers);
    }
    var rest := Elements(finalizers) - {K};
    var first := Shed(finalizers);
    SortedWithoutK(finalizers);
    assert D[0] != K[0];
    assert D in first <==> D in Elements(first);
    assert rest == Elements(first);
    LeastIsUnique(rest);
    SortedListIsDuplicateFree(rest);
    if HeadIsD(first) {
      HeadOnce(first);
    }
  }

  lemma {:induction false} SortedListIsDuplicateFree(s: set<string>)
    ensures NoDuplicates(SortedList(s))
    decreases |s|
  {
    if s != {} {
      var m := Least(s);
      var rest := SortedList(s - {m});
      SortedListIsDuplicateFree(s - {m});
      assert m !in Elements(rest);
    }
  }

  // ----- the theorems, on the store

  /** Teardown terminates: a deleted object is gone after at most as many synced
      passes as it has finalizers (two, for K and D in either order) exactly when
      it carries no one else's. */
  lemma TeardownTerminates(w: World, key: Key, n: nat)
    requires Terminating(w, key) && n >= |Live(w, key).finalizers|
    ensures key !in TeardownPasses(w, key, n).live <==> Elements(Live(w, key).finalizers) <= OperatorsOwn()
  {
    hide At, TeardownPasses, Elements, OperatorsOwn, ShedAll;
    var finalizers := Live(w, key).finalizers;
    PassesShed(w, key, n);
    OwnFinalizersVanish(finalizers, n);
    if ShedAll(finalizers, n) != [] {
      StoredHasFinalizers(TeardownPasses(w, key, n), key);
    }
  }

  lemma StoredHasFinalizers(w: World, key: Key)
    requires StoredFinalizers(w, key) != []
    ensures key in w.live
  {}

  /** D comes off the stored object exactly if it leads the list, or will once K
      has gone and the rest is sorted: in as many synced passes as there are
      finalizers, in two if none is listed twice; otherwise it stays however many
      passes there are. K always goes. */
  lemma TeardownReleasesD(w: World, key: Key, n: nat)
    requires Terminating(w, key)
    requires n >= |Live(w, key).finalizers| ||
             (n >= 2 && NoDuplicates(Live(w, key).finalizers) && D in Live(w, key).finalizers)
    ensures D !in StoredFinalizers(TeardownPasses(w, key, n), key) <==> DWillLead(Live(w, key).finalizers)
    ensures K !in StoredFinalizers(TeardownPasses(w, key, n), key)
  {
    hide At, TeardownPasses, DWillLead, ShedAll;
    PassesShed(w, key, n);
    if n >= |Live(w, key).finalizers| {
      DReleased(Live(w, key).finalizers, n);
    } else {
      DReleasedInTwo(Live(w, key).finalizers, n);
    }
  }

  /** The stored list after a synced pass that D does not lead: without K, in
      ascending order; there is no other such list. */
  lemma StoredAscends(w: World, key: Key, expected: seq<string>)
    requires Terminating(w, key) && !HeadIsD(Live(w, key).finalizers) && K in Live(w, key).finalizers
    requires Ascending(expected) && Elements(expected) == Elements(Live(w, key).finalizers) - {K}
    ensures StoredFinalizers(SyncedPass(w, key), key) == expected
  {
    hide At, SyncedPass, Shed, Ascending;
    PassSheds(w, key);
    ShedAscends(Live(w, key).finalizers);
    AscendingIsUnique(Shed(Live(w, key).finalizers), expected);
  }

  /** On a list that D does not lead and that holds K, anyone else's finalizer
      that comes before D keeps D there for good. */
  lemma ForeignFinalizerKeepsD(finalizers: seq<string>, other: string, n: nat)
    requires D in finalizers && K in finalizers && !HeadIsD(finalizers)
    requires other in finalizers && other != K && Precedes(other, D)
    ensures D in ShedAll(finalizers, n)
  {
    hide Precedes, Shed;
    PrecedesIsStrict(other, D);
    SecondAfterK(finalizers);
    if n > 0 {
      ShedFixed(Shed(finalizers), n - 1);
    }
  }

  /** With one foreign finalizer between K and D, whose first character is another
      than D's: D goes exactly if its own is the smaller, in two passes or never. */
  lemma FirstCharactersDecide(w: World, key: Key, x: string, n: nat)
    requires Terminating(w, key) && Live(w, key).finalizers == [K, x, D] && n >= 2
    requires x != "" && x[0] != 'd' && x != K
    ensures D !in StoredFinalizers(TeardownPasses(w, key, n), key) <==> 'd' < x[0]
    ensures 'd' < x[0] ==> StoredFinalizers(SyncedPass(w, key), key) == [D, x]
    ensures x[0] < 'd' ==> StoredFinalizers(SyncedPass(w, key), key) == [x, D]
  {
    hide At, TeardownPasses, SyncedPass, Precedes;
    var finalizers := Live(w, key).finalizers;
    assert D[0] == 'd' != K[0];
    FirstCharacterDecides(D, x);
    FirstCharacterDecides(x, D);
    assert Elements([K, x, D]) - {K} == {x, D} == Elements([x, D]) == Elements([D, x]);
    StoredAscends(w, key, if 'd' < x[0] then [D, x] else [x, D]);
    TeardownReleasesD(w, key, n);
  }
}
