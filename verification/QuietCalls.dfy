/** The calls of a pass when nobody interferes: no edit, no lost call, every
    apply succeeds and every Deployment is available. Only the clock runs, and
    conflicts with the operator's own writes remain. */
module QuietCalls {
  import opened Passes
  import opened Resources
  import opened World

  predicate QuietTurn(t: Turn) {
    t.edits == [] && t.fault == NoFault && Available(t.deployment)
  }

  predicate Quiet(w: World) {
    forall t | t in w.turns :: QuietTurn(t)
  }

  /** Only the script and the clock moved on. */
  predicate Later(a: World, b: World) {
    b == a.(turns := b.turns, now := b.now)
  }

  lemma TurnPasses(w: World)
    requires Quiet(w)
    ensures QuietTurn(NextTurn(w)) && Quiet(TakeTurn(w)) && Later(w, TakeTurn(w))
  {
    if w.turns != [] {
      assert w.turns[0] in w.turns;
    }
  }

  /** `o` is what the server stores under `key`. */
  predicate At(w: World, key: Key, o: Serving) {
    && Quiet(w) && Stored(w, key) && key.name != ""
    && Live(w, key) == o && o.rv == w.live[key] && o.key == key
    && !w.versions[w.live[key]].gone
  }

  /** What no call to the server changes. */
  predicate Kept(a: World, b: World) {
    && b.config == a.config && b.cache == a.cache && b.servings == a.servings
    && |a.versions| <= |b.versions|
  }

  /** Nothing that matters to the next call changed. */
  predicate Undisturbed(a: World, b: World) {
    && b.config == a.config && b.cache == a.cache && b.servings == a.servings
    && b.versions == a.versions && b.live == a.live && Quiet(b)
  }

  lemma UndisturbedAt(a: World, b: World, key: Key, o: Serving)
    requires At(a, key, o) && Undisturbed(a, b)
    ensures At(b, key, o)
  {}

  lemma TurnUndisturbed(w: World)
    requires Quiet(w)
    ensures Undisturbed(w, TakeTurn(w)) && QuietTurn(NextTurn(w))
  {
    hide TakeTurn;
    TurnPasses(w);
  }

  // ----- writes

  lemma CommitAt(w: World, key: Key, o: Serving, obj: Serving)
    requires At(w, key, o) && obj.key == key && !(obj.deleting && obj.finalizers == [])
    ensures At(Commit(w, obj, true), key, obj.(rv := |w.versions|)) && Kept(w, Commit(w, obj, true))
    ensures o.rv < |w.versions|
  {}

  lemma PatchAt(w0: World, key: Key, o: Serving, finalizers: seq<string>)
    requires At(w0, key, o) && !(o.deleting && finalizers == []) && FinalizersAllowed(o, finalizers)
    ensures var reply := Patch(w0, key, o.rv, finalizers);
            && reply.result == Ok(o.(finalizers := finalizers, rv := |w0.versions|))
            && At(reply.w, key, reply.result.value) && Kept(w0, reply.w) && o.rv < |w0.versions|
  {
    hide TakeTurn, Commit;
    TurnUndisturbed(w0);
    var w := TakeTurn(w0);
    CommitAt(w, key, o, o.(finalizers := finalizers));
  }

  lemma UpdateAt(w0: World, o: Serving, sent: Serving)
    requires At(w0, sent.key, o) && sent.rv == o.rv && sent.labels == o.labels && sent.spec == o.spec
    requires !(o.deleting && sent.finalizers == []) && FinalizersAllowed(o, sent.finalizers)
    ensures var reply := Update(w0, sent);
            && reply.result == Ok(o.(finalizers := sent.finalizers, rv := |w0.versions|))
            && At(reply.w, sent.key, reply.result.value) && Kept(w0, reply.w) && o.rv < |w0.versions|
  {
    hide TakeTurn, Commit;
    TurnUndisturbed(w0);
    var w := TakeTurn(w0);
    CommitAt(w, sent.key, o, o.(finalizers := sent.finalizers));
  }

  lemma UpdateStatusAt(w0: World, o: Serving, sent: Serving)
    requires At(w0, sent.key, o) && sent.rv == o.rv && !(o.deleting && o.finalizers == [])
    ensures var reply := UpdateStatus(w0, sent);
            && reply.result == Ok(o.(status := sent.status, rv := |w0.versions|))
            && At(reply.w, sent.key, reply.result.value) && Kept(w0, reply.w) && o.rv < |w0.versions|
  {
    hide TakeTurn, Commit;
    TurnUndisturbed(w0);
    var w := TakeTurn(w0);
    assert FinalizersAllowed(o, []);
    CommitAt(w, sent.key, o, o.(status := sent.status));
  }

  /** The operator's own earlier write makes a later one conflict. */
  lemma UpdateStatusConflicts(w0: World, o: Serving, sent: Serving)
    requires At(w0, sent.key, o) && sent.rv != o.rv
    ensures var reply := UpdateStatus(w0, sent);
            reply.result == Err(Conflict) && Undisturbed(w0, reply.w)
  {
    hide TakeTurn;
    TurnUndisturbed(w0);
  }

  lemma FetchAt(w0: World, key: Key, o: Serving)
    requires At(w0, key, o)
    ensures Fetch(w0, key).result == Ok(o) && Undisturbed(w0, Fetch(w0, key).w)
  {
    hide TakeTurn;
    TurnUndisturbed(w0);
  }

  /** The status loop stores the desired status at the latest on its second
      attempt. */
  lemma RetryAt(w0: World, o: Serving, original: Serving, desired: Serving)
    requires At(w0, desired.key, o) && original.key == desired.key && !(o.deleting && o.finalizers == [])
    requires original.status != desired.status
    ensures var p := UpdateStatusFrom(w0, 0, original, desired);
            && p.out == Fine && Kept(w0, p.w) && Stored(p.w, desired.key)
            && var o' := Live(p.w, desired.key);
               At(p.w, desired.key, o') && o' == o.(status := desired.status, rv := o'.rv) && o.rv <= o'.rv
  {
    hide UpdateStatus, Fetch;
    var sent := original.(status := desired.status);
    if original.rv == o.rv {
      UpdateStatusAt(w0, o, sent);
    } else {
      UpdateStatusConflicts(w0, o, sent);
      var w1 := UpdateStatus(w0, sent).w;
      UndisturbedAt(w0, w1, desired.key, o);
      SecondAttempt(w1, o, original, desired);
    }
  }

  lemma SecondAttempt(w0: World, o: Serving, existing: Serving, desired: Serving)
    requires At(w0, desired.key, o) && !(o.deleting && o.finalizers == [])
    ensures var p := UpdateStatusFrom(w0, 1, existing, desired);
            && p.out == Fine && Kept(w0, p.w) && Stored(p.w, desired.key)
            && var o' := Live(p.w, desired.key);
               At(p.w, desired.key, o') && o' == o.(status := desired.status, rv := o'.rv) && o.rv <= o'.rv
  {
    hide UpdateStatus, Fetch;
    FetchAt(w0, desired.key, o);
    var w := Fetch(w0, desired.key).w;
    UndisturbedAt(w0, w, desired.key, o);
    if o.status != desired.status {
      UpdateStatusAt(w, o, o.(status := desired.status));
    }
  }

  // ----- applies, probes and deletions

  lemma {:induction false} ApplyPhaseUndisturbed(w: World, instance: Serving, rs: seq<Resource>)
    requires Quiet(w)
    ensures var p := ApplyPhase(w, instance, rs); p.ok && Undisturbed(w, p.w)
    decreases |rs|
  {
    hide TakeTurn;
    if rs != [] {
      TurnUndisturbed(w);
      ApplyPhaseUndisturbed(ApplyOne(w, instance, rs[0]).w, instance, rs[1..]);
    }
  }

  lemma {:induction false} ApplyPhasesUndisturbed(w: World, instance: Serving, phases: seq<seq<Resource>>)
    requires Quiet(w)
    ensures var p := ApplyPhases(w, instance, phases); p.ok && Undisturbed(w, p.w)
    decreases |phases|
  {
    hide ApplyPhase;
    if phases != [] {
      ApplyPhaseUndisturbed(w, instance, phases[0]);
      ApplyPhasesUndisturbed(ApplyPhase(w, instance, phases[0]).w, instance, phases[1..]);
    }
  }

  lemma {:induction false} ProbeUndisturbed(w: World, deployments: seq<Resource>)
    requires Quiet(w)
    ensures var p := ProbeDeployments(w, deployments); p.verdict == AllAvailable && Undisturbed(w, p.w)
    decreases |deployments|
  {
    hide TakeTurn;
    if deployments != [] {
      TurnUndisturbed(w);
      ProbeUndisturbed(TakeTurn(w), deployments[1..]);
    }
  }

  lemma {:induction false} DeletePhaseUndisturbed(w: World, rs: seq<Resource>)
    requires Quiet(w)
    ensures DeletePhase(w, rs).ok && Undisturbed(w, DeletePhase(w, rs).w)
    decreases |rs|
  {
    hide TakeTurn;
    if rs != [] {
      TurnUndisturbed(w);
      DeletePhaseUndisturbed(DeleteOne(w, rs[0]).w, rs[1..]);
    }
  }

  lemma {:induction false} DeletePhasesUndisturbed(w: World, phases: seq<seq<Resource>>)
    requires Quiet(w)
    ensures var p := DeletePhases(w, phases); p.ok && Undisturbed(w, p.w)
    decreases |phases|
  {
    hide DeletePhase;
    if phases != [] {
      DeletePhaseUndisturbed(w, phases[0]);
      DeletePhasesUndisturbed(DeletePhase(w, phases[0]).w, phases[1..]);
    }
  }
}
