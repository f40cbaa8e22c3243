/** Which keys the operator remembers, over every run, and what that decides:
    whether a finalization deletes the manifest. */
module Tracking {
  import opened Conditions
  import opened Generations
  import opened Invariant
  import opened LivePath
  import opened Passes
  import opened RoundTrip
  import opened Safety
  import opened World
  import opened Writes
  import Text

  // ----- the last call decides

  /** The last of some calls that is about a key. */
  function LastCall(calls: seq<Call>, key: Key): Option<Call>
    decreases |calls|
  {
    if calls == [] then None
    else
      var later := LastCall(calls[1..], key);
      if later.Some? then later else if calls[0].key == key then Some(calls[0]) else None
  }

  predicate LastArrives(calls: seq<Call>, key: Key) {
    LastCall(calls, key).Some? && LastCall(calls, key).value.Arrival?
  }

  lemma {:induction false} TrackedByLastCall(servings: map<Key, int>, calls: seq<Call>, key: Key)
    ensures key in TrackAll(servings, calls) <==>
            if LastCall(calls, key).Some? then LastArrives(calls, key) else key in servings
    decreases |calls|
  {
    if calls != [] {
      TrackedByLastCall(Track(servings, calls[0]), calls[1..], key);
    }
  }

  // ----- over every run

  /** A restart, or a pass that panics. */
  predicate EndsProcess(w: World, e: Event) {
    e.Restarting? || (e.PassOver? && Reconcile(w, e.key).out == Panicking)
  }

  /** What passes have asked of the tracked generations since the process at work
      at the end started, `calls` being those asked so far. */
  function CallsOfProcess(calls: seq<Call>, w: World, events: seq<Event>): seq<Call>
    decreases |events|
  {
    if events == [] then calls
    else
      var next := Happen(w, events[0]);
      if EndsProcess(w, events[0]) then CallsOfProcess([], next, events[1..])
      else if events[0].PassOver? then CallsOfProcess(calls + CallsOfPass(w, events[0].key), next, events[1..])
      else CallsOfProcess(calls, next, events[1..])
  }

  lemma {:induction false} ProcessTracks(calls: seq<Call>, w: World, events: seq<Event>)
    requires w.servings == TrackAll(map[], calls)
    ensures Run(w, events).servings == TrackAll(map[], CallsOfProcess(calls, w, events))
    decreases |events|
  {
    hide Reconcile, TakeTurn, CallsOfPass, ReportsIn, Track;
    if events != [] {
      var next := Happen(w, events[0]);
      if EndsProcess(w, events[0]) {
        ProcessTracks([], next, events[1..]);
      } else if events[0].PassOver? {
        var now := CallsOfPass(w, events[0].key);
        PassTracks(w, events[0].key);
        TrackAppend(map[], calls, now);
        ProcessTracks(calls + now, next, events[1..]);
      } else {
        TurnSilent(w);
        ProcessTracks(calls, next, events[1..]);
      }
    }
  }

  /** In every run, with crashes and restarts: the operator remembers exactly the
      keys whose last call, since its process started, was an arrival. What became
      of the object meanwhile does not matter. */
  lemma RemembersArrivals(w: World, events: seq<Event>, key: Key)
    requires Initial(w)
    ensures key in Run(w, events).servings <==> LastArrives(CallsOfProcess([], w, events), key)
  {
    hide Run, CallsOfProcess;
    ProcessTracks([], w, events);
    TrackedByLastCall(map[], CallsOfProcess([], w, events), key);
  }

  // ----- what a finalization deletes

  /** While another key is remembered, finalizing deletes nothing. */
  lemma FinalizeWithOther(w: World, o: Serving, other: Key)
    requires other in w.servings && other != o.key
    ensures SameCluster(w, FinalizeKind(w, o).w)
  {
    hide DropFinalizer, HeadIsD;
    var servings := w.servings - {o.key};
    assert other in servings;
    var begun := w.(servings := servings, log := w.log + [Finalizing(o.key, servings != map[])]);
    DropFinalizerSameCluster(begun, o.key);
  }

  lemma DeletingPassWithOther(w: World, o: Serving, other: Key)
    requires other in w.servings && other != o.key
    ensures SameCluster(w, ReconcileDeleting(w, o).w)
  {
    hide FinalizeKind, UpdateFinalizersFiltered;
    FinalizeWithOther(w, o, other);
    var finalized := FinalizeKind(w, o);
    var finalizers := Text.Elements(o.finalizers);
    var kept := if finalized.out == Fine then finalizers - {K} else finalizers;
    FilteredSameCluster(finalized.w, o.(finalizers := Text.SortedList(kept)));
  }

  /** A pass that finds no live object while another key is remembered leaves the
      cluster as it is, however it ends. */
  lemma NoTeardownWithOther(w0: World, key: Key, other: Key)
    requires Inv(w0) && other in w0.servings && other != key && NothingLive(w0, key)
    ensures SameCluster(w0, Reconcile(w0, key).w)
  {
    hide Inv, TakeTurn, ReconcileDeleting, SyncStatus, Snap, Env;
    var w := TakeTurn(w0);
    TurnKeeps(w0);
    TurnSameCluster(w0);
    TurnKeepsServings(w0);
    var listed := Listed(w, key);
    if listed.Some? {
      ListedIsSnap(w, key);
      var pass := ReconcileDeleting(w, listed.value);
      DeletingPassWithOther(w, listed.value, other);
      SyncSameCluster(pass, listed.value);
    }
  }

  /** A finalization that D leads and that ends well has deleted what a teardown
      may if no other key is remembered, and nothing otherwise. */
  lemma FinalizationDeletesIff(w0: World, key: Key)
    requires Inv(w0) && FinalizingPass(w0, key)
    ensures Reconcile(w0, key).w.cluster ==
            if w0.servings.Keys <= {key} then w0.cluster - DeletableIds(w0.config) else w0.cluster
  {
    hide Inv, TakeTurn, ReconcileDeleting, Reconcile, HeadIsD, DeletableIds;
    if w0.servings.Keys <= {key} {
      PassDeletes(w0, key);
    } else {
      var other :| other in w0.servings && other != key;
      NoTeardownWithOther(w0, key, other);
    }
  }

  /** No other key's last call was an arrival. */
  ghost predicate OthersForgotten(calls: seq<Call>, key: Key) {
    forall other | other != key :: !LastArrives(calls, other)
  }

  /** In every run, whether such a finalization deletes the manifest is decided by
      the calls of its process: it does exactly if no other key's last call was an
      arrival. It is not decided by whether other objects exist. */
  lemma LastFinalization(w: World, events: seq<Event>, key: Key)
    requires Initial(w) && FinalizingPass(Run(w, events), key)
    ensures var end := Run(w, events);
            Reconcile(end, key).w.cluster ==
            if OthersForgotten(CallsOfProcess([], w, events), key) then end.cluster - DeletableIds(w.config)
            else end.cluster
  {
    hide Inv, Run, CallsOfProcess, FinalizingPass, Reconcile, LastArrives, DeletableIds, Grows;
    var end, calls := Run(w, events), CallsOfProcess([], w, events);
    InitialOK(w);
    RunKeeps(w, events);
    SameConfig(w, end);
    FinalizationDeletesIff(end, key);
    forall other ensures other in end.servings <==> LastArrives(calls, other) {
      RemembersArrivals(w, events, other);
    }
    assert OthersForgotten(calls, key) <==> end.servings.Keys <= {key};
  }
}
