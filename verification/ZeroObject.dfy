/** What a failed finalizer patch leaves behind: the pass goes on with the zero
    object, whose key the operator then remembers as one more KnativeServing. */
module ZeroObject {
  import opened Generations
  import opened Invariant
  import opened LivePath
  import opened Passes
  import opened RoundTrip
  import opened Safety
  import opened Tracking
  import opened World
  import opened Writes
  import Text

  /** When the object is listed again K is missing from it, and the patch that
      adds it is lost or refused. */
  predicate PatchOfKFails(w: World, key: Key) {
    var w1 := TakeTurn(w);
    var again := Listed(w1, key);
    && again.Some? && K !in again.value.finalizers
    && (NextTurn(w1).fault != NoFault ||
        Refusal(TakeTurn(w1), key, again.value.rv, again.value.finalizers + [K]).Some?)
  }

  /** A pass over a live object whose finalizer patch fails. */
  predicate ZeroPass(w0: World, e: Event) {
    e.PassOver? &&
    var w := TakeTurn(w0);
    var listed := Listed(w, e.key);
    listed.Some? && !listed.value.deleting && PatchOfKFails(w, e.key)
  }

  /** That is when the pass goes on with the zero object. */
  lemma ZeroInstance(w: World, o: Serving)
    requires o.key.name != ""
    ensures SetFinalizer(w, o).obj == ZERO <==> PatchOfKFails(w, o.key)
  {
    hide TakeTurn, Refusal, Patch;
    var resource := o.(finalizers := Text.SortedList(Text.Elements(o.finalizers) + {K}));
    assert K in Text.Elements(resource.finalizers);
    var w1 := TakeTurn(w);
    var again := Listed(w1, o.key);
    if again.Some? && K !in again.value.finalizers {
      PatchSucceeds(w1, o.key, again.value.rv, again.value.finalizers + [K]);
    }
  }

  /** A patch is acknowledged exactly if it is neither lost nor refused. */
  lemma PatchSucceeds(w: World, key: Key, rv: int, finalizers: seq<string>)
    requires key.name != ""
    ensures var reply := Patch(w, key, rv, finalizers);
            && (reply.result.Ok? <==> NextTurn(w).fault == NoFault && Refusal(TakeTurn(w), key, rv, finalizers).None?)
            && (reply.result.Ok? ==> reply.result.value != ZERO)
  {
    hide TakeTurn;
  }

  predicate SomeZeroPass(w: World, events: seq<Event>)
    decreases |events|
  {
    events != [] && (ZeroPass(w, events[0]) || SomeZeroPass(Happen(w, events[0]), events[1..]))
  }

  /** The call a pass makes to the gate is for the zero key exactly if its
      instance is the zero object; no finalization ever forgets that key. */
  lemma PassTracksZero(w0: World, key: Key)
    requires Inv(w0)
    ensures forall c | c in CallsOfPass(w0, key) :: c.key == ZERO.key ==> c.Arrival?
    ensures ZERO.key in Reconcile(w0, key).w.servings <==> ZERO.key in w0.servings || ZeroPass(w0, PassOver(key))
  {
    hide Inv, TakeTurn, SetFinalizer, Reconcile, Snap, Env, PatchOfKFails;
    var w := TakeTurn(w0);
    TurnKeeps(w0);
    PassTracks(w0, key);
    TracksServings(w0, CallsOfPass(w0, key), Reconcile(w0, key).w);
    var listed := Listed(w, key);
    if listed.Some? {
      ListedIsSnap(w, key);
      NamedKey(w, key);
      if listed.value.deleting {
        OneCall(w0.servings, Departure(key));
      } else {
        PreparedKey(w, listed.value);
        ZeroInstance(w, listed.value);
        var instance := SetFinalizer(w, listed.value).obj;
        OneCall(w0.servings, Arrival(instance.key, instance.generation));
      }
    }
  }

  lemma TracksServings(a: World, calls: seq<Call>, b: World)
    requires Tracks(a, calls, b)
    ensures b.servings == TrackAll(a.servings, calls)
  {}

  /** In every run of one process, the zero key is among the generations exactly if
      it was, or some pass's instance was the zero object. */
  lemma {:induction false} ZeroKeyTracked(w: World, events: seq<Event>)
    requires Inv(w) && Uninterrupted(w, events)
    ensures ZERO.key in Run(w, events).servings <==> ZERO.key in w.servings || SomeZeroPass(w, events)
    decreases |events|
  {
    hide Inv, TakeTurn, Reconcile, ZeroPass;
    if events != [] {
      var next := Happen(w, events[0]);
      HappenKeeps(w, events[0]);
      if events[0].PassOver? {
        PassTracksZero(w, events[0].key);
      } else {
        TurnKeepsServings(w);
        NoZeroPass(w, events[0]);
      }
      ZeroKeyTracked(next, events[1..]);
    }
  }

  lemma NoZeroPass(w: World, e: Event)
    ensures ZeroPass(w, e) ==> e.PassOver?
  {}

  // ----- and then nothing is ever deleted

  lemma NamedIsNotZero(w: World, key: Key)
    requires Inv(w)
    ensures Listed(TakeTurn(w), key).Some? ==> key != ZERO.key
  {
    hide Inv, TakeTurn, Snap, Env;
    TurnKeeps(w);
    if Listed(TakeTurn(w), key).Some? {
      ListedIsSnap(TakeTurn(w), key);
      NamedKey(TakeTurn(w), key);
    }
  }

  /** A pass that finds no live object while the zero key is remembered leaves the
      cluster as it is, whichever object it finalizes. */
  lemma NoTeardownWithZero(w: World, key: Key)
    requires Inv(w) && ZERO.key in w.servings && NothingLive(w, key)
    ensures SameCluster(w, Reconcile(w, key).w)
  {
    hide Inv, TakeTurn, ReconcileDeleting, SyncStatus;
    NamedIsNotZero(w, key);
    if key == ZERO.key {
      TurnSameCluster(w);
    } else {
      NoTeardownWithOther(w, key, ZERO.key);
    }
  }

  /** One failed patch is enough: in every later part of the run of that process,
      no finalization of any object deletes anything. */
  lemma ZeroObjectStopsTeardown(w: World, events: seq<Event>, key: Key)
    requires Inv(w) && Uninterrupted(w, events) && SomeZeroPass(w, events)
    requires NothingLive(Run(w, events), key)
    ensures SameCluster(Run(w, events), Reconcile(Run(w, events), key).w)
  {
    hide Inv, Run, Reconcile, NothingLive, SomeZeroPass;
    RunKeeps(w, events);
    ZeroKeyTracked(w, events);
    NoTeardownWithZero(Run(w, events), key);
  }
}
