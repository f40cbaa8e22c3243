/** The generation gate over every sequence of reconciliations and finalizations. */
module Generations {
  import opened Conditions
  import opened Lifecycle
  import opened Manifests
  import opened Passes
  import opened Resources
  import opened World
  import Text

  /** What the tracked generations are asked: to let an object through, or to
      forget a key. */
  datatype Call = Arrival(key: Key, generation: int) | Departure(key: Key)

  function Track(servings: map<Key, int>, c: Call): map<Key, int> {
    match c
    case Arrival(key, generation) => PassGate(servings, key, generation).servings
    case Departure(key) => servings - {key}
  }

  /** The generations of `key` that got through, in order. */
  function Accepted(servings: map<Key, int>, calls: seq<Call>, key: Key): seq<int>
    decreases |calls|
  {
    if calls == [] then []
    else
      var rest := Accepted(Track(servings, calls[0]), calls[1..], key);
      if calls[0].Arrival? && calls[0].key == key && PassGate(servings, key, calls[0].generation).open then
        [calls[0].generation] + rest
      else rest
  }

  /** How often a change of `key` was reported. */
  function Reports(servings: map<Key, int>, calls: seq<Call>, key: Key, change: Change): nat
    decreases |calls|
  {
    if calls == [] then 0
    else
      var rest := Reports(Track(servings, calls[0]), calls[1..], key, change);
      if calls[0].Arrival? && calls[0].key == key &&
         PassGate(servings, key, calls[0].generation).report == Some(change)
      then rest + 1 else rest
  }

  predicate Ascending(s: seq<int>) {
    forall i, j | 0 <= i < j < |s| :: s[i] <= s[j]
  }

  function Values(s: seq<int>): set<int> {
    set x | x in s
  }

  predicate Stays(calls: seq<Call>, key: Key) {
    Departure(key) !in calls
  }

  /** With `g` the last accepted generation: later ones never fall below it,
      no creation is reported, and edits count the new values. */
  lemma {:induction false} WhileTracked(servings: map<Key, int>, calls: seq<Call>, key: Key)
    requires key in servings && Stays(calls, key)
    ensures var accepted := Accepted(servings, calls, key);
            && Ascending([servings[key]] + accepted)
            && Reports(servings, calls, key, Creation) == 0
            && Reports(servings, calls, key, Edited) == |Values([servings[key]] + accepted)| - 1
    decreases |calls|
  {
    var g := servings[key];
    if calls == [] {
      assert Values([g] + []) == {g};
    } else {
      var next := Track(servings, calls[0]);
      assert calls[0] in calls;
      WhileTracked(next, calls[1..], key);
      var rest := Accepted(next, calls[1..], key);
      var g1 := next[key];
      if calls[0].Arrival? && calls[0].key == key && calls[0].generation >= g {
        assert Accepted(servings, calls, key) == [g1] + rest;
        AddFront(g, g1, rest);
      } else {
        assert g1 == g;
      }
    }
  }

  lemma AddFront(g: int, g1: int, rest: seq<int>)
    requires g <= g1 && Ascending([g1] + rest)
    ensures Ascending([g] + ([g1] + rest))
    ensures |Values([g] + ([g1] + rest))| == |Values([g1] + rest)| + if g == g1 then 0 else 1
  {
    var tail := [g1] + rest;
    assert tail[0] == g1 && forall i | 0 <= i < |tail| :: tail[0] <= tail[i];
    assert Values([g] + tail) == {g} + Values(tail);
    if g == g1 {
      assert g in Values(tail);
      assert {g} + Values(tail) == Values(tail);
    } else {
      assert g !in Values(tail);
    }
  }

  /** Whatever other keys do, from one finalization of a key (or the start of
      the process) to the next: the generations that reach the reconciler never
      decrease, at most one creation is reported, and only for generation 1, and
      the edits reported are the distinct generations that got through minus
      one, so at most the last minus the first. */
  lemma {:induction false} BetweenFinalizations(servings: map<Key, int>, calls: seq<Call>, key: Key)
    requires key !in servings && Stays(calls, key)
    ensures var accepted := Accepted(servings, calls, key);
            && Ascending(accepted)
            && Reports(servings, calls, key, Creation) == (if accepted != [] && accepted[0] == 1 then 1 else 0)
            && (accepted == [] ==> Reports(servings, calls, key, Edited) == 0)
            && (accepted != [] ==>
                  && Reports(servings, calls, key, Edited) == |Values(accepted)| - 1
                  && Reports(servings, calls, key, Edited) <= accepted[|accepted| - 1] - accepted[0])
    decreases |calls|
  {
    if calls != [] {
      assert calls[0] in calls;
      var next := Track(servings, calls[0]);
      if calls[0].Arrival? && calls[0].key == key {
        WhileTracked(next, calls[1..], key);
        var accepted := [calls[0].generation] + Accepted(next, calls[1..], key);
        assert Accepted(servings, calls, key) == accepted;
        SpreadBounds(accepted);
      } else {
        BetweenFinalizations(next, calls[1..], key);
      }
    }
  }

  /** An ascending list has no more values than its spread allows. */
  lemma {:induction false} SpreadBounds(s: seq<int>)
    requires s != [] && Ascending(s)
    ensures |Values(s)| - 1 <= s[|s| - 1] - s[0]
  {
    if |s| == 1 {
      assert Values(s) == {s[0]};
    } else {
      SpreadBounds(s[1..]);
      assert s == [s[0]] + s[1..];
      assert Values(s) == {s[0]} + Values(s[1..]);
      if s[0] == s[1] {
        assert s[1] in s[1..];
        assert Values(s) == Values(s[1..]);
      }
    }
  }

  // ----- the calls a run makes

  function TrackAll(servings: map<Key, int>, calls: seq<Call>): map<Key, int>
    decreases |calls|
  {
    if calls == [] then servings else TrackAll(Track(servings, calls[0]), calls[1..])
  }

  /** The reports in a log, in order. */
  function ReportsIn(log: seq<Action>): seq<Action> {
    if log == [] then []
    else if log[|log| - 1].Reported? then ReportsIn(log[..|log| - 1]) + [log[|log| - 1]]
    else ReportsIn(log[..|log| - 1])
  }

  /** The reports calls give rise to, in order. */
  function AllReports(servings: map<Key, int>, calls: seq<Call>): seq<Action>
    decreases |calls|
  {
    if calls == [] then []
    else
      var rest := AllReports(Track(servings, calls[0]), calls[1..]);
      match calls[0]
      case Departure(_) => rest
      case Arrival(key, generation) =>
        var report := PassGate(servings, key, generation).report;
        if report.Some? then [Reported(key, report.value)] + rest else rest
  }

  /** What a pass over a key asks of the tracked generations. */
  function CallsOfPass(w0: World, key: Key): seq<Call> {
    var w := TakeTurn(w0);
    var listed := Listed(w, key);
    if listed.None? then []
    else if listed.value.deleting then [Departure(listed.value.key)]
    else
      var instance := SetFinalizer(w, listed.value).obj;
      [Arrival(instance.key, instance.generation)]
  }

  predicate Silent(a: World, b: World) {
    a.servings == b.servings && ReportsIn(a.log) == ReportsIn(b.log)
  }

  lemma {:induction false} UnreportedTail(log: seq<Action>, more: seq<Action>)
    requires forall a | a in more :: !a.Reported?
    ensures ReportsIn(log + more) == ReportsIn(log)
  {
    if more == [] {
      assert log + more == log;
    } else {
      var all := log + more;
      assert more[|more| - 1] in more && all[|all| - 1] == more[|more| - 1];
      assert all[..|all| - 1] == log + more[..|more| - 1];
      UnreportedTail(log, more[..|more| - 1]);
    }
  }

  lemma EditSilent(w: World, e: Edit)
    ensures Silent(w, EditStep(w, e))
  {
    var w' := EditStep(w, e);
    UnreportedTail(w.log, [Wrote(|w.versions|, false)]);
  }

  lemma {:induction false} EditsSilent(w: World, edits: seq<Edit>)
    ensures Silent(w, EditAll(w, edits))
    decreases |edits|
  {
    hide EditStep;
    if edits != [] {
      EditSilent(w, edits[0]);
      EditsSilent(EditStep(w, edits[0]), edits[1..]);
    }
  }

  lemma TurnSilent(w: World)
    ensures Silent(w, TakeTurn(w))
  {
    hide EditAll;
    EditsSilent(w.(turns := if w.turns == [] then [] else w.turns[1..], now := NextTurn(w).now), NextTurn(w).edits);
  }

  lemma SendSilent(w: World, fault: Fault, refusal: Option<ApiError>, obj: Serving)
    ensures Silent(w, Send(w, fault, refusal, obj).w)
  {
    UnreportedTail(w.log, [Wrote(|w.versions|, true)]);
  }

  lemma CallsSilent(w: World, key: Key, rv: int, finalizers: seq<string>, sent: Serving)
    ensures Silent(w, Patch(w, key, rv, finalizers).w)
    ensures Silent(w, Update(w, sent).w)
    ensures Silent(w, UpdateStatus(w, sent).w)
    ensures Silent(w, Fetch(w, key).w)
  {
    hide Send, TakeTurn, ReportsIn;
    TurnSilent(w);
    var t := TakeTurn(w);
    forall fault, refusal, obj ensures Silent(t, Send(t, fault, refusal, obj).w) {
      SendSilent(t, fault, refusal, obj);
    }
  }

  lemma SilentTransitive(a: World, b: World, c: World)
    requires Silent(a, b) && Silent(b, c)
    ensures Silent(a, c)
  {}

  lemma {:induction false} RetrySilent(w0: World, attempt: nat, existing0: Serving, desired: Serving)
    requires attempt < ATTEMPTS
    ensures Silent(w0, UpdateStatusFrom(w0, attempt, existing0, desired).w)
    decreases ATTEMPTS - attempt
  {
    hide Fetch, UpdateStatus, Silent;
    var fetched := if attempt == 0 then Reply(w0, Ok(existing0)) else Fetch(w0, desired.key);
    CallsSilent(w0, desired.key, 0, [], desired);
    SilentReflexive(w0);
    if fetched.result.Ok? && fetched.result.value.status != desired.status {
      var existing := fetched.result.value;
      var sent := existing.(status := desired.status);
      var reply := UpdateStatus(fetched.w, sent);
      CallsSilent(fetched.w, desired.key, 0, [], sent);
      SilentTransitive(w0, fetched.w, reply.w);
      if reply.result.Err? && reply.result.error == Conflict && attempt + 1 < ATTEMPTS {
        RetrySilent(reply.w, attempt + 1, existing, desired);
        SilentTransitive(w0, reply.w, UpdateStatusFrom(reply.w, attempt + 1, existing, desired).w);
      }
    }
  }

  lemma SilentReflexive(w: World)
    ensures Silent(w, w)
  {}

  lemma FilteredSilent(w: World, resource: Serving)
    ensures Silent(w, UpdateFinalizersFiltered(w, resource).w)
  {
    hide TakeTurn, Patch, PatchDue, ReportsIn;
    TurnSilent(w);
    var t := TakeTurn(w);
    var existing := Listed(t, resource.key);
    if existing.Some? && PatchDue(resource, existing.value).Some? {
      CallsSilent(t, resource.key, existing.value.rv, PatchDue(resource, existing.value).value, resource);
    }
  }

  lemma ApplyOneSilent(w: World, instance: Serving, r: Resource)
    ensures Silent(w, ApplyOne(w, instance, r).w)
  {
    hide TakeTurn, ReportsIn;
    TurnSilent(w);
    var t := TakeTurn(w);
    UnreportedTail(t.log, [Applied(instance.uid, r.Id(), LiveVersion(t, instance.key))]);
  }

  lemma {:induction false} ApplyPhaseSilent(w: World, instance: Serving, rs: seq<Resource>)
    ensures Silent(w, ApplyPhase(w, instance, rs).w)
    decreases |rs|
  {
    hide ApplyOne, ReportsIn;
    if rs != [] {
      ApplyOneSilent(w, instance, rs[0]);
      ApplyPhaseSilent(ApplyOne(w, instance, rs[0]).w, instance, rs[1..]);
    }
  }

  lemma {:induction false} ApplyPhasesSilent(w: World, instance: Serving, phases: seq<seq<Resource>>)
    ensures Silent(w, ApplyPhases(w, instance, phases).w)
    decreases |phases|
  {
    hide ApplyPhase, ReportsIn;
    if phases != [] {
      ApplyPhaseSilent(w, instance, phases[0]);
      ApplyPhasesSilent(ApplyPhase(w, instance, phases[0]).w, instance, phases[1..]);
    }
  }

  lemma {:induction false} ProbeSilent(w: World, deployments: seq<Resource>)
    ensures Silent(w, ProbeDeployments(w, deployments).w)
    decreases |deployments|
  {
    hide TakeTurn, ReportsIn;
    if deployments != [] {
      TurnSilent(w);
      ProbeSilent(TakeTurn(w), deployments[1..]);
    }
  }

  lemma DeleteOneSilent(w: World, r: Resource)
    ensures Silent(w, DeleteOne(w, r).w)
  {
    hide TakeTurn, ReportsIn;
    TurnSilent(w);
    UnreportedTail(TakeTurn(w).log, [Removed(r.Id())]);
  }

  lemma {:induction false} DeletePhaseSilent(w: World, rs: seq<Resource>)
    ensures Silent(w, DeletePhase(w, rs).w)
    decreases |rs|
  {
    hide DeleteOne, ReportsIn;
    if rs != [] {
      DeleteOneSilent(w, rs[0]);
      DeletePhaseSilent(DeleteOne(w, rs[0]).w, rs[1..]);
    }
  }

  lemma {:induction false} DeletePhasesSilent(w: World, phases: seq<seq<Resource>>)
    ensures Silent(w, DeletePhases(w, phases).w)
    decreases |phases|
  {
    hide DeletePhase, ReportsIn;
    if phases != [] {
      DeletePhaseSilent(w, phases[0]);
      DeletePhasesSilent(DeletePhase(w, phases[0]).w, phases[1..]);
    }
  }

  lemma StageSilent(stage: Stage, w: World, manifest: seq<Resource>, instance: Serving)
    ensures Silent(w, RunStage(stage, w, manifest, instance).w)
  {
    hide TakeTurn, ReportsIn, Update, UpdateStatus, ApplyPhases, ProbeDeployments, DeletePhase, Marked;
    match stage
    case EnsuringFinalizer =>
      CallsSilent(w, instance.key, 0, [], instance.(finalizers := instance.finalizers + [D]));
    case InitializingStatus =>
      CallsSilent(w, instance.key, 0, [], WithMark(instance, Initializing, w.now));
    case Installing => ApplyPhasesSilent(w, instance, InstallPhases(manifest));
    case CheckingDeployments => ProbeSilent(w, Deployments(manifest));
    case DeletingObsolete => DeletePhaseSilent(w, Obsolete(instance.key.namespace));
  }

  lemma {:induction false} StagesSilent(stages: seq<Stage>, w: World, manifest: seq<Resource>, instance: Serving)
    ensures Silent(w, RunStages(stages, w, manifest, instance).w)
    decreases |stages|
  {
    hide RunStage, ReportsIn;
    if stages != [] {
      StageSilent(stages[0], w, manifest, instance);
      var first := RunStage(stages[0], w, manifest, instance);
      StagesSilent(stages[1..], first.w, manifest, first.obj);
    }
  }

  lemma ConvergeSilent(w: World, instance: Serving)
    ensures Silent(w, Converge(w, instance).w)
  {
    hide TakeTurn, RunStages, Render, ReportsIn, Marked;
    TurnSilent(w);
    var t := TakeTurn(w);
    var rendered := if NextTurn(w).fault == NoFault then Render(t.config, instance) else None;
    if rendered.Some? {
      StagesSilent(STAGES, t, rendered.value, instance);
    }
  }

  lemma DropFinalizerSilent(w: World, key: Key)
    ensures Silent(w, DropFinalizer(w, key).w)
  {
    hide TakeTurn, Update, ReportsIn;
    TurnSilent(w);
    var t := TakeTurn(w);
    var refetched := Listed(t, key);
    if refetched.Some? && refetched.value.finalizers != [] {
      var edited := refetched.value.(finalizers := refetched.value.finalizers[1..]);
      var at := t.cache[key].at;
      UnreportedTail(t.log, [Released(key, at)]);
      CallsSilent(t.(cache := t.cache[key := Entry(at, Some(edited))], released := t.released + {at},
                     log := t.log + [Released(key, at)]), key, 0, [], edited);
    }
  }

  lemma TeardownSilent(w: World, instance: Serving)
    ensures Silent(w, Teardown(w, instance).w)
  {
    hide DeletePhases, DropFinalizer, ReportsIn;
    DeletePhasesSilent(w, TeardownPhases(w.config));
    var deleted := if w.servings == map[] then DeletePhases(w, TeardownPhases(w.config)) else Phase(w, true);
    DropFinalizerSilent(deleted.w, instance.key);
  }

  lemma FinalizeKindDeparts(w: World, original: Serving)
    ensures FinalizeKind(w, original).w.servings == Track(w.servings, Departure(original.key))
    ensures ReportsIn(FinalizeKind(w, original).w.log) == ReportsIn(w.log)
  {
    hide Teardown, ReportsIn;
    var servings := w.servings - {original.key};
    UnreportedTail(w.log, [Finalizing(original.key, servings != map[])]);
    TeardownSilent(w.(servings := servings, log := w.log + [Finalizing(original.key, servings != map[])]), original);
  }

  lemma ReconcileKindArrives(w: World, instance: Serving)
    ensures var call := Arrival(instance.key, instance.generation);
            && ReconcileKind(w, instance).w.servings == Track(w.servings, call)
            && ReportsIn(ReconcileKind(w, instance).w.log) == ReportsIn(w.log) + AllReports(w.servings, [call])
  {
    hide Converge;
    var gate := PassGate(w.servings, instance.key, instance.generation);
    var counted := Report(w, instance.key, gate.report).(servings := gate.servings);
    ConvergeSilent(counted, instance);
    var call := Arrival(instance.key, instance.generation);
    assert AllReports(Track(w.servings, call), [call][1..]) == [];
    if gate.report.Some? {
      assert counted.log[..|counted.log| - 1] == w.log;
    }
  }

  /** `b` comes after `a` by exactly these calls. */
  predicate Tracks(a: World, calls: seq<Call>, b: World) {
    b.servings == TrackAll(a.servings, calls) && ReportsIn(b.log) == ReportsIn(a.log) + AllReports(a.servings, calls)
  }

  lemma SilentTracks(a: World, b: World, calls: seq<Call>, c: World, d: World)
    requires Silent(a, b) && Tracks(b, calls, c) && Silent(c, d)
    ensures Tracks(a, calls, d)
  {}

  lemma OneCall(servings: map<Key, int>, call: Call)
    ensures TrackAll(servings, [call]) == Track(servings, call)
    ensures call.Departure? ==> AllReports(servings, [call]) == []
  {
    assert [call][1..] == [];
  }

  lemma LiveTracks(w: World, original: Serving)
    ensures var instance := SetFinalizer(w, original).obj;
            Tracks(w, [Arrival(instance.key, instance.generation)], ReconcileLive(w, original).w)
  {
    hide ReportsIn, ReconcileKind, UpdateFinalizersFiltered, TrackAll, Track, AllReports;
    FilteredSilent(w, original.(finalizers := Text.SortedList(Text.Elements(original.finalizers) + {K})));
    var prepared := SetFinalizer(w, original);
    ReconcileKindArrives(prepared.w, prepared.obj);
    OneCall(prepared.w.servings, Arrival(prepared.obj.key, prepared.obj.generation));
  }

  lemma DeletingTracks(w: World, original: Serving)
    ensures Tracks(w, [Departure(original.key)], ReconcileDeleting(w, original).w)
  {
    hide ReportsIn, FinalizeKind, UpdateFinalizersFiltered, TrackAll, Track, AllReports;
    FinalizeKindDeparts(w, original);
    OneCall(w.servings, Departure(original.key));
    var finalized := FinalizeKind(w, original);
    if finalized.out != Panicking {
      var finalizers := Text.Elements(original.finalizers);
      var kept := if finalized.out == Fine then finalizers - {K} else finalizers;
      FilteredSilent(finalized.w, original.(finalizers := Text.SortedList(kept)));
    }
  }

  lemma SyncStatusSilent(pass: Pass, original: Serving)
    ensures Silent(pass.w, SyncStatus(pass, original).w)
  {
    hide Silent, UpdateStatusFrom, SameStatus;
    SilentReflexive(pass.w);
    RetrySilent(pass.w, 0, original, pass.obj);
  }

  /** A pass tracks and reports exactly what its calls say. */
  lemma PassTracks(w0: World, key: Key)
    ensures Tracks(w0, CallsOfPass(w0, key), Reconcile(w0, key).w)
  {
    hide TakeTurn, Silent, Tracks, ReconcileDeleting, ReconcileLive, SetFinalizer, SyncStatus, Listed;
    var w := TakeTurn(w0);
    TurnSilent(w0);
    var listed := Listed(w, key);
    if listed.Some? {
      var original := listed.value;
      var pass := if original.deleting then ReconcileDeleting(w, original) else ReconcileLive(w, original);
      if original.deleting {
        DeletingTracks(w, original);
      } else {
        LiveTracks(w, original);
      }
      SyncStatusSilent(pass, original);
      SilentReflexive(pass.w);
      SilentTracks(w0, w, CallsOfPass(w0, key), pass.w, Reconcile(w0, key).w);
    } else {
      NoCalls(w0, w);
    }
  }

  lemma NoCalls(a: World, b: World)
    requires Silent(a, b)
    ensures Tracks(a, [], b)
  {}

  // ----- the theorem over runs

  /** The calls of a run in which the process lives on. */
  function CallsOfRun(w: World, events: seq<Event>): seq<Call>
    decreases |events|
  {
    if events == [] then []
    else
      (if events[0].PassOver? then CallsOfPass(w, events[0].key) else []) +
      CallsOfRun(Happen(w, events[0]), events[1..])
  }

  /** No restart and no panic. */
  predicate Uninterrupted(w: World, events: seq<Event>)
    decreases |events|
  {
    events == [] ||
    (!events[0].Restarting? &&
     (events[0].PassOver? ==> Reconcile(w, events[0].key).out != Panicking) &&
     Uninterrupted(Happen(w, events[0]), events[1..]))
  }

  lemma {:induction false} TrackAppend(servings: map<Key, int>, a: seq<Call>, b: seq<Call>)
    ensures TrackAll(servings, a + b) == TrackAll(TrackAll(servings, a), b)
    ensures AllReports(servings, a + b) == AllReports(servings, a) + AllReports(TrackAll(servings, a), b)
    decreases |a|
  {
    if a == [] {
      assert a + b == b;
    } else {
      assert (a + b)[1..] == a[1..] + b;
      TrackAppend(Track(servings, a[0]), a[1..], b);
    }
  }

  /** However the environment interferes, while the process lives its tracked
      generations and its reports are those of its passes' calls. */
  lemma {:induction false} RunTracks(w: World, events: seq<Event>)
    requires Uninterrupted(w, events)
    ensures Run(w, events).servings == TrackAll(w.servings, CallsOfRun(w, events))
    ensures ReportsIn(Run(w, events).log) == ReportsIn(w.log) + AllReports(w.servings, CallsOfRun(w, events))
    decreases |events|
  {
    hide Reconcile, TakeTurn, CallsOfPass, ReportsIn, Track;
    if events != [] {
      var next := Happen(w, events[0]);
      var now := if events[0].PassOver? then CallsOfPass(w, events[0].key) else [];
      if events[0].PassOver? {
        PassTracks(w, events[0].key);
      } else {
        TurnSilent(w);
      }
      RunTracks(next, events[1..]);
      TrackAppend(w.servings, now, CallsOfRun(next, events[1..]));
    }
  }

  /** How many of some reports are of one change of one key. */
  function CountReports(reports: seq<Action>, key: Key, change: Change): nat {
    if reports == [] then 0
    else CountReports(reports[1..], key, change) + if reports[0] == Reported(key, change) then 1 else 0
  }

  lemma {:induction false} CountIsReports(servings: map<Key, int>, calls: seq<Call>, key: Key, change: Change)
    ensures CountReports(AllReports(servings, calls), key, change) == Reports(servings, calls, key, change)
    decreases |calls|
  {
    if calls != [] {
      CountIsReports(Track(servings, calls[0]), calls[1..], key, change);
      var rest := AllReports(Track(servings, calls[0]), calls[1..]);
      if calls[0].Arrival? && PassGate(servings, calls[0].key, calls[0].generation).report.Some? {
        assert AllReports(servings, calls)[1..] == rest;
      }
    }
  }

  /** From the start of a process or a finalization of the key, in every run up
      to the next one: the generations that got through to its reconciler never
      decrease; the log gets one report of its creation if the first of them is 1,
      and none otherwise; and it gets as many of edits as distinct generations got
      through, minus one, so at most the last minus the first. */
  lemma ReportsOverRuns(w: World, events: seq<Event>, key: Key)
    requires key !in w.servings && Uninterrupted(w, events) && Stays(CallsOfRun(w, events), key)
    ensures var accepted := Accepted(w.servings, CallsOfRun(w, events), key);
            var reports := AllReports(w.servings, CallsOfRun(w, events));
            var edits := CountReports(reports, key, Edited);
            && ReportsIn(Run(w, events).log) == ReportsIn(w.log) + reports
            && Ascending(accepted)
            && CountReports(reports, key, Creation) == (if accepted != [] && accepted[0] == 1 then 1 else 0)
            && edits == (if accepted == [] then 0 else |Values(accepted)| - 1)
            && (accepted != [] ==> edits <= accepted[|accepted| - 1] - accepted[0])
  {
    hide Run, CallsOfRun, Accepted, AllReports;
    var calls := CallsOfRun(w, events);
    RunTracks(w, events);
    BetweenFinalizations(w.servings, calls, key);
    CountIsReports(w.servings, calls, key, Creation);
    CountIsReports(w.servings, calls, key, Edited);
  }
}
