/** The operator as a program: two reconcilers that edit objects in place, share
    pointers with the cache and call the server, proved to do what the pass
    functions say. */
module Operator {
  import opened Conditions
  import opened Lifecycle
  import opened Manifests
  import opened Passes
  import opened Resources
  import opened Text
  import opened World
  import InPlace
  import Pipeline

  // ----- the status loop does not look at finalizers

  lemma UpdateStatusIgnoresFinalizers(w: World, sent: Serving, finalizers: seq<string>)
    ensures UpdateStatus(w, sent.(finalizers := finalizers)) == UpdateStatus(w, sent)
  {
    hide TakeTurn, Send;
  }

  /** Only the outcome and the world matter to the caller, and they do not depend
      on what the first object at hand says about finalizers. */
  lemma RetryIgnoresFinalizers(w: World, existing: Serving, finalizers: seq<string>, desired: Serving)
    ensures var p := UpdateStatusFrom(w, 0, existing.(finalizers := finalizers), desired);
            var q := UpdateStatusFrom(w, 0, existing, desired);
            p.w == q.w && p.out == q.out
  {
    hide UpdateStatus, Fetch;
    var other := existing.(finalizers := finalizers);
    UpdateStatusIgnoresFinalizers(w, existing.(status := desired.status), finalizers);
    var reply := UpdateStatus(w, existing.(status := desired.status));
    assert other.(status := desired.status) == existing.(status := desired.status).(finalizers := finalizers);
    LaterAttemptsFetch(reply.w, other, existing, desired);
  }

  lemma LaterAttemptsFetch(w: World, a: Serving, b: Serving, desired: Serving)
    ensures var p, q := UpdateStatusFrom(w, 1, a, desired), UpdateStatusFrom(w, 1, b, desired);
            p.w == q.w && p.out == q.out
  {
    hide UpdateStatus, Fetch;
  }

  /** What is behind a pointer to a KnativeServing. */
  class KnativeServing {
    var key: Key
    var uid: int
    var rv: int
    var generation: int
    var deleting: bool
    var finalizers: seq<string>
    var labels: map<string, string>
    var spec: KnativeServingSpec
    var status: Status

    constructor (o: Serving)
      ensures Value() == o
    {
      key, uid, rv, generation, deleting := o.key, o.uid, o.rv, o.generation, o.deleting;
      finalizers, labels, spec, status := o.finalizers, o.labels, o.spec, o.status;
    }

    function Value(): Serving
      reads this
    {
      Serving(key, uid, rv, generation, deleting, finalizers, labels, spec, status)
    }

    method DeepCopy() returns (copy: KnativeServing)
      ensures fresh(copy) && copy.Value() == Value()
    {
      copy := new KnativeServing(Value());
    }

    /** Overwrites this object with what the server returned. */
    method Assign(o: Serving)
      modifies this
      ensures Value() == o
    {
      key, uid, rv, generation, deleting := o.key, o.uid, o.rv, o.generation, o.deleting;
      finalizers, labels, spec, status := o.finalizers, o.labels, o.spec, o.status;
    }

    /** One of the status's marks. */
    method SetMark(m: Mark, now: int)
      modifies this`status
      ensures Value() == WithMark(old(Value()), m, now)
    {
      hide Marked;
      var s := new KnativeServingStatus();
      s.conditions := status.conditions;
      match m {
        case Initializing => s.InitializeConditions(now);
        case InstallFailing(message) => s.MarkInstallFailed(message, now);
        case InstallSucceeding => s.MarkInstallSucceeded(now);
        case DeploymentsReady => s.MarkDeploymentsAvailable(now);
        case DeploymentsNotReady => s.MarkDeploymentsNotReady(now);
        case DependenciesReady => s.MarkDependenciesInstalled(now);
        case DependencyInstalling(message) => s.MarkDependencyInstalling(message, now);
        case DependencyMissing(message) => s.MarkDependencyMissing(message, now);
      }
      status := status.(conditions := s.conditions);
    }
  }

  /** The cache's entry for a key holds the pointer that the lister hands out. */
  datatype CacheEntry = CacheEntry(at: nat, obj: KnativeServing?)
  {
    function Value(): Entry
      reads obj
    {
      Entry(at, if obj == null then None else Some(obj.Value()))
    }
  }

  /** The informer's store, and the lister that reads it. */
  class Cache {
    var entries: map<Key, CacheEntry>
    // the objects the cache has ever held
    ghost var repr: set<KnativeServing>

    /** Filled from a listing, one new object after another. */
    constructor (listing: map<Key, Entry>)
      ensures Valid() && fresh(repr) && Value() == listing
    {
      entries, repr := map[], {};
      new;
      var todo := listing.Keys;
      while todo != {}
        invariant todo <= listing.Keys && Valid() && fresh(repr)
        invariant Value().Keys == listing.Keys - todo
        invariant forall k | k in listing && k !in todo :: Value()[k] == listing[k]
        decreases |todo|
      {
        var k :| k in todo;
        Replace(k, listing[k]);
        todo := todo - {k};
      }
      assert Value() == listing;
    }

    /** Every entry's object is one of the cache's own, and no other's. */
    ghost predicate Valid()
      reads this
    {
      && (forall k | k in entries && entries[k].obj != null :: entries[k].obj in repr)
      && (forall j, k | j in entries && k in entries && j != k && entries[j].obj != null ::
            entries[j].obj != entries[k].obj)
    }

    ghost function Value(): map<Key, Entry>
      requires Valid()
      reads this, repr
    {
      map k | k in entries :: entries[k].Value()
    }

    /** An event about a key: it has a new object from then on, or none. */
    method Replace(key: Key, e: Entry)
      requires Valid()
      modifies this
      ensures Valid() && fresh(repr - old(repr))
      ensures Value() == old(Value())[key := e]
    {
      var obj: KnativeServing? := null;
      if e.obj.Some? {
        obj := new KnativeServing(e.obj.value);
        repr := repr + {obj};
      }
      entries := entries[key := CacheEntry(e.at, obj)];
    }

    /** The pointer the cache holds, not a copy. */
    method Get(key: Key) returns (obj: KnativeServing?)
      requires Valid()
      ensures obj == null <==> key !in Value() || Value()[key].obj.None?
      ensures obj != null ==> obj in repr && Value()[key].obj == Some(obj.Value()) && entries[key].obj == obj
    {
      obj := if key in entries then entries[key].obj else null;
    }

    /** Cuts the first finalizer of an object of the cache: whoever edits the
        object behind the lister's pointer edits the cache. */
    method CutFinalizer(key: Key, obj: KnativeServing)
      requires Valid() && key in entries && entries[key].obj == obj && obj.finalizers != []
      modifies obj`finalizers
      ensures Valid() && obj.Value() == old(obj.Value()).(finalizers := old(obj.finalizers)[1..])
      ensures Value() == old(Value())[key := Entry(entries[key].at, Some(obj.Value()))]
    {
      obj.finalizers := obj.finalizers[1..];
    }
  }

  class Reconciler {
    // the generations let through, by key
    var servings: map<Key, int>
    const cache: Cache
    // the server, the cluster, and what the environment is going to do
    var outside: World

    ghost predicate Valid()
      reads this, cache
    {
      cache.Valid()
    }

    /** The world, with the cache and the servings as they are here. */
    ghost function State(): World
      requires Valid()
      reads this, cache, cache.repr
    {
      outside.(cache := cache.Value(), servings := servings)
    }

    /** A new process: no servings remembered, every object listed afresh. */
    constructor (w: World)
      ensures Valid() && fresh(cache) && fresh(cache.repr)
      ensures State() == Restart(w)
    {
      servings := map[];
      cache := new Cache(Restart(w).cache);
      outside := w;
    }

    // ----- the environment's turn

    static lemma CommitOutside(w: World, obj: Serving, own: bool, cache: map<Key, Entry>, servings: map<Key, int>)
      ensures Commit(w.(cache := cache, servings := servings), obj, own) ==
              Commit(w, obj, own).(cache := cache, servings := servings)
    {}

    /** What an edit does outside the cache does not depend on the cache. */
    static lemma EditOutside(w: World, e: Edit, cache: map<Key, Entry>, servings: map<Key, int>)
      requires !e.Sync?
      ensures EditStep(w.(cache := cache, servings := servings), e) ==
              EditStep(w, e).(cache := cache, servings := servings)
    {
      hide Commit;
      var inside := w.(cache := cache, servings := servings);
      forall obj ensures Commit(inside, obj, false) == Commit(w, obj, false).(cache := cache, servings := servings) {
        CommitOutside(w, obj, false, cache, servings);
      }
      assert LeavesAlone(inside, e) <==> LeavesAlone(w, e);
      match e
      case Create(_, _, _, _) =>
      case Modify(_, _, _, _) =>
      case Restatus(_, _) =>
      case Delete(_) =>
    }

    static predicate Tells(w: World, key: Key, rv: nat)
    {
      rv < |w.versions| && w.versions[rv].obj.key == key && (key in w.cache ==> w.cache[key].at <= rv)
    }

    static lemma SyncMeaning(w: World, key: Key, rv: nat)
      ensures EditStep(w, Sync(key, rv)) == if Tells(w, key, rv) then w.(cache := w.cache[key := Told(w, rv)]) else w
    {}

    /** The informer hears of a version. */
    method Notice(key: Key, rv: nat)
      requires Valid()
      modifies cache
      ensures Valid() && fresh(cache.repr - old(cache.repr))
      ensures State() == EditStep(old(State()), Sync(key, rv))
    {
      hide EditStep, Commit;
      SyncMeaning(State(), key, rv);
      if rv < |outside.versions| && outside.versions[rv].obj.key == key &&
         (key in cache.entries ==> cache.entries[key].at <= rv)
      {
        cache.Replace(key, Told(outside, rv));
      }
    }

    method Happens(e: Edit)
      requires Valid()
      modifies this`outside, cache
      ensures Valid() && fresh(cache.repr - old(cache.repr))
      ensures State() == EditStep(old(State()), e)
    {
      hide EditStep;
      if e.Sync? {
        Notice(e.key, e.rv);
      } else {
        EditOutside(outside, e, cache.Value(), servings);
        outside := EditStep(outside, e);
      }
    }

    /** Edits, in order; the clock. */
    method EnvironmentTurn() returns (turn: Turn)
      requires Valid()
      modifies this`outside, cache
      ensures Valid() && fresh(cache.repr - old(cache.repr))
      ensures State() == TakeTurn(old(State())) && turn == NextTurn(old(State()))
    {
      hide EditStep;
      turn := if outside.turns == [] then QUIET else outside.turns[0];
      outside := outside.(turns := if outside.turns == [] then [] else outside.turns[1..], now := turn.now);
      var i := 0;
      while i < |turn.edits|
        invariant 0 <= i <= |turn.edits|
        invariant Valid() && fresh(cache.repr - old(cache.repr))
        invariant EditAll(State(), turn.edits[i..]) == TakeTurn(old(State()))
      {
        assert turn.edits[i..][0] == turn.edits[i] && turn.edits[i..][1..] == turn.edits[i + 1..];
        Happens(turn.edits[i]);
        i := i + 1;
      }
    }

    // ----- the client

    method Deliver(fault: Fault, refusal: Option<ApiError>, obj: Serving) returns (result: Result<Serving, ApiError>)
      requires Valid()
      modifies this`outside
      ensures var reply := Send(old(State()), fault, refusal, obj); State() == reply.w && result == reply.result
    {
      hide Commit;
      CommitOutside(outside, obj, true, cache.Value(), servings);
      CommitVersion(outside, obj);
      CommitVersion(State(), obj);
      var reply := Send(outside, fault, refusal, obj);
      outside, result := reply.w, reply.result;
    }

    static lemma CommitVersion(w: World, obj: Serving)
      ensures Commit(w, obj, true).versions == w.versions + [Commit(w, obj, true).versions[|w.versions|]]
    {}

    method SendPatch(key: Key, rv: int, finalizers: seq<string>) returns (result: Result<Serving, ApiError>)
      requires Valid()
      modifies this`outside, cache
      ensures Valid() && fresh(cache.repr - old(cache.repr))
      ensures var reply := Patch(old(State()), key, rv, finalizers); State() == reply.w && result == reply.result
    {
      hide TakeTurn, Send;
      var turn := EnvironmentTurn();
      if key.name == "" {
        return Err(Invalid);
      }
      var refusal := Refusal(outside, key, rv, finalizers);
      var obj := if refusal.None? then Live(outside, key).(finalizers := finalizers) else ZERO;
      result := Deliver(turn.fault, refusal, obj);
    }

    method SendUpdate(sent: KnativeServing) returns (result: Result<Serving, ApiError>)
      requires Valid()
      modifies this`outside, cache
      ensures Valid() && fresh(cache.repr - old(cache.repr))
      ensures var reply := Update(old(State()), old(sent.Value())); State() == reply.w && result == reply.result
    {
      hide TakeTurn, Send;
      var turn := EnvironmentTurn();
      if sent.key.name == "" {
        return Err(Invalid);
      }
      var refusal := Refusal(outside, sent.key, sent.rv, sent.finalizers);
      var obj := if refusal.None? then Rewritten(Live(outside, sent.key), sent.Value()) else ZERO;
      result := Deliver(turn.fault, refusal, obj);
    }

    method SendStatus(sent: KnativeServing) returns (result: Result<Serving, ApiError>)
      requires Valid()
      modifies this`outside, cache
      ensures Valid() && fresh(cache.repr - old(cache.repr))
      ensures var reply := UpdateStatus(old(State()), old(sent.Value())); State() == reply.w && result == reply.result
    {
      hide TakeTurn, Send;
      var turn := EnvironmentTurn();
      if sent.key.name == "" {
        return Err(Invalid);
      }
      var refusal := Refusal(outside, sent.key, sent.rv, []);
      var obj := if refusal.None? then Live(outside, sent.key).(status := sent.status) else ZERO;
      result := Deliver(turn.fault, refusal, obj);
    }

    method GetFromServer(key: Key) returns (result: Result<Serving, ApiError>)
      requires Valid()
      modifies this`outside, cache
      ensures Valid() && fresh(cache.repr - old(cache.repr))
      ensures var reply := Fetch(old(State()), key); State() == reply.w && result == reply.result
      ensures result.Err? ==> result.error != Conflict
    {
      hide TakeTurn;
      var turn := EnvironmentTurn();
      if key.name == "" {
        return Err(Invalid);
      }
      if turn.fault != NoFault {
        return Err(Failed);
      }
      if key !in outside.live || outside.live[key] >= |outside.versions| {
        return Err(NotFound);
      }
      return Ok(outside.versions[outside.live[key]].obj);
    }

    /** Reads the cache, after the environment's turn. */
    method List(key: Key) returns (obj: KnativeServing?)
      requires Valid()
      modifies this`outside, cache
      ensures Valid() && fresh(cache.repr - old(cache.repr))
      ensures State() == TakeTurn(old(State()))
      ensures obj == null <==> Listed(State(), key).None?
      ensures obj != null ==> obj in cache.repr && Listed(State(), key) == Some(obj.Value())
      ensures obj != null ==> key in cache.entries && cache.entries[key].obj == obj
      ensures obj != null ==> key in State().cache && State().cache[key].at == cache.entries[key].at
    {
      hide TakeTurn;
      var _ := EnvironmentTurn();
      obj := cache.Get(key);
    }

    // ----- the generated reconciler's finalizer

    /** The finalizers to send, if any: K added to or removed from the existing
        ones, as `resource` wants. */
    method FinalizersDue(resource: KnativeServing, existing: KnativeServing) returns (due: Option<seq<string>>)
      ensures due == PatchDue(resource.Value(), existing.Value())
      ensures due.Some? && K in resource.finalizers ==> due.value == existing.finalizers + [K]
      ensures due.Some? && K !in resource.finalizers ==>
                Ascending(due.value) && Elements(due.value) == Elements(existing.finalizers) - {K}
    {
      SortedAscends(Elements(existing.finalizers) - {K});
      var existingSet, desiredSet := Elements(existing.finalizers), Elements(resource.finalizers);
      if K in desiredSet {
        if K in existingSet {
          return None;
        }
        return Some(existing.finalizers + [K]);
      } else {
        if K !in existingSet {
          return None;
        }
        existingSet := existingSet - {K};
        return Some(SortedList(existingSet));
      }
    }

    /** Adds K to the object or removes it, as `resource` wants; a failed patch
        leaves the caller with a zero object. */
    method UpdateFinalizers(resource: KnativeServing) returns (result: KnativeServing, ok: bool)
      requires Valid() && resource !in cache.repr
      modifies this`outside, cache
      ensures Valid() && fresh(cache.repr - old(cache.repr))
      ensures var p := UpdateFinalizersFiltered(old(State()), old(resource.Value()));
              State() == p.w && result.Value() == p.obj && ok == (p.out == Fine)
      ensures result == resource || fresh(result)
      ensures result !in cache.repr
    {
      hide TakeTurn, Patch, PatchDue, Listed, Cache.Value, Cache.Valid, State, Valid;
      var actual := List(resource.key);
      if actual == null {
        return resource, false;
      }
      var existing := actual.DeepCopy();
      var due := FinalizersDue(resource, existing);
      if due.None? {
        return resource, true;
      }
      var patched := SendPatch(resource.key, existing.rv, due.value);
      ok := patched.Ok?;
      result := new KnativeServing(if patched.Ok? then patched.value else ZERO);
    }

    method SetFinalizerIfFinalizer(resource: KnativeServing) returns (result: KnativeServing, ok: bool)
      requires Valid() && resource !in cache.repr
      modifies this`outside, cache, resource
      ensures Valid() && fresh(cache.repr - old(cache.repr))
      ensures var p := SetFinalizer(old(State()), old(resource.Value()));
              State() == p.w && result.Value() == p.obj && ok == (p.out == Fine)
      ensures result == resource || fresh(result)
      ensures result !in cache.repr
    {
      hide UpdateFinalizersFiltered, SortedList, Elements, Cache.Value, Cache.Valid, State, Valid;
      var finalizers := Elements(resource.finalizers) + {K};
      resource.finalizers := SortedList(finalizers);
      result, ok := UpdateFinalizers(resource);
    }

    method ClearFinalizerAfter(resource: KnativeServing, event: Outcome) returns (result: KnativeServing, ok: bool)
      requires Valid() && resource !in cache.repr
      modifies this`outside, cache, resource
      ensures Valid() && fresh(cache.repr - old(cache.repr))
      ensures var p := ClearFinalizer(old(State()), old(resource.Value()), event);
              State() == p.w && result.Value() == p.obj && ok == (p.out == Fine)
      ensures result == resource || fresh(result)
      ensures result !in cache.repr
    {
      hide UpdateFinalizersFiltered, SortedList, Elements, Cache.Value, Cache.Valid, State, Valid;
      var finalizers := Elements(resource.finalizers);
      if event == Fine {
        finalizers := finalizers - {K};
      }
      resource.finalizers := SortedList(finalizers);
      result, ok := UpdateFinalizers(resource);
    }

    // ----- its status loop

    /** One attempt: the first with the object at hand, later ones with the object
        fetched anew. It ends the loop unless the server reports a conflict. */
    method TryStatus(attempts: nat, existing: KnativeServing, desired: KnativeServing)
      returns (used: KnativeServing, error: Option<ApiError>)
      requires Valid() && attempts < ATTEMPTS && existing !in cache.repr && existing != desired
      modifies this`outside, cache, existing
      ensures Valid() && fresh(cache.repr - old(cache.repr))
      ensures used !in cache.repr && (used == existing || fresh(used))
      ensures var p := UpdateStatusFrom(old(State()), attempts, old(existing.Value()), old(desired.Value()));
              if error.Some? && Retries(attempts, error.value) then
                var q := UpdateStatusFrom(State(), attempts + 1, used.Value(), desired.Value());
                p.w == q.w && p.out == q.out
              else
                p.w == State() && (p.out == Fine <==> error.None?) && (p.out == Failing <==> error.Some?)
    {
      hide Fetch, UpdateStatus, Cache.Value, Cache.Valid, State, Valid;
      used := existing;
      if attempts > 0 {
        var fetched := GetFromServer(desired.key);
        if fetched.Err? {
          return used, Some(fetched.error);
        }
        used := new KnativeServing(fetched.value);
      }
      if used.status == desired.status {
        return used, None;
      }
      used.status := desired.status;
      var reply := SendStatus(used);
      error := if reply.Ok? then None else Some(reply.error);
    }

    static predicate Retries(attempts: nat, error: ApiError) {
      error == Conflict && attempts + 1 < ATTEMPTS
    }

    /** Up to five attempts while the server reports conflicts. */
    method UpdateStatusLoop(original: KnativeServing, desired: KnativeServing) returns (ok: bool)
      requires Valid()
      modifies this`outside, cache
      ensures Valid() && fresh(cache.repr - old(cache.repr))
      ensures var p := UpdateStatusFrom(old(State()), 0, old(original.Value()), old(desired.Value()));
              State() == p.w && (p.out == Fine <==> ok) && (p.out == Failing <==> !ok)
    {
      hide UpdateStatusFrom, Cache.Value, Cache.Valid, State, Valid;
      var existing := original.DeepCopy();
      ghost var goal := UpdateStatusFrom(State(), 0, original.Value(), desired.Value());
      var attempts := 0;
      while true
        invariant 0 <= attempts < ATTEMPTS && Valid() && fresh(cache.repr - old(cache.repr))
        invariant fresh(existing) && existing !in cache.repr
        invariant var p := UpdateStatusFrom(State(), attempts, existing.Value(), desired.Value());
                  p.w == goal.w && p.out == goal.out
        decreases ATTEMPTS - attempts
      {
        var error;
        existing, error := TryStatus(attempts, existing, desired);
        if error.None? {
          return true;
        }
        if !Retries(attempts, error.value) {
          return false;
        }
        attempts := attempts + 1;
      }
    }

    // ----- the stages

    /** `ensureFinalizer`: what the server returns is not looked at. */
    method EnsureFinalizerStage(instance: KnativeServing) returns (out: Outcome)
      requires Valid() && instance !in cache.repr
      modifies this`outside, cache, instance
      ensures Valid() && fresh(cache.repr - old(cache.repr)) && instance !in cache.repr
      ensures Pass(State(), instance.Value(), out) == EnsureFinalizer(old(State()), old(instance.Value()))
    {
      hide Update, Cache.Value, Cache.Valid, State, Valid;
      for i := 0 to |instance.finalizers|
        invariant D !in instance.finalizers[..i]
      {
        if instance.finalizers[i] == D {
          return Fine;
        }
      }
      instance.finalizers := instance.finalizers + [D];
      var reply := SendUpdate(instance);
      out := if reply.Ok? then Fine else Failing;
    }

    /** `initStatus`: the instance becomes what the server returns. */
    method InitStatusStage(instance: KnativeServing) returns (out: Outcome)
      requires Valid() && instance !in cache.repr
      modifies this`outside, cache, instance
      ensures Valid() && fresh(cache.repr - old(cache.repr)) && instance !in cache.repr
      ensures Pass(State(), instance.Value(), out) == InitStatus(old(State()), old(instance.Value()))
    {
      hide UpdateStatus, Marked, Cache.Value, Cache.Valid, Valid;
      if instance.status.conditions != [] {
        return Fine;
      }
      instance.SetMark(Initializing, outside.now);
      var reply := SendStatus(instance);
      if reply.Err? {
        return Failing;
      }
      instance.Assign(reply.value);
      return Fine;
    }

    method ApplyResource(r: Resource, instance: KnativeServing) returns (ok: bool)
      requires Valid() && instance !in cache.repr
      modifies this`outside, cache
      ensures Valid() && fresh(cache.repr - old(cache.repr)) && instance !in cache.repr
      ensures Phase(State(), ok) == ApplyOne(old(State()), instance.Value(), r)
    {
      hide TakeTurn, Cache.Value, Cache.Valid;
      var turn := EnvironmentTurn();
      if turn.fault == Dropped {
        return false;
      }
      outside := outside.(cluster := outside.cluster[r.Id() := r],
                          log := outside.log + [Applied(instance.uid, r.Id(), LiveVersion(outside, instance.key))]);
      ok := turn.fault == NoFault;
    }

    /** `Manifest.Apply`: one resource after another, up to the first error. */
    method ApplyManifest(rs: seq<Resource>, instance: KnativeServing) returns (ok: bool)
      requires Valid() && instance !in cache.repr
      modifies this`outside, cache
      ensures Valid() && fresh(cache.repr - old(cache.repr)) && instance !in cache.repr
      ensures Phase(State(), ok) == ApplyPhase(old(State()), instance.Value(), rs)
    {
      hide ApplyOne, Cache.Value, Cache.Valid, State, Valid;
      for i := 0 to |rs|
        invariant Valid() && fresh(cache.repr - old(cache.repr)) && instance !in cache.repr
        invariant ApplyPhase(State(), instance.Value(), rs[i..]) == ApplyPhase(old(State()), instance.Value(), rs)
      {
        assert rs[i..][0] == rs[i] && rs[i..][1..] == rs[i + 1..];
        ok := ApplyResource(rs[i], instance);
        if !ok {
          return;
        }
      }
      ok := true;
    }

    method DeleteResource(r: Resource) returns (ok: bool)
      requires Valid()
      modifies this`outside, cache
      ensures Valid() && fresh(cache.repr - old(cache.repr))
      ensures Phase(State(), ok) == DeleteOne(old(State()), r)
    {
      hide TakeTurn, Cache.Value, Cache.Valid;
      var turn := EnvironmentTurn();
      if turn.fault == Dropped {
        return false;
      }
      outside := outside.(cluster := outside.cluster - {r.Id()}, log := outside.log + [Removed(r.Id())]);
      ok := turn.fault == NoFault;
    }

    /** `Manifest.Delete`, on resources already put in order. */
    method DeleteResources(rs: seq<Resource>) returns (ok: bool)
      requires Valid()
      modifies this`outside, cache
      ensures Valid() && fresh(cache.repr - old(cache.repr))
      ensures Phase(State(), ok) == DeletePhase(old(State()), rs)
    {
      hide DeleteOne, Cache.Value, Cache.Valid, State, Valid;
      for i := 0 to |rs|
        invariant Valid() && fresh(cache.repr - old(cache.repr))
        invariant DeletePhase(State(), rs[i..]) == DeletePhase(old(State()), rs)
      {
        assert rs[i..][0] == rs[i] && rs[i..][1..] == rs[i + 1..];
        ok := DeleteResource(rs[i]);
        if !ok {
          return;
        }
      }
      ok := true;
    }

    /** `install`: roles, bindings, everything. */
    method InstallStage(manifest: seq<Resource>, instance: KnativeServing) returns (out: Outcome)
      requires Valid() && instance !in cache.repr
      modifies this`outside, cache, instance
      ensures Valid() && fresh(cache.repr - old(cache.repr)) && instance !in cache.repr
      ensures Pass(State(), instance.Value(), out) == Install(old(State()), manifest, old(instance.Value()))
    {
      hide ApplyPhase, Marked, Roles, Bindings, Cache.Value, Cache.Valid, Valid;
      ghost var w, o := State(), instance.Value();
      InstallUnfolds(w, manifest, o);
      var ok := ApplyManifest(Roles(manifest), instance);
      if ok {
        ok := ApplyManifest(Bindings(manifest), instance);
      }
      if ok {
        ok := ApplyManifest(manifest, instance);
      }
      if !ok {
        instance.SetMark(InstallFailing("apply"), outside.now);
        return Failing;
      }
      instance.SetMark(InstallSucceeding, outside.now);
      instance.status := instance.status.(version := VERSION);
      return Fine;
    }

    static lemma InstallUnfolds(w: World, manifest: seq<Resource>, o: Serving)
      ensures var first := ApplyPhase(w, o, Roles(manifest));
              var second := ApplyPhase(first.w, o, Bindings(manifest));
              ApplyPhases(w, o, InstallPhases(manifest)) ==
              if !first.ok then first else if !second.ok then second else ApplyPhase(second.w, o, manifest)
    {
      hide ApplyPhase, Roles, Bindings;
      var phases := InstallPhases(manifest);
      var first := ApplyPhase(w, o, Roles(manifest));
      var second := ApplyPhase(first.w, o, Bindings(manifest));
      assert phases[1..] == [Bindings(manifest), manifest] && phases[1..][1..] == [manifest];
      assert phases[1..][1..][1..] == [];
      assert ApplyPhases(second.w, o, [manifest]) == ApplyPhase(second.w, o, manifest);
    }

    /** The search of a Deployment's conditions. */
    static method IsAvailable(conditions: seq<DeploymentCondition>) returns (available: bool)
      ensures available == Available(Found(conditions))
      ensures available <==> exists c :: c in conditions && c.ctype == "Available" && c.status == "True"
    {
      for i := 0 to |conditions|
        invariant forall k | 0 <= k < i :: conditions[k].ctype != "Available" || conditions[k].status != "True"
      {
        if conditions[i].ctype == "Available" && conditions[i].status == "True" {
          return true;
        }
      }
      return false;
    }

    /** `checkDeployments`: up to the first that is missing, not available, or
        cannot be asked about. */
    method CheckDeploymentsStage(manifest: seq<Resource>, instance: KnativeServing) returns (out: Outcome)
      requires Valid() && instance !in cache.repr
      modifies this`outside, cache, instance
      ensures Valid() && fresh(cache.repr - old(cache.repr)) && instance !in cache.repr
      ensures Pass(State(), instance.Value(), out) == CheckDeployments(old(State()), manifest, old(instance.Value()))
    {
      hide TakeTurn, Marked, Deployments, Cache.Value, Cache.Valid, Valid;
      var deployments := Deployments(manifest);
      ghost var goal := ProbeDeployments(State(), deployments);
      for i := 0 to |deployments|
        invariant Valid() && fresh(cache.repr - old(cache.repr)) && instance !in cache.repr
        invariant instance.Value() == old(instance.Value())
        invariant ProbeDeployments(State(), deployments[i..]) == goal
      {
        assert deployments[i..][1..] == deployments[i + 1..];
        var turn := EnvironmentTurn();
        if !turn.deployment.Found? {
          instance.SetMark(DeploymentsNotReady, outside.now);
          return if turn.deployment == Unreachable then Failing else Fine;
        }
        var available := IsAvailable(turn.deployment.conditions);
        if !available {
          instance.SetMark(DeploymentsNotReady, outside.now);
          return Fine;
        }
      }
      instance.SetMark(DeploymentsReady, outside.now);
      return Fine;
    }

    method DeleteObsoleteStage(instance: KnativeServing) returns (out: Outcome)
      requires Valid() && instance !in cache.repr
      modifies this`outside, cache
      ensures Valid() && fresh(cache.repr - old(cache.repr)) && instance !in cache.repr
      ensures Pass(State(), instance.Value(), out) == DeleteObsolete(old(State()), instance.Value())
    {
      hide DeletePhase, Obsolete, Cache.Value, Cache.Valid, State, Valid;
      var ok := DeleteResources(Obsolete(instance.key.namespace));
      out := if ok then Fine else Failing;
    }

    method RunOneStage(stage: Stage, manifest: seq<Resource>, instance: KnativeServing) returns (out: Outcome)
      requires Valid() && instance !in cache.repr
      modifies this`outside, cache, instance
      ensures Valid() && fresh(cache.repr - old(cache.repr)) && instance !in cache.repr
      ensures Pass(State(), instance.Value(), out) == RunStage(stage, old(State()), manifest, old(instance.Value()))
    {
      hide EnsureFinalizer, InitStatus, Install, CheckDeployments, DeleteObsolete, Cache.Value, Cache.Valid, State,
           Valid;
      match stage
      case EnsuringFinalizer => out := EnsureFinalizerStage(instance);
      case InitializingStatus => out := InitStatusStage(instance);
      case Installing => out := InstallStage(manifest, instance);
      case CheckingDeployments => out := CheckDeploymentsStage(manifest, instance);
      case DeletingObsolete => out := DeleteObsoleteStage(instance);
    }

    // ----- the hand-written reconciler

    /** `transform`: afresh from the shipped manifest. */
    method TransformShipped(instance: KnativeServing) returns (manifest: Option<Manifest>)
      requires Valid()
      modifies this`outside, cache
      ensures Valid() && fresh(cache.repr - old(cache.repr))
      ensures State() == TakeTurn(old(State()))
      ensures manifest ==
              if NextTurn(old(State())).fault == NoFault then Render(State().config, old(instance.Value())) else None
    {
      hide TakeTurn, InjectedAll, Pipeline.TransformAll, Cache.Value, Cache.Valid;
      var turn := EnvironmentTurn();
      if turn.fault != NoFault {
        return None;
      }
      var result := InPlace.RunTransformers(instance.spec, InjectedAll(instance.key.namespace, outside.config));
      manifest := if result.Ok? then Some(result.value) else None;
    }

    /** `reconcile`: the stages in turn, up to the first error. */
    method ReconcileStages(instance: KnativeServing) returns (out: Outcome)
      requires Valid() && instance !in cache.repr
      modifies this`outside, cache, instance
      ensures Valid() && fresh(cache.repr - old(cache.repr)) && instance !in cache.repr
      ensures Pass(State(), instance.Value(), out) == Converge(old(State()), old(instance.Value()))
    {
      hide TakeTurn, Render, RunStage, Marked, Cache.Value, Cache.Valid, Valid;
      var manifest := TransformShipped(instance);
      if manifest.None? {
        instance.SetMark(InstallFailing("transform"), outside.now);
        return Failing;
      }
      out := RunAllStages(manifest.value, instance);
    }

    method RunAllStages(manifest: seq<Resource>, instance: KnativeServing) returns (out: Outcome)
      requires Valid() && instance !in cache.repr
      modifies this`outside, cache, instance
      ensures Valid() && fresh(cache.repr - old(cache.repr)) && instance !in cache.repr
      ensures Pass(State(), instance.Value(), out) == RunStages(STAGES, old(State()), manifest, old(instance.Value()))
    {
      hide RunStage, Cache.Value, Cache.Valid, State, Valid;
      for i := 0 to |STAGES|
        invariant Valid() && fresh(cache.repr - old(cache.repr)) && instance !in cache.repr
        invariant RunStages(STAGES[i..], State(), manifest, instance.Value()) ==
                  RunStages(STAGES, old(State()), manifest, old(instance.Value()))
      {
        assert STAGES[i..][0] == STAGES[i] && STAGES[i..][1..] == STAGES[i + 1..];
        out := RunOneStage(STAGES[i], manifest, instance);
        if out != Fine {
          return;
        }
      }
      out := Fine;
    }

    /** `ReconcileKind`: the generation gate, its reports, and the stages. */
    method ReconcileGated(instance: KnativeServing) returns (out: Outcome)
      requires Valid() && instance !in cache.repr
      modifies this`outside, this`servings, cache, instance
      ensures Valid() && fresh(cache.repr - old(cache.repr)) && instance !in cache.repr
      ensures Pass(State(), instance.Value(), out) == ReconcileKind(old(State()), old(instance.Value()))
    {
      hide Converge, Cache.Value, Cache.Valid;
      var key, generation := instance.key, instance.generation;
      if key in servings {
        if generation > servings[key] {
          outside := outside.(log := outside.log + [Reported(key, Edited)]);
        } else if generation < servings[key] {
          return Failing;
        }
      } else {
        if generation == 1 {
          outside := outside.(log := outside.log + [Reported(key, Creation)]);
        }
      }
      servings := servings[key := generation];
      out := ReconcileStages(instance);
    }

    /** The end of `delete`: the object is fetched from the cache and edited
        there, by way of the pointer, before it is sent. */
    method ReleaseFinalizer(key: Key) returns (out: Outcome)
      requires Valid()
      modifies this`outside, cache, cache.repr
      ensures Valid() && fresh(cache.repr - old(cache.repr))
      ensures var p := DropFinalizer(old(State()), key); State() == p.w && out == p.out
      ensures forall o | o in old(cache.repr) :: o.Value() == old(o.Value()).(finalizers := o.finalizers)
    {
      hide TakeTurn, Update, Cache.Value;
      var refetched := List(key);
      if refetched == null {
        return Failing;
      }
      if refetched.finalizers == [] {
        return Panicking;
      }
      cache.CutFinalizer(key, refetched);
      outside := outside.(released := outside.released + {cache.entries[key].at},
                          log := outside.log + [Released(key, cache.entries[key].at)]);
      var reply := SendUpdate(refetched);
      out := if reply.Ok? then Fine else Failing;
    }

    /** `delete`, from the manifest as shipped. */
    method DeleteManifest(instance: KnativeServing) returns (out: Outcome)
      requires Valid() && instance !in cache.repr
      modifies this`outside, cache, cache.repr
      ensures Valid() && fresh(cache.repr - old(cache.repr)) && instance !in cache.repr
      ensures var p := Teardown(old(State()), instance.Value()); State() == p.w && out == p.out
      ensures forall o | o in old(cache.repr) :: o.Value() == old(o.Value()).(finalizers := o.finalizers)
    {
      hide DeletePhase, DropFinalizer, TeardownPhases, Cache.Value, Cache.Valid;
      if |instance.finalizers| == 0 || instance.finalizers[0] != D {
        return Fine;
      }
      if |servings| == 0 {
        var phases := TeardownPhases(outside.config);
        ghost var goal := DeletePhases(State(), phases);
        for i := 0 to |phases|
          invariant Valid() && fresh(cache.repr - old(cache.repr))
          invariant forall o | o in old(cache.repr) :: o.Value() == old(o.Value())
          invariant DeletePhases(State(), phases[i..]) == goal
        {
          assert phases[i..][0] == phases[i] && phases[i..][1..] == phases[i + 1..];
          var ok := DeleteResources(phases[i]);
          if !ok {
            return Failing;
          }
        }
      }
      out := ReleaseFinalizer(instance.key);
    }

    /** `FinalizeKind`. */
    method Finalize(instance: KnativeServing) returns (out: Outcome)
      requires Valid() && instance !in cache.repr
      modifies this`outside, this`servings, cache, cache.repr
      ensures Valid() && fresh(cache.repr - old(cache.repr)) && instance !in cache.repr
      ensures var p := FinalizeKind(old(State()), instance.Value()); State() == p.w && out == p.out
      ensures forall o | o in old(cache.repr) :: o.Value() == old(o.Value()).(finalizers := o.finalizers)
    {
      hide Teardown, Cache.Value, Cache.Valid;
      servings := servings - {instance.key};
      outside := outside.(log := outside.log + [Finalizing(instance.key, servings != map[])]);
      out := DeleteManifest(instance);
    }

    // ----- the generated reconciler

    /** An undeleted object's pass works on a copy: the objects of the cache are
        not in its frame. */
    method LivePass(original: KnativeServing) returns (resource: KnativeServing, out: Outcome)
      requires Valid() && original in cache.repr
      modifies this`outside, this`servings, cache
      ensures Valid() && fresh(cache.repr - old(cache.repr)) && fresh(resource) && resource !in cache.repr
      ensures Pass(State(), resource.Value(), out) == ReconcileLive(old(State()), old(original.Value()))
    {
      hide SetFinalizer, ReconcileKind, Cache.Value, Cache.Valid, State, Valid;
      resource := original.DeepCopy();
      var ok;
      resource, ok := SetFinalizerIfFinalizer(resource);
      out := ReconcileGated(resource);
    }

    method DeletingPass(original: KnativeServing) returns (resource: KnativeServing, out: Outcome)
      requires Valid() && original in cache.repr
      modifies this`outside, this`servings, cache, cache.repr
      ensures Valid() && fresh(cache.repr - old(cache.repr)) && fresh(resource) && resource !in cache.repr
      ensures var p := ReconcileDeleting(old(State()), old(original.Value()));
              State() == p.w && out == p.out && (out != Panicking ==> resource.Value() == p.obj)
      ensures forall o | o in old(cache.repr) :: o.Value() == old(o.Value()).(finalizers := o.finalizers)
    {
      hide FinalizeKind, ClearFinalizer, Cache.Value, Cache.Valid, State, Valid;
      resource := original.DeepCopy();
      out := Finalize(resource);
      if out != Panicking {
        var ok;
        resource, ok := ClearFinalizerAfter(resource, out);
      }
    }

    /** The status write at the end; `listed` is what the pass began with. */
    method SynchronizeStatus(original: KnativeServing, resource: KnativeServing, out: Outcome, ghost listed: Serving)
      returns (result: Outcome)
      requires Valid() && original.Value() == listed.(finalizers := original.finalizers)
      modifies this`outside, cache
      ensures Valid() && fresh(cache.repr - old(cache.repr))
      ensures var p := SyncStatus(Pass(old(State()), old(resource.Value()), out), listed);
              State() == p.w && result == p.out
    {
      hide UpdateStatusFrom, SameStatus, Cache.Value, Cache.Valid, State, Valid;
      if SameStatus(original.status, resource.status) {
        return out;
      }
      RetryIgnoresFinalizers(State(), listed, original.finalizers, resource.Value());
      FinePass(State(), listed, resource.Value());
      var ok := UpdateStatusLoop(original, resource);
      result := if ok then out else Failing;
    }

    static lemma FinePass(w: World, original: Serving, desired: Serving)
      ensures UpdateStatusFrom(w, 0, original, desired).out in {Fine, Failing}
    {
      hide UpdateStatus, Fetch;
      NeverPanics(w, 0, original, desired);
    }

    static lemma {:induction false} NeverPanics(w: World, attempt: nat, existing: Serving, desired: Serving)
      requires attempt < ATTEMPTS
      ensures UpdateStatusFrom(w, attempt, existing, desired).out != Panicking
      decreases ATTEMPTS - attempt
    {
      hide UpdateStatus, Fetch;
      var fetched := if attempt == 0 then Reply(w, Ok(existing)) else Fetch(w, desired.key);
      if fetched.result.Ok? && attempt + 1 < ATTEMPTS {
        var reply := UpdateStatus(fetched.w, fetched.result.value.(status := desired.status));
        NeverPanics(reply.w, attempt + 1, fetched.result.value, desired);
      }
    }

    /** `Reconcile`: a pass over a key does to the world what the function of that
        name says. While the object it lists is not being deleted it writes to no
        object of the cache; otherwise to their finalizers only. */
    method ReconcileKey(key: Key) returns (out: Outcome)
      requires Valid()
      modifies this`outside, this`servings, cache, cache.repr
      ensures Valid() && fresh(cache.repr - old(cache.repr))
      ensures var p := Reconcile(old(State()), key); State() == p.w && out == p.out
      ensures forall o | o in old(cache.repr) :: o.Value() == old(o.Value()).(finalizers := o.finalizers)
      ensures var listed := Listed(TakeTurn(old(State())), key);
              listed.Some? && !listed.value.deleting ==> forall o | o in old(cache.repr) :: unchanged(o)
    {
      hide TakeTurn, Listed, ReconcileLive, ReconcileDeleting, SyncStatus, Cache.Value, Cache.Valid, State, Valid;
      var original := List(key);
      if original == null {
        return Fine;
      }
      ghost var listed := original.Value();
      var resource;
      if !original.deleting {
        resource, out := LivePass(original);
      } else {
        resource, out := DeletingPass(original);
      }
      if out != Panicking {
        out := SynchronizeStatus(original, resource, out, listed);
      }
    }
  }
}
