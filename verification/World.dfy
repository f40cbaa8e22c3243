/** The world an operator works in: an API server with optimistic locking, a
    read cache that lags behind it, the cluster's resources and an environment
    that acts between any two of the operator's calls. */
module World {
  import opened Conditions
  import opened Lifecycle
  import opened Manifests
  import opened Resources
  import opened Text

  // the finalizer of the generated reconciler and that of the hand-written one
  const K := "knativeservings.operator.knative.dev"
  const D := "delete-knative-serving-manifest"

  datatype Key = Key(namespace: string, name: string)

  /** A KnativeServing. `rv` is its resource version, `labels` stands for the
      rest of its metadata. */
  datatype Serving = Serving(
    key: Key, uid: int, rv: int, generation: int, deleting: bool, finalizers: seq<string>,
    labels: map<string, string>, spec: KnativeServingSpec, status: Status)

  /** The zero object a failed client call returns. */
  const ZERO := Serving(Key("", ""), -1, -1, 0, false, [], map[], EMPTY_SPEC, Status([], ""))

  /** A version the server once stored, the version it replaced (-1 if none),
      and whether it was the object's last: resource versions are indices into
      the list of all versions. */
  datatype Version = Version(obj: Serving, prev: int, gone: bool)

  /** The cache's entry for a key: the version it was last told of, and the
      object it hands out, if that version still existed. */
  datatype Entry = Entry(at: nat, obj: Option<Serving>)

  // ----- the environment's script

  /** What others do: users and controllers edit objects, and the cache is told
      of a version. */
  datatype Edit =
    | Create(key: Key, labels: map<string, string>, finalizers: seq<string>, spec: KnativeServingSpec)
    | Modify(key: Key, labels: map<string, string>, finalizers: seq<string>, spec: KnativeServingSpec)
    | Restatus(key: Key, status: Status)
    | Delete(key: Key)
    | Sync(key: Key, rv: nat)

  /** A call may be lost on its way there, or its reply on the way back. */
  datatype Fault = NoFault | Dropped | LostReply

  datatype DeploymentCondition = DeploymentCondition(ctype: string, status: string)

  /** What asking for a Deployment gives. */
  datatype DeploymentState = Found(conditions: seq<DeploymentCondition>) | Missing | Unreachable

  /** Among a Deployment's own conditions is one that says it is available. */
  predicate Available(state: DeploymentState) {
    state.Found? && exists c | c in state.conditions :: c.ctype == "Available" && c.status == "True"
  }

  /** One turn of the environment, taken just before each of the operator's
      calls: edits, then what becomes of the call, and the time. */
  datatype Turn = Turn(edits: seq<Edit>, fault: Fault, deployment: DeploymentState, now: int)

  const QUIET := Turn([], NoFault, Found([DeploymentCondition("Available", "True")]), 0)

  // ----- what happened

  datatype Change = Creation | Edited

  datatype Action =
    | Wrote(rv: nat, own: bool)
    | Finalizing(key: Key, others: bool)
    | Removed(id: ResourceId)
    | Released(key: Key, rv: nat)
    | Applied(uid: int, id: ResourceId, live: int)
    | Reported(key: Key, change: Change)

  datatype World = World(
    config: Manifest,
    versions: seq<Version>,
    live: map<Key, nat>,
    cache: map<Key, Entry>,
    servings: map<Key, int>,
    cluster: Cluster,
    turns: seq<Turn>,
    now: int,
    released: set<nat>,
    log: seq<Action>)

  /** The object stored under a key. */
  function Live(w: World, key: Key): Serving
    requires key in w.live && w.live[key] < |w.versions|
  {
    w.versions[w.live[key]].obj
  }

  predicate Stored(w: World, key: Key) {
    key in w.live && w.live[key] < |w.versions|
  }

  // ----- writes

  /** Stores a new version; an object being deleted goes with its last finalizer. */
  function Commit(w: World, obj: Serving, own: bool): World {
    var rv := |w.versions|;
    var gone := obj.deleting && obj.finalizers == [];
    var prev: int := if obj.key in w.live then w.live[obj.key] else -1;
    w.(versions := w.versions + [Version(obj.(rv := rv), prev, gone)],
       live := if gone then w.live - {obj.key} else w.live[obj.key := rv],
       log := w.log + [Wrote(rv, own)])
  }

  /** The server refuses new finalizers once an object is being deleted. */
  predicate FinalizersAllowed(current: Serving, finalizers: seq<string>) {
    current.deleting ==> Elements(finalizers) <= Elements(current.finalizers)
  }

  function Rewritten(current: Serving, obj: Serving): Serving {
    current.(labels := obj.labels, finalizers := obj.finalizers, spec := obj.spec,
             generation := if obj.spec == current.spec then current.generation else current.generation + 1)
  }

  // ----- the environment

  /** The environment leaves D alone: it neither adds nor removes it, and what
      it creates comes without it. */
  predicate LeavesAlone(w: World, e: Edit) {
    match e
    case Create(key, labels, finalizers, spec) => D !in finalizers
    case Modify(key, labels, finalizers, spec) =>
      Stored(w, key) ==> (D in finalizers <==> D in Live(w, key).finalizers)
    case _ => true
  }

  /** An edit; one the server refuses, or the assumption above excludes, does
      nothing. The cache only ever moves forward. */
  function EditStep(w: World, e: Edit): World {
    if !LeavesAlone(w, e) then w
    else
      match e
      case Create(key, labels, finalizers, spec) =>
        if key.name == "" || key in w.live then w
        else Commit(w, Serving(key, |w.versions|, -1, 1, false, finalizers, labels, spec, Status([], "")), false)
      case Modify(key, labels, finalizers, spec) =>
        if !Stored(w, key) || !FinalizersAllowed(Live(w, key), finalizers) then w
        else
          var current := Live(w, key);
          Commit(w, Rewritten(current, current.(labels := labels, finalizers := finalizers, spec := spec)), false)
      case Restatus(key, status) =>
        if !Stored(w, key) then w else Commit(w, Live(w, key).(status := status), false)
      case Delete(key) =>
        if !Stored(w, key) || Live(w, key).deleting then w
        else
          var current := Live(w, key);
          Commit(w, current.(deleting := true, generation := current.generation + 1), false)
      case Sync(key, rv) =>
        if rv < |w.versions| && w.versions[rv].obj.key == key && (key in w.cache ==> w.cache[key].at <= rv) then
          w.(cache := w.cache[key := Told(w, rv)])
        else w
  }

  /** What the cache holds once told of a version. */
  function Told(w: World, rv: nat): Entry
    requires rv < |w.versions|
  {
    Entry(rv, if w.versions[rv].gone then None else Some(w.versions[rv].obj))
  }

  function EditAll(w: World, edits: seq<Edit>): World
    decreases |edits|
  {
    if edits == [] then w else EditAll(EditStep(w, edits[0]), edits[1..])
  }

  function NextTurn(w: World): Turn {
    if w.turns == [] then QUIET else w.turns[0]
  }

  function TakeTurn(w: World): World {
    var turn := NextTurn(w);
    EditAll(w.(turns := if w.turns == [] then [] else w.turns[1..], now := turn.now), turn.edits)
  }

  // ----- the client

  datatype ApiError = Conflict | NotFound | Invalid | Failed

  /** The world after a call, and what the caller sees. */
  datatype Reply = Reply(w: World, result: Result<Serving, ApiError>)

  /** Why the server would refuse to replace what is stored under `key` at
      version `rv`. */
  function Refusal(w: World, key: Key, rv: int, finalizers: seq<string>): Option<ApiError> {
    if !Stored(w, key) then Some(NotFound)
    else if w.live[key] != rv then Some(Conflict)
    else if !FinalizersAllowed(Live(w, key), finalizers) then Some(Invalid)
    else None
  }

  /** A write of `obj`, after the turn's edits are in. */
  function Send(w: World, fault: Fault, refusal: Option<ApiError>, obj: Serving): Reply {
    if fault == Dropped then Reply(w, Err(Failed))
    else if refusal.Some? then Reply(w, Err(if fault == LostReply then Failed else refusal.value))
    else
      var w' := Commit(w, obj, true);
      Reply(w', if fault == LostReply then Err(Failed) else Ok(w'.versions[|w.versions|].obj))
  }

  /** A JSON merge patch (section 2 of RFC 7396) of the finalizers, guarded by
      the resource version: the list is replaced whole. */
  function Patch(w0: World, key: Key, rv: int, finalizers: seq<string>): Reply {
    var w := TakeTurn(w0);
    if key.name == "" then Reply(w, Err(Invalid))
    else
      var refusal := Refusal(w, key, rv, finalizers);
      var obj := if refusal.None? then Live(w, key).(finalizers := finalizers) else ZERO;
      Send(w, NextTurn(w0).fault, refusal, obj)
  }

  /** Everything but the status, which is a subresource. */
  function Update(w0: World, sent: Serving): Reply {
    var w := TakeTurn(w0);
    if sent.key.name == "" then Reply(w, Err(Invalid))
    else
      var refusal := Refusal(w, sent.key, sent.rv, sent.finalizers);
      var obj := if refusal.None? then Rewritten(Live(w, sent.key), sent) else ZERO;
      Send(w, NextTurn(w0).fault, refusal, obj)
  }

  /** The status and nothing else. */
  function UpdateStatus(w0: World, sent: Serving): Reply {
    var w := TakeTurn(w0);
    if sent.key.name == "" then Reply(w, Err(Invalid))
    else
      var refusal := Refusal(w, sent.key, sent.rv, []);
      var obj := if refusal.None? then Live(w, sent.key).(status := sent.status) else ZERO;
      Send(w, NextTurn(w0).fault, refusal, obj)
  }

  function Fetch(w0: World, key: Key): Reply {
    var w := TakeTurn(w0);
    if key.name == "" then Reply(w, Err(Invalid))
    else if NextTurn(w0).fault != NoFault then Reply(w, Err(Failed))
    else if !Stored(w, key) then Reply(w, Err(NotFound))
    else Reply(w, Ok(Live(w, key)))
  }

  // ----- the lister: reads the cache, whatever it holds by then

  function Listed(w: World, key: Key): Option<Serving> {
    if key in w.cache then w.cache[key].obj else None
  }
}
