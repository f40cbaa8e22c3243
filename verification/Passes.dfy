/** One pass of the operator over a key, as a function of the world: the
    generated reconciler around the hand-written one. */
module Passes {
  import opened Conditions
  import opened Lifecycle
  import opened Manifests
  import opened Resources
  import opened Text
  import opened World
  import Pipeline

  // version.Version
  const VERSION := "0.14.0"

  datatype Outcome = Fine | Failing | Panicking

  /** Where a step leaves the world, the object it works on, and its error. */
  datatype Pass = Pass(w: World, obj: Serving, out: Outcome)

  // ----- the finalizer of the generated reconciler

  /** The list a patch would send, if one is due: K added to or removed from
      what the cache holds, as `resource` wants it. */
  function PatchDue(resource: Serving, existing: Serving): Option<seq<string>> {
    if K in resource.finalizers then
      if K in existing.finalizers then None else Some(existing.finalizers + [K])
    else if K !in existing.finalizers then None
    else Some(SortedList(Elements(existing.finalizers) - {K}))
  }

  function UpdateFinalizersFiltered(w0: World, resource: Serving): Pass {
    var w := TakeTurn(w0);
    var existing := Listed(w, resource.key);
    if existing.None? then Pass(w, resource, Failing)
    else
      var due := PatchDue(resource, existing.value);
      if due.None? then Pass(w, resource, Fine)
      else
        var reply := Patch(w, resource.key, existing.value.rv, due.value);
        if reply.result.Ok? then Pass(reply.w, reply.result.value, Fine) else Pass(reply.w, ZERO, Failing)
  }

  function SetFinalizer(w: World, resource: Serving): Pass {
    UpdateFinalizersFiltered(w, resource.(finalizers := SortedList(Elements(resource.finalizers) + {K})))
  }

  function ClearFinalizer(w: World, resource: Serving, event: Outcome): Pass {
    var finalizers := Elements(resource.finalizers);
    var kept := if event == Fine then finalizers - {K} else finalizers;
    UpdateFinalizersFiltered(w, resource.(finalizers := SortedList(kept)))
  }

  // ----- the status of the generated reconciler

  const ATTEMPTS := 5

  /** Equal but for transition times. */
  predicate SameStatus(a: Status, b: Status) {
    && a.version == b.version
    && |a.conditions| == |b.conditions|
    && forall i | 0 <= i < |a.conditions| :: Same(a.conditions[i], b.conditions[i])
  }

  /** The retry loop, from a given attempt on: the first uses what the cache
      gave, later ones fetch the object anew. */
  function UpdateStatusFrom(w0: World, attempt: nat, existing0: Serving, desired: Serving): Pass
    requires attempt < ATTEMPTS
    decreases ATTEMPTS - attempt
  {
    var fetched := if attempt == 0 then Reply(w0, Ok(existing0)) else Fetch(w0, desired.key);
    var w := fetched.w;
    if fetched.result.Err? then Pass(w, existing0, Failing)
    else
      var existing := fetched.result.value;
      if existing.status == desired.status then Pass(w, existing, Fine)
      else
        var reply := UpdateStatus(w, existing.(status := desired.status));
        if reply.result.Ok? then Pass(reply.w, existing, Fine)
        else if reply.result.error == Conflict && attempt + 1 < ATTEMPTS then
          UpdateStatusFrom(reply.w, attempt + 1, existing, desired)
        else Pass(reply.w, existing, Failing)
  }

  // ----- the generation gate

  datatype Gate = Gate(servings: map<Key, int>, report: Option<Change>, open: bool)

  function PassGate(servings: map<Key, int>, key: Key, generation: int): Gate {
    if key in servings then
      if generation > servings[key] then Gate(servings[key := generation], Some(Edited), true)
      else if generation < servings[key] then Gate(servings, None, false)
      else Gate(servings[key := generation], None, true)
    else Gate(servings[key := generation], if generation == 1 then Some(Creation) else None, true)
  }

  function Report(w: World, key: Key, report: Option<Change>): World {
    if report.Some? then w.(log := w.log + [Reported(key, report.value)]) else w
  }

  // ----- the stages

  function WithMark(instance: Serving, mark: Mark, now: int): Serving {
    instance.(status := instance.status.(conditions := Marked(instance.status.conditions, mark, now)))
  }

  /** Attaches D with an update whose result is discarded: the instance keeps
      its resource version. */
  function EnsureFinalizer(w: World, instance: Serving): Pass {
    if D in instance.finalizers then Pass(w, instance, Fine)
    else
      var marked := instance.(finalizers := instance.finalizers + [D]);
      var reply := Update(w, marked);
      Pass(reply.w, marked, if reply.result.Ok? then Fine else Failing)
  }

  function InitStatus(w: World, instance: Serving): Pass {
    if instance.status.conditions != [] then Pass(w, instance, Fine)
    else
      var initialized := WithMark(instance, Initializing, w.now);
      var reply := UpdateStatus(w, initialized);
      if reply.result.Ok? then Pass(reply.w, reply.result.value, Fine) else Pass(reply.w, initialized, Failing)
  }

  datatype Phase = Phase(w: World, ok: bool)

  /** The version stored under a key, -1 if none. */
  function LiveVersion(w: World, key: Key): int {
    if key in w.live then w.live[key] else -1
  }

  /** One resource applied for an object; the log has the version stored under
      the object's key at that moment. */
  function ApplyOne(w0: World, instance: Serving, r: Resource): Phase {
    var w := TakeTurn(w0);
    var fault := NextTurn(w0).fault;
    if fault == Dropped then Phase(w, false)
    else
      var applied := w.(cluster := w.cluster[r.Id() := r],
                        log := w.log + [Applied(instance.uid, r.Id(), LiveVersion(w, instance.key))]);
      Phase(applied, fault == NoFault)
  }

  /** `Manifest.Apply`: in sequence, up to the first error. */
  function ApplyPhase(w: World, instance: Serving, rs: seq<Resource>): Phase
    decreases |rs|
  {
    if rs == [] then Phase(w, true)
    else
      var first := ApplyOne(w, instance, rs[0]);
      if first.ok then ApplyPhase(first.w, instance, rs[1..]) else first
  }

  /** The applies of an install, in phases. */
  function ApplyPhases(w: World, instance: Serving, phases: seq<seq<Resource>>): Phase
    decreases |phases|
  {
    if phases == [] then Phase(w, true)
    else
      var first := ApplyPhase(w, instance, phases[0]);
      if first.ok then ApplyPhases(first.w, instance, phases[1..]) else first
  }

  function Install(w: World, manifest: seq<Resource>, instance: Serving): Pass {
    var applied := ApplyPhases(w, instance, InstallPhases(manifest));
    if applied.ok then
      var installed := WithMark(instance, InstallSucceeding, applied.w.now);
      Pass(applied.w, installed.(status := installed.status.(version := VERSION)), Fine)
    else Pass(applied.w, WithMark(instance, InstallFailing("apply"), applied.w.now), Failing)
  }

  datatype Probe = AllAvailable | SomeNotReady | ProbeFailed
  datatype Probed = Probed(w: World, verdict: Probe)

  function ProbeDeployments(w: World, deployments: seq<Resource>): Probed
    decreases |deployments|
  {
    if deployments == [] then Probed(w, AllAvailable)
    else
      var state := NextTurn(w).deployment;
      var next := TakeTurn(w);
      match state
      case Found(_) =>
        if Available(state) then ProbeDeployments(next, deployments[1..]) else Probed(next, SomeNotReady)
      case Missing => Probed(next, SomeNotReady)
      case Unreachable => Probed(next, ProbeFailed)
  }

  function CheckDeployments(w: World, manifest: seq<Resource>, instance: Serving): Pass {
    var probed := ProbeDeployments(w, Deployments(manifest));
    match probed.verdict
    case AllAvailable => Pass(probed.w, WithMark(instance, DeploymentsReady, probed.w.now), Fine)
    case SomeNotReady => Pass(probed.w, WithMark(instance, DeploymentsNotReady, probed.w.now), Fine)
    case ProbeFailed => Pass(probed.w, WithMark(instance, DeploymentsNotReady, probed.w.now), Failing)
  }

  function ObsoleteResource(apiVersion: string, kind: string, namespace: string, name: string): Resource {
    Resource(apiVersion, kind, namespace, name, true, OtherBody(""))
  }

  /** Leftovers of versions 0.3 and 0.5. */
  function Obsolete(namespace: string): seq<Resource> {
    [ ObsoleteResource("v1", "Service", "istio-system", "knative-ingressgateway"),
      ObsoleteResource("apps/v1", "Deployment", "istio-system", "knative-ingressgateway"),
      ObsoleteResource("autoscaling/v1", "HorizontalPodAutoscaler", "istio-system", "knative-ingressgateway"),
      ObsoleteResource("v1", "ConfigMap", namespace, "config-controller") ]
  }

  function DeleteOne(w0: World, r: Resource): Phase {
    var w := TakeTurn(w0);
    var fault := NextTurn(w0).fault;
    if fault == Dropped then Phase(w, false)
    else Phase(w.(cluster := w.cluster - {r.Id()}, log := w.log + [Removed(r.Id())]), fault == NoFault)
  }

  /** Deletions in sequence, up to the first error. */
  function DeletePhase(w: World, rs: seq<Resource>): Phase
    decreases |rs|
  {
    if rs == [] then Phase(w, true)
    else
      var first := DeleteOne(w, rs[0]);
      if first.ok then DeletePhase(first.w, rs[1..]) else first
  }

  function DeletePhases(w: World, phases: seq<seq<Resource>>): Phase
    decreases |phases|
  {
    if phases == [] then Phase(w, true)
    else
      var first := DeletePhase(w, phases[0]);
      if first.ok then DeletePhases(first.w, phases[1..]) else first
  }

  function DeleteObsolete(w: World, instance: Serving): Pass {
    var deleted := DeletePhase(w, Obsolete(instance.key.namespace));
    Pass(deleted.w, instance, if deleted.ok then Fine else Failing)
  }

  datatype Stage = EnsuringFinalizer | InitializingStatus | Installing | CheckingDeployments | DeletingObsolete

  const STAGES := [EnsuringFinalizer, InitializingStatus, Installing, CheckingDeployments, DeletingObsolete]

  function RunStage(stage: Stage, w: World, manifest: seq<Resource>, instance: Serving): Pass {
    match stage
    case EnsuringFinalizer => EnsureFinalizer(w, instance)
    case InitializingStatus => InitStatus(w, instance)
    case Installing => Install(w, manifest, instance)
    case CheckingDeployments => CheckDeployments(w, manifest, instance)
    case DeletingObsolete => DeleteObsolete(w, instance)
  }

  function RunStages(stages: seq<Stage>, w: World, manifest: seq<Resource>, instance: Serving): Pass
    decreases |stages|
  {
    if stages == [] then Pass(w, instance, Fine)
    else
      var first := RunStage(stages[0], w, manifest, instance);
      if first.out == Fine then RunStages(stages[1..], first.w, manifest, first.obj) else first
  }

  // ----- the hand-written reconciler

  /** The manifest a pass works with: the shipped one, moved to the object's
      namespace and run through the spec-driven transformers. */
  function Render(config: Manifest, instance: Serving): Option<Manifest> {
    var result :=
      Pipeline.TransformAll(Pipeline.SHIPPED_ORDER, instance.spec, InjectedAll(instance.key.namespace, config));
    if result.Ok? then Some(result.value) else None
  }

  function Converge(w0: World, instance: Serving): Pass {
    var w := TakeTurn(w0);
    // a platform's transformer may fail on its own account
    var rendered := if NextTurn(w0).fault == NoFault then Render(w.config, instance) else None;
    if rendered.None? then Pass(w, WithMark(instance, InstallFailing("transform"), w.now), Failing)
    else RunStages(STAGES, w, rendered.value, instance)
  }

  function ReconcileKind(w: World, instance: Serving): Pass {
    var gate := PassGate(w.servings, instance.key, instance.generation);
    var counted := Report(w, instance.key, gate.report).(servings := gate.servings);
    if gate.open then Converge(counted, instance) else Pass(counted, instance, Failing)
  }

  /** Drops D with an edit of the cache's own object, which is then sent. */
  function DropFinalizer(w0: World, key: Key): Pass {
    var w := TakeTurn(w0);
    var refetched := Listed(w, key);
    if refetched.None? then Pass(w, ZERO, Failing)
    else if refetched.value.finalizers == [] then Pass(w, refetched.value, Panicking)
    else
      var edited := refetched.value.(finalizers := refetched.value.finalizers[1..]);
      var at := w.cache[key].at;
      var released := w.(cache := w.cache[key := Entry(at, Some(edited))],
                         released := w.released + {at},
                         log := w.log + [Released(key, at)]);
      var reply := Update(released, edited);
      Pass(reply.w, edited, if reply.result.Ok? then Fine else Failing)
  }

  predicate HeadIsD(finalizers: seq<string>) {
    finalizers != [] && finalizers[0] == D
  }

  function Teardown(w: World, instance: Serving): Pass {
    if !HeadIsD(instance.finalizers) then Pass(w, instance, Fine)
    else
      var deleted := if w.servings == map[] then DeletePhases(w, TeardownPhases(w.config)) else Phase(w, true);
      if !deleted.ok then Pass(deleted.w, instance, Failing) else DropFinalizer(deleted.w, instance.key)
  }

  function FinalizeKind(w: World, original: Serving): Pass {
    var servings := w.servings - {original.key};
    Teardown(w.(servings := servings, log := w.log + [Finalizing(original.key, servings != map[])]), original)
  }

  // ----- the generated reconciler

  function ReconcileLive(w: World, original: Serving): Pass {
    var prepared := SetFinalizer(w, original);
    ReconcileKind(prepared.w, prepared.obj)
  }

  function ReconcileDeleting(w: World, original: Serving): Pass {
    var finalized := FinalizeKind(w, original);
    if finalized.out == Panicking then finalized
    else
      var cleared := ClearFinalizer(finalized.w, original, finalized.out);
      Pass(cleared.w, cleared.obj, finalized.out)
  }

  function SyncStatus(pass: Pass, original: Serving): Pass {
    if SameStatus(original.status, pass.obj.status) then pass
    else
      var updated := UpdateStatusFrom(pass.w, 0, original, pass.obj);
      if updated.out == Fine then Pass(updated.w, pass.obj, pass.out) else Pass(updated.w, pass.obj, Failing)
  }

  /** A pass over a key. */
  function Reconcile(w0: World, key: Key): Pass {
    var w := TakeTurn(w0);
    var listed := Listed(w, key);
    if listed.None? then Pass(w, ZERO, Fine)
    else
      var original := listed.value;
      var pass := if original.deleting then ReconcileDeleting(w, original) else ReconcileLive(w, original);
      if pass.out == Panicking then pass else SyncStatus(pass, original)
  }

  // ----- runs

  /** A new process remembers no servings and lists every object afresh. */
  function Restart(w: World): World {
    w.(servings := map[],
       cache := map key | key in w.cache ::
                  if w.cache[key].at < |w.versions| then Told(w, w.cache[key].at) else w.cache[key])
  }

  datatype Event = Elapse | PassOver(key: Key) | Restarting

  /** The environment takes a turn, a worker processes a key (a panic ends the
      process), or the operator restarts. */
  function Happen(w: World, e: Event): World {
    match e
    case Elapse => TakeTurn(w)
    case PassOver(key) =>
      var pass := Reconcile(w, key);
      if pass.out == Panicking then Restart(pass.w) else pass.w
    case Restarting => Restart(w)
  }

  function Run(w: World, events: seq<Event>): World
    decreases |events|
  {
    if events == [] then w else Run(Happen(w, events[0]), events[1..])
  }

  /** Nothing stored, nothing seen, nothing done; any script, any cluster. */
  predicate Initial(w: World) {
    w.versions == [] && w.live == map[] && w.cache == map[] && w.servings == map[] && w.released == {} && w.log == []
  }
}
