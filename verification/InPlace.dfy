/** The transformers as they work: each edits the resource it is handed, in
    place; `Manifest.Transform` hands them copies. */
module InPlace {
  import opened Conditions
  import opened Pipeline
  import opened ResourceLists
  import opened Resources
  import opened Transforms

  /** A resource of a manifest, identity apart mutable. */
  class Unstructured {
    const apiVersion: string
    const kind: string
    const namespace: string
    const name: string
    const created: bool
    var body: Body

    constructor (r: Resource)
      ensures Value() == r
    {
      apiVersion, kind, namespace, name, created := r.apiVersion, r.kind, r.namespace, r.name, r.created;
      body := r.body;
    }

    function Value(): Resource
      reads this
    {
      Resource(apiVersion, kind, namespace, name, created, body)
    }
  }

  // ----- config maps

  /** Sets a key, unless it holds the value already. */
  method SetKey(u: Unstructured, k: string, v: string)
    requires u.body.ConfigMapBody?
    modifies u
    ensures u.body == ConfigMapBody(Some(DataOf(old(u.body.data))[k := v]))
  {
    var data := DataOf(u.body.data);
    if k in data && data[k] == v {
      assert data[k := v] == data;
      return;
    }
    u.body := ConfigMapBody(Some(data[k := v]));
  }

  /** Sets the overrides one by one, in whatever order the map yields them. */
  method UpdateConfigMap(u: Unstructured, overrides: map<string, string>)
    requires u.body.ConfigMapBody?
    modifies u
    ensures u.body == ConfigMapBody(Overlaid(old(u.body.data), overrides))
  {
    hide Overlays;
    ghost var before := DataOf(u.body.data);
    OverlaysNone(before, overrides);
    var todo := overrides.Keys;
    while todo != {}
      invariant u.body.ConfigMapBody? && Overlays(DataOf(u.body.data), before, overrides, todo)
      invariant if todo == overrides.Keys then u.body == old(u.body) else u.body.data.Some?
      decreases |todo|
    {
      var k :| k in todo;
      OverlaysStep(DataOf(u.body.data), before, overrides, todo, k);
      SetKey(u, k, overrides[k]);
      todo := todo - {k};
    }
    OverlaysAll(old(u.body.data), u.body.data, overrides);
  }

  lemma OverlaysAll(before: Option<map<string, string>>, data: Option<map<string, string>>,
                    overrides: map<string, string>)
    requires Overlays(DataOf(data), DataOf(before), overrides, {})
    requires if overrides == map[] then data == before else data.Some?
    ensures data == Overlaid(before, overrides)
  {
    OverlaysDone(DataOf(data), DataOf(before), overrides);
    assert map[] + overrides == overrides;
  }

  method TransformConfigMap(spec: KnativeServingSpec, u: Unstructured)
    requires WellTyped(u.Value())
    modifies u
    ensures u.Value() == ConfigMapTransform(spec, old(u.Value()))
  {
    if u.kind == "ConfigMap" {
      var key := u.name[|CONFIG_PREFIX|..];
      if key in spec.config {
        UpdateConfigMap(u, spec.config[key]);
      }
    }
  }

  // ----- images

  /** The loop over the containers, through a reference into the array. */
  method UpdateImage(containers: array<Container>, registry: Registry)
    modifies containers
    ensures containers[..] == UpdatedContainers(registry, old(containers[..]))
    ensures forall k | 0 <= k < containers.Length ::
              var c := old(containers[k]);
              containers[k].name == c.name && ImageFor(registry, c.name, c.image, containers[k].image)
  {
    hide ImageFor;
    for i := 0 to containers.Length
      invariant forall k | 0 <= k < i ::
                  var c := old(containers[k]);
                  containers[k] == c.(image := ChosenImage(registry, c.name, c.image))
      invariant forall k | i <= k < containers.Length :: containers[k] == old(containers[k])
    {
      var image := GetNewImage(registry, containers[i].name);
      if image != "" {
        containers[i] := containers[i].(image := image);
      }
    }
    forall k | 0 <= k < containers.Length
      ensures ImageFor(registry, old(containers[k]).name, old(containers[k]).image, containers[k].image)
    {
      ChosenIsImageFor(registry, old(containers[k]).name, old(containers[k]).image);
    }
  }

  /** Appends the registry's secrets, if it has any. */
  method AddImagePullSecrets(secrets: seq<string>, registry: Registry) returns (all: seq<string>)
    ensures all == secrets + registry.imagePullSecrets
  {
    all := secrets;
    if |registry.imagePullSecrets| > 0 {
      all := all + registry.imagePullSecrets;
    }
  }

  /** Converts, updates and converts back a Deployment or DaemonSet. */
  method UpdateRegistry(u: Unstructured, registry: Registry)
    requires u.body.WorkloadBody?
    modifies u
    ensures var pod := old(u.body.pod);
            u.body == old(u.body).(pod := pod.(
              containers := UpdatedContainers(registry, pod.containers),
              imagePullSecrets := pod.imagePullSecrets + registry.imagePullSecrets))
  {
    var pod := u.body.pod;
    var containers := new Container[|pod.containers|](i requires 0 <= i < |pod.containers| => pod.containers[i]);
    assert containers[..] == pod.containers;
    UpdateImage(containers, registry);
    var secrets := AddImagePullSecrets(pod.imagePullSecrets, registry);
    u.body := u.body.(pod := pod.(containers := containers[..], imagePullSecrets := secrets));
  }

  method UpdateCachingImage(u: Unstructured, registry: Registry)
    requires u.body.ImageBody?
    modifies u
    ensures u.body == ImageBody(ChosenImage(registry, u.name, old(u.body.image)),
                                old(u.body.imagePullSecrets) + registry.imagePullSecrets, None)
    ensures ImageFor(registry, u.name, old(u.body.image), u.body.image)
  {
    ChosenIsImageFor(registry, u.name, u.body.image);
    var image := GetNewImage(registry, u.name);
    if image != "" {
      u.body := u.body.(image := image);
    }
    var secrets := AddImagePullSecrets(u.body.imagePullSecrets, registry);
    u.body := u.body.(imagePullSecrets := secrets);
    // a status that converting put there goes
    u.body := u.body.(status := None);
  }

  method TransformImage(spec: KnativeServingSpec, u: Unstructured)
    requires WellTyped(u.Value())
    modifies u
    ensures u.Value() == ImageTransform(spec, old(u.Value()))
    ensures u.kind == "Image" && u.apiVersion == "caching.internal.knative.dev/v1alpha1" ==>
              ImageFor(spec.registry, u.name, old(u.body.image), u.body.image)
    ensures u.kind == "Deployment" || u.kind == "DaemonSet" ==>
              forall k | 0 <= k < |old(u.body.pod.containers)| ::
                var c := old(u.body.pod.containers)[k];
                ImageFor(spec.registry, c.name, c.image, u.body.pod.containers[k].image)
  {
    hide ImageFor;
    if u.kind == "Deployment" || u.kind == "DaemonSet" {
      forall k | 0 <= k < |u.body.pod.containers| {
        ChosenIsImageFor(spec.registry, u.body.pod.containers[k].name, u.body.pod.containers[k].image);
      }
    }
    if u.kind == "Deployment" || u.kind == "DaemonSet" {
      UpdateRegistry(u, spec.registry);
    } else if u.kind == "Image" && u.apiVersion == CACHING_API {
      UpdateCachingImage(u, spec.registry);
    }
  }

  // ----- gateways

  method UpdateGateway(u: Unstructured, selector: map<string, string>)
    requires u.body.GatewayBody?
    modifies u
    ensures u.body == if selector != map[] then GatewayBody(selector) else old(u.body)
  {
    if |selector| > 0 {
      u.body := u.body.(selector := selector);
    }
  }

  method TransformGateway(spec: KnativeServingSpec, u: Unstructured)
    requires WellTyped(u.Value())
    modifies u
    ensures u.Value() == GatewayTransform(spec, old(u.Value()))
  {
    if u.apiVersion == ISTIO_API && u.kind == "Gateway" {
      if u.name == "knative-ingress-gateway" {
        UpdateGateway(u, spec.knativeIngressGateway);
      } else if u.name == "cluster-local-gateway" {
        UpdateGateway(u, spec.clusterLocalGateway);
      }
    }
  }

  // ----- custom certificates

  /** Appends to the volumes, and to the first container's mounts and
      environment. */
  method ConfigureCustomCerts(pod: PodSpec, certs: CustomCerts) returns (result: Result<PodSpec, TransformError>)
    requires pod.containers != []
    ensures var volume := CertsVolume(certs);
            result == if volume.Ok? then Ok(WithCerts(pod, volume.value)) else Err(volume.error)
  {
    var source;
    match certs.ctype {
      case "ConfigMap" => source := FromConfigMap(certs.name);
      case "Secret" => source := FromSecret(certs.name);
      case _ => return Err(UnknownCertsType(certs.ctype));
    }
    var name := CERTS_PREFIX + certs.name;
    assert name == CERTS_PREFIX <==> certs.name == "" by {
      assert |name| == |CERTS_PREFIX| + |certs.name|;
    }
    if name == CERTS_PREFIX {
      return Err(MissingCertsName(certs.ctype));
    }
    var volumes := pod.volumes + [Volume(name, source)];
    var containers := new Container[|pod.containers|](i requires 0 <= i < |pod.containers| => pod.containers[i]);
    containers[0] := containers[0].(volumeMounts := containers[0].volumeMounts + [VolumeMount(name, CERTS_PATH)]);
    containers[0] := containers[0].(env := containers[0].env + [EnvVar(CERTS_ENV, CERTS_PATH)]);
    result := Ok(pod.(volumes := volumes, containers := containers[..]));
    assert result.value.containers == WithCerts(pod, CertsVolume(certs).value).containers;
  }

  method TransformCustomCerts(spec: KnativeServingSpec, u: Unstructured) returns (error: Option<TransformError>)
    requires WellTyped(u.Value())
    modifies u
    ensures var result := CustomCertsTransform(spec, old(u.Value()));
            if error.None? then result == Ok(u.Value()) else result == Err(error.value) && u.Value() == old(u.Value())
  {
    if spec.controllerCustomCerts == CustomCerts("", "") {
      return None;
    }
    if u.kind == "Deployment" && u.name == "controller" {
      var configured := ConfigureCustomCerts(u.body.pod, spec.controllerCustomCerts);
      if configured.Err? {
        return Some(configured.error);
      }
      u.body := u.body.(pod := configured.value);
    }
    return None;
  }

  // ----- high availability

  method TransformHighAvailability(spec: KnativeServingSpec, u: Unstructured)
    requires WellTyped(u.Value())
    modifies u
    ensures u.Value() == HighAvailabilityTransform(spec, old(u.Value()))
  {
    if spec.highAvailability.None? {
      return;
    }
    if u.kind == "ConfigMap" && u.name == LEADER_ELECTION {
      var data := if u.body.data.Some? then u.body.data.value else map[];
      data := data[ENABLED_COMPONENTS := COMPONENTS];
      u.body := u.body.(data := Some(data));
    }
    var replicas := spec.highAvailability.value;
    if u.kind == "Deployment" && u.name in HA_DEPLOYMENTS {
      u.body := u.body.(replicas := Some(replicas));
    }
    if u.kind == "HorizontalPodAutoscaler" {
      var minimum := if u.body.minReplicas.Some? then u.body.minReplicas.value else 0;
      if minimum > replicas {
        return;
      }
      u.body := u.body.(minReplicas := Some(replicas));
    }
  }

  // ----- resource requirements

  method TransformResourceRequirements(overrides: seq<Override>, u: Unstructured,
                                       ghost lists: set<Quantities>, ghost spec: KnativeServingSpec)
    requires WellTyped(u.Value()) && Reads(overrides, lists, spec.resources)
    modifies u
    ensures u.Value() == ResourceRequirementsTransform(spec, old(u.Value()))
  {
    if u.kind == "Deployment" {
      var containers := ConstrainPod(overrides, u.body.pod.containers, lists, spec.resources);
      u.body := u.body.(pod := u.body.pod.(containers := containers));
    }
  }

  // ----- the pipeline

  /** One transformer of the list, on one resource. */
  method Apply(t: Transform, spec: KnativeServingSpec, overrides: seq<Override>, u: Unstructured,
      ghost lists: set<Quantities>)
    returns (error: Option<TransformError>)
    requires WellTyped(u.Value()) && Reads(overrides, lists, spec.resources)
    modifies u
    ensures if error.None? then RunOne(t, spec, old(u.Value())) == Ok(u.Value())
            else RunOne(t, spec, old(u.Value())) == Err(error.value)
  {
    error := None;
    match t
    case ConfigMaps => TransformConfigMap(spec, u);
    case Images => TransformImage(spec, u);
    case Gateways => TransformGateway(spec, u);
    case CustomCertificates => error := TransformCustomCerts(spec, u);
    case HighAvailability => TransformHighAvailability(spec, u);
    case ResourceRequirements => TransformResourceRequirements(overrides, u, lists, spec);
  }

  /** The whole list on one resource, up to the first error. */
  method ApplyAll(order: seq<Transform>, spec: KnativeServingSpec, overrides: seq<Override>, u: Unstructured,
                  ghost lists: set<Quantities>)
    returns (error: Option<TransformError>)
    requires WellTyped(u.Value()) && Reads(overrides, lists, spec.resources)
    modifies u
    ensures if error.None? then RunAll(order, spec, old(u.Value())) == Ok(u.Value())
            else RunAll(order, spec, old(u.Value())) == Err(error.value)
  {
    hide WellTyped, RunOne, Reads;
    for i := 0 to |order|
      invariant WellTyped(u.Value()) && Reads(overrides, lists, spec.resources)
      invariant RunAll(order, spec, old(u.Value())) == RunAll(order[i..], spec, u.Value())
    {
      RunKeepsIdentity(order[i], spec, u.Value());
      assert order[i..][0] == order[i] && order[i..][1..] == order[i + 1..];
      error := Apply(order[i], spec, overrides, u, lists);
      if error.Some? {
        return;
      }
    }
    error := None;
  }

  function ValuesOf(us: seq<Unstructured>): seq<Resource>
    reads us
  {
    seq(|us|, i requires 0 <= i < |us| reads us => us[i].Value())
  }

  /** `Manifest.Transform`: a copy of each resource through the list. The shipped
      resources, and the spec's own lists, are not written, so each pass starts
      from what was shipped and nothing accumulates. */
  method TransformManifest(config: seq<Unstructured>, spec: KnativeServingSpec, overrides: seq<Override>,
                           ghost lists: set<Quantities>)
    returns (result: Result<seq<Unstructured>, TransformError>)
    requires AllWellTyped(ValuesOf(config)) && Reads(overrides, lists, spec.resources)
    ensures result.Ok? ==>
              && (forall u | u in result.value :: fresh(u))
              && TransformAll(SHIPPED_ORDER, spec, ValuesOf(config)) == Ok(ValuesOf(result.value))
    ensures result.Err? ==> TransformAll(SHIPPED_ORDER, spec, ValuesOf(config)) == Err(result.error)
  {
    hide WellTyped, RunAll, Reads;
    var done: seq<Unstructured> := [];
    var i := 0;
    while i < |config|
      invariant 0 <= i <= |config| && |done| == i
      invariant forall u | u in done :: fresh(u)
      invariant TransformsTo(spec, ValuesOf(config), i, ValuesOf(done))
    {
      assert ValuesOf(config)[i] in ValuesOf(config);
      var copy := new Unstructured(config[i].Value());
      var error := ApplyAll(SHIPPED_ORDER, spec, overrides, copy, lists);
      if error.Some? {
        FailsAt(spec, ValuesOf(config), i, ValuesOf(done), error.value);
        return Err(error.value);
      }
      ghost var before := ValuesOf(done);
      done := done + [copy];
      assert ValuesOf(done) == before + [copy.Value()];
      i := i + 1;
    }
    AllTransformed(spec, ValuesOf(config), ValuesOf(done));
    result := Ok(done);
  }

  /** The first `n` resources transform to `done`. */
  ghost predicate TransformsTo(spec: KnativeServingSpec, rs: seq<Resource>, n: nat, done: seq<Resource>)
    requires AllWellTyped(rs)
  {
    && n <= |rs| && |done| == n
    && forall i | 0 <= i < n :: rs[i] in rs && RunAll(SHIPPED_ORDER, spec, rs[i]) == Ok(done[i])
  }

  lemma {:induction false} FailsAt(spec: KnativeServingSpec, rs: seq<Resource>, n: nat, done: seq<Resource>,
      error: TransformError)
    requires AllWellTyped(rs) && n < |rs| && TransformsTo(spec, rs, n, done)
    requires rs[n] in rs && RunAll(SHIPPED_ORDER, spec, rs[n]) == Err(error)
    ensures TransformAll(SHIPPED_ORDER, spec, rs) == Err(error)
    decreases |rs|
  {
    if n > 0 {
      assert forall r | r in rs[1..] :: r in rs;
      FailsAt(spec, rs[1..], n - 1, done[1..], error);
    }
  }

  lemma {:induction false} AllTransformed(spec: KnativeServingSpec, rs: seq<Resource>, done: seq<Resource>)
    requires AllWellTyped(rs) && TransformsTo(spec, rs, |rs|, done)
    ensures TransformAll(SHIPPED_ORDER, spec, rs) == Ok(done)
    decreases |rs|
  {
    if rs != [] {
      assert forall r | r in rs[1..] :: r in rs;
      AllTransformed(spec, rs[1..], done[1..]);
      assert done == [done[0]] + done[1..];
    }
  }

  /** The spec's overrides as references to lists of their own. */
  method OverridesOf(spec: seq<ResourceOverride>) returns (overrides: seq<Override>, ghost lists: set<Quantities>)
    ensures fresh(lists) && Reads(overrides, lists, spec)
  {
    overrides, lists := [], {};
    while |overrides| < |spec|
      invariant |overrides| <= |spec| && fresh(lists) && Reads(overrides, lists, spec[..|overrides|])
    {
      var o := spec[|overrides|];
      var limits := new Quantities(o.limits);
      var requests := new Quantities(o.requests);
      lists := lists + {limits, requests};
      overrides := overrides + [Override(o.container, limits, requests)];
    }
    assert spec[..|overrides|] == spec;
  }

  /** The resources of a manifest, as objects. */
  method ObjectsOf(rs: seq<Resource>) returns (us: seq<Unstructured>)
    ensures ValuesOf(us) == rs
  {
    us := [];
    while |us| < |rs|
      invariant |us| <= |rs| && ValuesOf(us) == rs[..|us|]
    {
      var u := new Unstructured(rs[|us|]);
      ghost var before := ValuesOf(us);
      us := us + [u];
      assert ValuesOf(us) == before + [u.Value()];
    }
    assert rs[..|us|] == rs;
  }

  /** Values in, values out, objects in between. */
  method RunTransformers(spec: KnativeServingSpec, manifest: Manifest) returns (result: Result<seq<Resource>,
      TransformError>)
    ensures result == TransformAll(SHIPPED_ORDER, spec, manifest)
  {
    hide TransformAll, Reads;
    var overrides, lists := OverridesOf(spec.resources);
    var config := ObjectsOf(manifest);
    var transformed := TransformManifest(config, spec, overrides, lists);
    result := if transformed.Ok? then Ok(ValuesOf(transformed.value)) else Err(transformed.error);
  }
}
