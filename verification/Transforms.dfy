/** The six spec-driven transformers, one resource at a time: the functions the
    in-place methods are proved against. */
module Transforms {
  import opened Conditions
  import opened Resources
  import opened Template

  datatype Transform = ConfigMaps | Images | Gateways | CustomCertificates | HighAvailability | ResourceRequirements

  // ----- config maps

  /** The overrides laid over the shipped data; no overrides, no change. */
  function Overlaid(data: Option<map<string, string>>, overrides: map<string, string>): Option<map<string, string>> {
    if overrides == map[] then data
    else if data.Some? then Some(data.value + overrides)
    else Some(overrides)
  }

  function ConfigMapTransform(spec: KnativeServingSpec, r: Resource): Resource
    requires WellTyped(r)
  {
    if r.kind == "ConfigMap" && r.name[|CONFIG_PREFIX|..] in spec.config then
      r.(body := ConfigMapBody(Overlaid(r.body.data, spec.config[r.name[|CONFIG_PREFIX|..]])))
    else r
  }

  // ----- images

  /** The registry's image for a container; empty when it has none. */
  function GetNewImage(registry: Registry, container: string): string {
    if container in registry.overrides && registry.overrides[container] != "" then registry.overrides[container]
    else ReplaceName(registry.default, container)
  }

  function ChosenImage(registry: Registry, name: string, shipped: string): string {
    var image := GetNewImage(registry, name);
    if image != "" then image else shipped
  }

  /** `image` is the template with the name in each variable's place: the same
      pieces, free of the variable, glued together with either. */
  ghost predicate Substitutes(template: string, name: string, image: string) {
    exists pieces: seq<string> :: (forall p | p in pieces :: Free(p)) && Splits(pieces, template, name, image)
  }

  predicate Splits(pieces: seq<string>, template: string, name: string, image: string) {
    Glue(pieces, "${NAME}") == template && Glue(pieces, name) == image
  }

  lemma ReplacedSubstitutes(template: string, name: string)
    ensures Substitutes(template, name, ReplaceName(template, name))
  {
    hide Free, Glue, ReplaceName;
    var pieces := SubstitutionIsGluing(template);
    assert Splits(pieces, template, name, ReplaceName(template, name));
  }

  /** The image for something of this name: the registry's override if there is one
      that is not empty, else what its template gives if that is not empty, else
      the shipped image. */
  ghost predicate ImageFor(registry: Registry, name: string, shipped: string, image: string) {
    if name in registry.overrides && registry.overrides[name] != "" then image == registry.overrides[name]
    else if registry.default == "" then image == shipped
    else
      exists given: string ::
        Substitutes(registry.default, name, given) && image == if given == "" then shipped else given
  }

  lemma ChosenIsImageFor(registry: Registry, name: string, shipped: string)
    ensures ImageFor(registry, name, shipped, ChosenImage(registry, name, shipped))
  {
    hide Substitutes;
    ReplacedSubstitutes(registry.default, name);
    assert ReplaceName("", name) == "";
  }

  function UpdatedContainers(registry: Registry, containers: seq<Container>): seq<Container> {
    seq(|containers|, i requires 0 <= i < |containers| =>
      containers[i].(image := ChosenImage(registry, containers[i].name, containers[i].image)))
  }

  function ImageTransform(spec: KnativeServingSpec, r: Resource): Resource
    requires WellTyped(r)
  {
    if r.kind == "Deployment" || r.kind == "DaemonSet" then
      var pod := r.body.pod;
      r.(body := r.body.(pod := pod.(
        containers := UpdatedContainers(spec.registry, pod.containers),
        imagePullSecrets := pod.imagePullSecrets + spec.registry.imagePullSecrets)))
    else if r.kind == "Image" && r.apiVersion == CACHING_API then
      r.(body := ImageBody(
        ChosenImage(spec.registry, r.name, r.body.image),
        r.body.imagePullSecrets + spec.registry.imagePullSecrets,
        None))
    else r
  }

  // ----- gateways

  function GatewayTransform(spec: KnativeServingSpec, r: Resource): Resource
    requires WellTyped(r)
  {
    if r.apiVersion == ISTIO_API && r.kind == "Gateway" then
      if r.name == "knative-ingress-gateway" && spec.knativeIngressGateway != map[] then
        r.(body := GatewayBody(spec.knativeIngressGateway))
      else if r.name == "cluster-local-gateway" && spec.clusterLocalGateway != map[] then
        r.(body := GatewayBody(spec.clusterLocalGateway))
      else r
    else r
  }

  // ----- custom certificates

  const CERTS_ENV := "SSL_CERT_DIR"
  const CERTS_PATH := "/custom-certs"
  const CERTS_PREFIX := "custom-certs-"

  datatype TransformError = UnknownCertsType(ctype: string) | MissingCertsName(ctype: string)

  function CertsVolume(certs: CustomCerts): Result<Volume, TransformError> {
    if certs.ctype != "ConfigMap" && certs.ctype != "Secret" then Err(UnknownCertsType(certs.ctype))
    else if certs.name == "" then Err(MissingCertsName(certs.ctype))
    else
      var source := if certs.ctype == "ConfigMap" then FromConfigMap(certs.name) else FromSecret(certs.name);
      Ok(Volume(CERTS_PREFIX + certs.name, source))
  }

  function WithCerts(pod: PodSpec, volume: Volume): PodSpec
    requires pod.containers != []
  {
    var first := pod.containers[0];
    pod.(
      volumes := pod.volumes + [volume],
      containers := pod.containers[0 := first.(
        volumeMounts := first.volumeMounts + [VolumeMount(volume.name, CERTS_PATH)],
        env := first.env + [EnvVar(CERTS_ENV, CERTS_PATH)])])
  }

  predicate TakesCerts(spec: KnativeServingSpec, r: Resource) {
    spec.controllerCustomCerts != CustomCerts("", "") && r.kind == "Deployment" && r.name == "controller"
  }

  function CustomCertsTransform(spec: KnativeServingSpec, r: Resource): Result<Resource, TransformError>
    requires WellTyped(r)
  {
    if !TakesCerts(spec, r) then Ok(r)
    else
      var volume := CertsVolume(spec.controllerCustomCerts);
      if volume.Err? then Err(volume.error)
      else Ok(r.(body := r.body.(pod := WithCerts(r.body.pod, volume.value))))
  }

  // ----- high availability

  const LEADER_ELECTION := "config-leader-election"
  const ENABLED_COMPONENTS := "enabledComponents"
  const COMPONENTS := "controller,hpaautoscaler,certcontroller,istiocontroller,nscontroller"
  const HA_DEPLOYMENTS := {
    "controller", "autoscaler-hpa", "networking-certmanager", "networking-ns-cert", "networking-istio"
  }

  function DataOf(data: Option<map<string, string>>): map<string, string> {
    if data.Some? then data.value else map[]
  }

  function MinimumOf(minReplicas: Option<int>): int {
    if minReplicas.Some? then minReplicas.value else 0
  }

  function HighAvailabilityTransform(spec: KnativeServingSpec, r: Resource): Resource
    requires WellTyped(r)
  {
    if spec.highAvailability.None? then r
    else
      var replicas := spec.highAvailability.value;
      if r.kind == "ConfigMap" && r.name == LEADER_ELECTION then
        r.(body := ConfigMapBody(Some(DataOf(r.body.data)[ENABLED_COMPONENTS := COMPONENTS])))
      else if r.kind == "Deployment" && r.name in HA_DEPLOYMENTS then
        r.(body := r.body.(replicas := Some(replicas)))
      else if r.kind == "HorizontalPodAutoscaler" && MinimumOf(r.body.minReplicas) <= replicas then
        r.(body := AutoscalerBody(Some(replicas)))
      else r
  }

  // ----- resource requirements

  /** The first override for a container. */
  function Find(overrides: seq<ResourceOverride>, name: string): Option<ResourceOverride> {
    if overrides == [] then None
    else if overrides[0].container == name then Some(overrides[0])
    else Find(overrides[1..], name)
  }

  /** The place of the first override for a container, or the number of overrides
      if there is none. */
  predicate FirstOverride(overrides: seq<ResourceOverride>, name: string, i: nat) {
    && i <= |overrides| && (i < |overrides| ==> overrides[i].container == name)
    && forall j | 0 <= j < i :: overrides[j].container != name
  }

  lemma {:induction false} FindIsFirst(overrides: seq<ResourceOverride>, name: string) returns (i: nat)
    ensures FirstOverride(overrides, name, i)
    ensures Find(overrides, name) == if i < |overrides| then Some(overrides[i]) else None
  {
    if overrides == [] || overrides[0].container == name {
      i := 0;
    } else {
      var later := FindIsFirst(overrides[1..], name);
      i := later + 1;
    }
  }

  lemma FirstIsUnique(overrides: seq<ResourceOverride>, name: string, i: nat, j: nat)
    requires FirstOverride(overrides, name, i) && FirstOverride(overrides, name, j)
    ensures i == j
  {}

  lemma FirstInRange(overrides: seq<ResourceOverride>, name: string, i: nat)
    requires FirstOverride(overrides, name, i)
    ensures i <= |overrides|
  {}

  function Constrained(overrides: seq<ResourceOverride>, c: Container): Container {
    var found := Find(overrides, c.name);
    if found.None? then c
    else c.(limits := c.limits + found.value.limits, requests := c.requests + found.value.requests)
  }

  function ConstrainedAll(overrides: seq<ResourceOverride>, containers: seq<Container>): seq<Container> {
    seq(|containers|, i requires 0 <= i < |containers| => Constrained(overrides, containers[i]))
  }

  function ResourceRequirementsTransform(spec: KnativeServingSpec, r: Resource): Resource
    requires WellTyped(r)
  {
    if r.kind == "Deployment" then
      r.(body := r.body.(pod := r.body.pod.(
        containers := ConstrainedAll(spec.resources, r.body.pod.containers))))
    else r
  }

  // ----- all of them

  function RunOne(t: Transform, spec: KnativeServingSpec, r: Resource): Result<Resource, TransformError>
    requires WellTyped(r)
  {
    match t
    case ConfigMaps => Ok(ConfigMapTransform(spec, r))
    case Images => Ok(ImageTransform(spec, r))
    case Gateways => Ok(GatewayTransform(spec, r))
    case CustomCertificates => CustomCertsTransform(spec, r)
    case HighAvailability => Ok(HighAvailabilityTransform(spec, r))
    case ResourceRequirements => Ok(ResourceRequirementsTransform(spec, r))
  }

  /** No transform changes a resource's identity or type. */
  lemma RunKeepsIdentity(t: Transform, spec: KnativeServingSpec, r: Resource)
    requires WellTyped(r)
    ensures RunOne(t, spec, r).Ok? ==>
              var r' := RunOne(t, spec, r).value;
              WellTyped(r') && r' == r.(body := r'.body)
  {}
}
