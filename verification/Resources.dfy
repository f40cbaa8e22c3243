/** The desired state of a KnativeServing and the manifest's resources, as values. */
module Resources {
  import opened Conditions
  import opened Text

  datatype Result<+T, +E> = Ok(value: T) | Err(error: E)

  // ----- KnativeServingSpec; an absent Go map or slice reads as the empty one

  datatype Registry = Registry(default: string, overrides: map<string, string>, imagePullSecrets: seq<string>)

  datatype CustomCerts = CustomCerts(ctype: string, name: string)

  type ResourceList = map<string, string>

  datatype ResourceOverride = ResourceOverride(container: string, limits: ResourceList, requests: ResourceList)

  datatype KnativeServingSpec = KnativeServingSpec(
    config: map<string, map<string, string>>,
    registry: Registry,
    knativeIngressGateway: map<string, string>,
    clusterLocalGateway: map<string, string>,
    controllerCustomCerts: CustomCerts,
    highAvailability: Option<int>,
    resources: seq<ResourceOverride>)

  const EMPTY_SPEC :=
    KnativeServingSpec(map[], Registry("", map[], []), map[], map[], CustomCerts("", ""), None, [])

  // ----- resources of the manifest, typed where a transform looks inside

  datatype VolumeSource = FromConfigMap(name: string) | FromSecret(name: string) | FromElsewhere(detail: string)

  datatype Volume = Volume(name: string, source: VolumeSource)

  datatype VolumeMount = VolumeMount(name: string, mountPath: string)

  datatype EnvVar = EnvVar(name: string, value: string)

  datatype Container = Container(
    name: string, image: string, volumeMounts: seq<VolumeMount>, env: seq<EnvVar>,
    limits: ResourceList, requests: ResourceList)

  datatype PodSpec = PodSpec(containers: seq<Container>, volumes: seq<Volume>, imagePullSecrets: seq<string>)

  datatype Body =
    | ConfigMapBody(data: Option<map<string, string>>)
    | WorkloadBody(pod: PodSpec, replicas: Option<int>)
    | AutoscalerBody(minReplicas: Option<int>)
    | ImageBody(image: string, imagePullSecrets: seq<string>, status: Option<string>)
    | GatewayBody(selector: map<string, string>)
    | OtherBody(detail: string)

  // `created` stands for the annotation by which the manifest library
  // recognises a resource it created itself
  datatype Resource = Resource(
    apiVersion: string, kind: string, namespace: string, name: string, created: bool, body: Body)
  {
    function Id(): ResourceId {
      ResourceId(apiVersion, kind, namespace, name)
    }
  }

  datatype ResourceId = ResourceId(apiVersion: string, kind: string, namespace: string, name: string)

  const CACHING_API := "caching.internal.knative.dev/v1alpha1"
  const ISTIO_API := "networking.istio.io/v1alpha3"
  const CONFIG_PREFIX := "config-"

  /** Bodies fit kinds, ConfigMap names are long enough to lose the prefix and
      the controller has a container: what the transforms index without asking. */
  predicate WellTyped(r: Resource) {
    && (r.kind == "ConfigMap" ==> r.body.ConfigMapBody? && |CONFIG_PREFIX| <= |r.name|)
    && (r.kind == "Deployment" || r.kind == "DaemonSet" ==> r.body.WorkloadBody?)
    && (r.kind == "Deployment" && r.name == "controller" ==> r.body.pod.containers != [])
    && (r.kind == "HorizontalPodAutoscaler" ==> r.body.AutoscalerBody?)
    && (r.kind == "Image" && r.apiVersion == CACHING_API ==> r.body.ImageBody?)
    && (r.kind == "Gateway" && r.apiVersion == ISTIO_API ==> r.body.GatewayBody?)
  }

  predicate AllWellTyped(manifest: seq<Resource>) {
    forall r | r in manifest :: WellTyped(r)
  }

  /** A manifest the transforms can work on. */
  type Manifest = rs: seq<Resource> | AllWellTyped(rs) witness []

  // ----- namespaces

  const CLUSTER_SCOPED := {
    "componentstatus", "namespace", "node", "persistentvolume", "mutatingwebhookconfiguration",
    "validatingwebhookconfiguration", "customresourcedefinition", "apiservice", "meshpolicy", "tokenreview",
    "selfsubjectaccessreview", "selfsubjectrulesreview", "subjectaccessreview", "certificatesigningrequest",
    "podsecuritypolicy", "clusterrolebinding", "clusterrole", "priorityclass", "storageclass", "volumeattachment"
  }

  predicate ClusterScoped(kind: string) {
    Lower(kind) in CLUSTER_SCOPED
  }

  /** The identity `InjectNamespace` gives a resource: namespaced resources move
      to the namespace and a Namespace takes its name. */
  function InjectNamespace(namespace: string, r: Resource): Resource {
    var named := if Lower(r.kind) == "namespace" then r.(name := namespace) else r;
    if ClusterScoped(r.kind) then named else named.(namespace := namespace)
  }

  function InjectedAll(namespace: string, manifest: Manifest): (injected: Manifest)
    ensures |injected| == |manifest|
    ensures forall i | 0 <= i < |manifest| :: injected[i] == InjectNamespace(namespace, manifest[i])
  {
    var injected := seq(|manifest|, i requires 0 <= i < |manifest| => InjectNamespace(namespace, manifest[i]));
    assert AllWellTyped(injected) by {
      forall r | r in injected ensures WellTyped(r) {
        var i :| 0 <= i < |injected| && injected[i] == r;
        assert manifest[i] in manifest;
        InjectNamespaceWellTyped(namespace, manifest[i]);
      }
    }
    injected
  }

  lemma InjectNamespaceWellTyped(namespace: string, r: Resource)
    requires WellTyped(r)
    ensures WellTyped(InjectNamespace(namespace, r))
  {
    hide ClusterScoped;
    if r.kind == "ConfigMap" || r.kind == "Deployment" {
      assert Lower(r.kind)[0] == LowerChar(r.kind[0]) != "namespace"[0];
    }
  }
}
