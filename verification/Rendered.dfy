/** What the six transformers together make of each kind of resource, in the
    operator's own words and without the functions that compute it. */
module Rendered {
  import opened Conditions
  import opened Passes
  import opened Pipeline
  import opened Resources
  import opened Text
  import opened Transforms
  import opened World

  /** The resource as a pass applies it. */
  function Result(spec: KnativeServingSpec, r: Resource): Option<Resource>
    requires WellTyped(r)
  {
    var result := RunAll(SHIPPED_ORDER, spec, r);
    if result.Ok? then Some(result.value) else None
  }

  lemma ResultIs(spec: KnativeServingSpec, r: Resource)
    requires WellTyped(r)
    ensures Result(spec, r) == if CertsFail(spec, r) then None
                               else Some(r.(body := BodySpec(Members(SHIPPED_ORDER), spec, r)))
  {
    hide BodySpec, RunAll, CertsFail, WellTyped, Members;
    OneTransformed(spec, r);
  }

  // ----- images

  /** Each container of a Deployment or DaemonSet, and the pod's secrets. */
  lemma WorkloadImages(spec: KnativeServingSpec, r: Resource, i: nat)
    requires WellTyped(r) && (r.kind == "Deployment" || r.kind == "DaemonSet") && Result(spec, r).Some?
    requires i < |r.body.pod.containers|
    ensures var pod, rendered := r.body.pod, Result(spec, r).value.body;
            && rendered.WorkloadBody? && |rendered.pod.containers| == |pod.containers|
            && rendered.pod.imagePullSecrets == pod.imagePullSecrets + spec.registry.imagePullSecrets
            && var c, c' := pod.containers[i], rendered.pod.containers[i];
               && c'.name == c.name && ImageFor(spec.registry, c.name, c.image, c'.image)
  {
    hide ImageFor, ChosenImage, RunAll, Find, Members, CertsFail;
    ResultIs(spec, r);
    AllDone();
    ChosenIsImageFor(spec.registry, r.body.pod.containers[i].name, r.body.pod.containers[i].image);
  }

  /** A cached image, which is chosen by the resource's name and loses its status. */
  lemma CachedImages(spec: KnativeServingSpec, r: Resource)
    requires WellTyped(r) && r.kind == "Image" && r.apiVersion == "caching.internal.knative.dev/v1alpha1"
    ensures Result(spec, r).Some? && Result(spec, r).value.body.ImageBody?
    ensures var rendered := Result(spec, r).value.body;
            && ImageFor(spec.registry, r.name, r.body.image, rendered.image)
            && rendered.imagePullSecrets == r.body.imagePullSecrets + spec.registry.imagePullSecrets
            && rendered.status == None
  {
    hide ImageFor, ChosenImage, RunAll, Members;
    ResultIs(spec, r);
    AllDone();
    ChosenIsImageFor(spec.registry, r.name, r.body.image);
  }

  // ----- resource requirements

  /** `list` reads key by key as the override's where that says something, else as
      the shipped one. */
  ghost predicate ReadsOver(list: ResourceList, override: ResourceList, shipped: ResourceList) {
    forall k ::
      && (k in list <==> k in override || k in shipped)
      && (k in override ==> list[k] == override[k])
      && (k in shipped && k !in override ==> list[k] == shipped[k])
  }

  /** The limits and requests of each container of a Deployment: laid over by the
      first override of the container's name, or, without one, as shipped. */
  lemma DeploymentRequirements(spec: KnativeServingSpec, r: Resource, c: nat, i: nat)
    requires WellTyped(r) && r.kind == "Deployment" && Result(spec, r).Some? && c < |r.body.pod.containers|
    requires FirstOverride(spec.resources, r.body.pod.containers[c].name, i)
    ensures Result(spec, r).value.body.WorkloadBody? && c < |Result(spec, r).value.body.pod.containers|
    ensures var shipped, rendered := r.body.pod.containers[c], Result(spec, r).value.body.pod.containers[c];
            if i == |spec.resources| then rendered.limits == shipped.limits && rendered.requests == shipped.requests
            else
              && ReadsOver(rendered.limits, spec.resources[i].limits, shipped.limits)
              && ReadsOver(rendered.requests, spec.resources[i].requests, shipped.requests)
  {
    hide ChosenImage, RunAll, Find, Members, CertsFail, FirstOverride;
    ResultIs(spec, r);
    AllDone();
    var j := FindIsFirst(spec.resources, r.body.pod.containers[c].name);
    FirstIsUnique(spec.resources, r.body.pod.containers[c].name, i, j);
    FirstInRange(spec.resources, r.body.pod.containers[c].name, i);
  }

  /** Those of a DaemonSet are as shipped. */
  lemma DaemonSetRequirements(spec: KnativeServingSpec, r: Resource, c: nat)
    requires WellTyped(r) && r.kind == "DaemonSet" && c < |r.body.pod.containers|
    ensures Result(spec, r).Some? && Result(spec, r).value.body.WorkloadBody?
    ensures c < |Result(spec, r).value.body.pod.containers|
    ensures var shipped, rendered := r.body.pod.containers[c], Result(spec, r).value.body.pod.containers[c];
            rendered.limits == shipped.limits && rendered.requests == shipped.requests
  {
    hide ChosenImage, RunAll, Find, Members;
    ResultIs(spec, r);
    AllDone();
  }

  // ----- certificates

  /** Where certificates of a type come from. */
  function SourceOf(certs: CustomCerts): Option<VolumeSource> {
    if certs.name == "" then None
    else if certs.ctype == "ConfigMap" then Some(FromConfigMap(certs.name))
    else if certs.ctype == "Secret" then Some(FromSecret(certs.name))
    else None
  }

  /** The controller's Deployment gets the volume, and its first container the
      mount and the variable, if certificates are asked for; if they cannot be
      given, there is no manifest. Every other workload is left alone, and every
      other container. */
  lemma ControllerCertificates(spec: KnativeServingSpec, r: Resource)
    requires WellTyped(r) && (r.kind == "Deployment" || r.kind == "DaemonSet")
    ensures var certs := spec.controllerCustomCerts;
            var asked := (certs.ctype != "" || certs.name != "") && r.kind == "Deployment" && r.name == "controller";
            var volume := "custom-certs-" + certs.name;
            && (Result(spec, r).None? <==> asked && SourceOf(certs).None?)
            && (Result(spec, r).Some? ==>
                  var shipped, rendered := r.body.pod, Result(spec, r).value.body;
                  && rendered.WorkloadBody? && |rendered.pod.containers| == |shipped.containers|
                  && rendered.pod.volumes ==
                     shipped.volumes + (if asked then [Volume(volume, SourceOf(certs).value)] else [])
                  && forall k | 0 <= k < |shipped.containers| ::
                       var c, c' := shipped.containers[k], rendered.pod.containers[k];
                       var mounted := asked && k == 0;
                       && c'.volumeMounts == c.volumeMounts +
                                             (if mounted then [VolumeMount(volume, "/custom-certs")] else [])
                       && c'.env == c.env + (if mounted then [EnvVar("SSL_CERT_DIR", "/custom-certs")] else []))
    ensures var certs := spec.controllerCustomCerts;
            Result(spec, r).None? ==>
              RunAll(SHIPPED_ORDER, spec, r) ==
              Err(if certs.ctype == "ConfigMap" || certs.ctype == "Secret" then MissingCertsName(certs.ctype)
                  else UnknownCertsType(certs.ctype))
  {
    hide ChosenImage, RunAll, Find, Members;
    ResultIs(spec, r);
    AllDone();
    ShippedOrderAdmissible();
    PipelineRefinesSpec(SHIPPED_ORDER, spec, r);
    assert CERTS_PREFIX == "custom-certs-";
  }

  // ----- replicas

  /** The Deployments that can run several replicas get the number asked for, other
      workloads keep theirs. */
  lemma Replicas(spec: KnativeServingSpec, r: Resource)
    requires WellTyped(r) && (r.kind == "Deployment" || r.kind == "DaemonSet") && Result(spec, r).Some?
    ensures Result(spec, r).value.body.WorkloadBody?
    ensures Result(spec, r).value.body.replicas ==
            if spec.highAvailability.Some? && r.kind == "Deployment" &&
               (r.name == "controller" || r.name == "autoscaler-hpa" || r.name == "networking-certmanager" ||
                r.name == "networking-ns-cert" || r.name == "networking-istio")
            then spec.highAvailability else r.body.replicas
  {
    hide ChosenImage, RunAll, Find, Members, CertsFail;
    ResultIs(spec, r);
    AllDone();
  }

  // ----- config maps

  /** The value of a key after laying the spec's section over what was shipped. */
  function Configured(section: map<string, string>, shipped: Option<map<string, string>>, key: string): Option<string> {
    if key in section then Some(section[key])
    else if shipped.Some? && key in shipped.value then Some(shipped.value[key])
    else None
  }

  /** Every key of a ConfigMap, whose section of the spec is named as it is without
      the prefix; in the leader election's, asking for replicas sets one key
      besides, whatever the spec says of it. */
  lemma ConfigMapKeys(spec: KnativeServingSpec, r: Resource, key: string)
    requires WellTyped(r) && r.kind == "ConfigMap"
    ensures Result(spec, r).Some? && Result(spec, r).value.body.ConfigMapBody?
    ensures 7 <= |r.name|
    ensures var data := Result(spec, r).value.body.data;
            var section := if r.name[7..] in spec.config then spec.config[r.name[7..]] else map[];
            (if data.Some? && key in data.value then Some(data.value[key]) else None) ==
            if spec.highAvailability.Some? && r.name == "config-leader-election" && key == "enabledComponents" then
              Some("controller,hpaautoscaler,certcontroller,istiocontroller,nscontroller")
            else Configured(section, r.body.data, key)
  {
    hide RunAll, Members;
    ResultIs(spec, r);
    AllDone();
  }

  // ----- autoscalers

  /** An autoscaler's minimum is raised to the replicas asked for, never lowered. */
  lemma AutoscalerReplicas(spec: KnativeServingSpec, r: Resource)
    requires WellTyped(r) && r.kind == "HorizontalPodAutoscaler"
    ensures Result(spec, r).Some? && Result(spec, r).value.body.AutoscalerBody?
    ensures var shipped, rendered := r.body.minReplicas, Result(spec, r).value.body.minReplicas;
            rendered == if spec.highAvailability.Some? &&
                           (if shipped.Some? then shipped.value else 0) <= spec.highAvailability.value
                        then spec.highAvailability else shipped
  {
    hide RunAll, Members;
    ResultIs(spec, r);
    AllDone();
  }

  // ----- gateways and the rest

  /** A gateway's selector is replaced by that of the spec for it, if not empty. */
  lemma GatewaySelectors(spec: KnativeServingSpec, r: Resource)
    requires WellTyped(r) && r.kind == "Gateway" && r.apiVersion == "networking.istio.io/v1alpha3"
    ensures Result(spec, r).Some? && Result(spec, r).value.body.GatewayBody?
    ensures Result(spec, r).value.body.selector ==
            if r.name == "knative-ingress-gateway" && spec.knativeIngressGateway != map[] then
              spec.knativeIngressGateway
            else if r.name == "cluster-local-gateway" && spec.clusterLocalGateway != map[] then
              spec.clusterLocalGateway
            else r.body.selector
  {
    hide RunAll, Members;
    ResultIs(spec, r);
    AllDone();
  }

  /** Everything else is applied as it was shipped. */
  lemma OthersAsShipped(spec: KnativeServingSpec, r: Resource)
    requires WellTyped(r)
    requires r.kind != "Deployment" && r.kind != "DaemonSet" && r.kind != "ConfigMap"
    requires r.kind != "HorizontalPodAutoscaler"
    requires r.kind == "Image" ==> r.apiVersion != "caching.internal.knative.dev/v1alpha1"
    requires r.kind == "Gateway" ==> r.apiVersion != "networking.istio.io/v1alpha3"
    ensures Result(spec, r) == Some(r)
  {
    hide RunAll, Members;
    ResultIs(spec, r);
  }

  // ----- the manifest of a pass

  // how the kinds of the operator's manifest read in lower case

  lemma LowerClusterKinds()
    ensures Lower("APIService") == "apiservice" && Lower("ClusterRole") == "clusterrole"
    ensures Lower("ClusterRoleBinding") == "clusterrolebinding"
    ensures Lower("CustomResourceDefinition") == "customresourcedefinition"
  {}

  lemma LowerWebhookKind()
    ensures Lower("MutatingWebhookConfiguration") == "mutatingwebhookconfiguration"
  {}

  lemma LowerOtherWebhookKind()
    ensures Lower("ValidatingWebhookConfiguration") == "validatingwebhookconfiguration"
  {}

  lemma LowerNamespacedKinds()
    ensures Lower("ConfigMap") == "configmap" && Lower("Deployment") == "deployment" && Lower("Gateway") == "gateway"
    ensures Lower("HorizontalPodAutoscaler") == "horizontalpodautoscaler" && Lower("Image") == "image"
    ensures Lower("RoleBinding") == "rolebinding" && Lower("Secret") == "secret" && Lower("Service") == "service"
    ensures Lower("ServiceAccount") == "serviceaccount"
  {}

  lemma NotClusterScoped()
    ensures {"configmap", "deployment", "gateway", "horizontalpodautoscaler", "image"} !! CLUSTER_SCOPED
    ensures {"rolebinding", "secret", "service", "serviceaccount"} !! CLUSTER_SCOPED
  {}

  /** Moving to a namespace, by the kinds of the operator's manifest: a Namespace
      takes the name, what belongs to the cluster stays, the rest is moved. */
  lemma MovedByKind(namespace: string, r: Resource)
    ensures r.kind == "Namespace" ==> InjectNamespace(namespace, r) == r.(name := namespace)
    ensures r.kind in {"APIService", "ClusterRole", "ClusterRoleBinding", "CustomResourceDefinition",
                       "MutatingWebhookConfiguration", "ValidatingWebhookConfiguration"} ==>
              InjectNamespace(namespace, r) == r
    ensures r.kind in {"ConfigMap", "Deployment", "Gateway", "HorizontalPodAutoscaler", "Image", "RoleBinding",
                       "Secret", "Service", "ServiceAccount"} ==>
              InjectNamespace(namespace, r) == r.(namespace := namespace)
  {
    assert Lower("Namespace") == "namespace";
    hide Lower;
    LowerClusterKinds();
    LowerWebhookKind();
    LowerOtherWebhookKind();
    LowerNamespacedKinds();
    NotClusterScoped();
  }

  /** The manifest of a pass over an object: each shipped resource, moved to the
      object's namespace, as the object's spec has it. */
  lemma ManifestOfPass(config: Manifest, instance: Serving)
    ensures var moved := InjectedAll(instance.key.namespace, config);
            && (Render(config, instance).Some? <==>
                forall i | 0 <= i < |moved| :: Result(instance.spec, moved[i]).Some?)
            && (Render(config, instance).Some? ==>
                  && |Render(config, instance).value| == |config|
                  && forall i | 0 <= i < |moved| ::
                       Some(Render(config, instance).value[i]) == Result(instance.spec, moved[i]))
  {
    hide InjectedAll, BodySpec, CertsFail, WellTyped, Members, TransformAll, Result;
    var moved := InjectedAll(instance.key.namespace, config);
    TransformedManifest(instance.spec, moved);
    forall i | 0 <= i < |moved|
      ensures Result(instance.spec, moved[i]) ==
              if CertsFail(instance.spec, moved[i]) then None
              else Some(moved[i].(body := BodySpec(Members(SHIPPED_ORDER), instance.spec, moved[i])))
    {
      assert moved[i] in moved;
      ResultIs(instance.spec, moved[i]);
    }
  }
}
