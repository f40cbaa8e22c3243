/** The spec-driven transformers in sequence, over one resource and over a
    manifest, against a specification by resource kind that knows no order. */
module Pipeline {
  import opened Conditions
  import opened Resources
  import opened Transforms

  /** The order in which the operator lists them. */
  const SHIPPED_ORDER :=
    [ConfigMaps, Images, Gateways, CustomCertificates, HighAvailability, ResourceRequirements]

  /** One resource through the transforms, stopping at the first error. */
  function RunAll(order: seq<Transform>, spec: KnativeServingSpec, r: Resource): (result: Result<Resource,
      TransformError>)
    requires WellTyped(r)
    ensures result.Ok? ==> WellTyped(result.value) && result.value == r.(body := result.value.body)
  {
    if order == [] then Ok(r)
    else
      RunKeepsIdentity(order[0], spec, r);
      var first := RunOne(order[0], spec, r);
      if first.Err? then first else RunAll(order[1..], spec, first.value)
  }

  /** `Manifest.Transform`: each resource in turn; an error means no manifest. */
  function TransformAll(order: seq<Transform>, spec: KnativeServingSpec, manifest: seq<Resource>)
    : (result: Result<seq<Resource>, TransformError>)
    requires AllWellTyped(manifest)
    ensures result.Ok? ==> |result.value| == |manifest| && AllWellTyped(result.value)
    ensures result.Ok? ==> forall i | 0 <= i < |manifest| ::
                             result.value[i] == manifest[i].(body := result.value[i].body)
  {
    if manifest == [] then Ok([])
    else
      assert manifest[0] in manifest;
      var first := RunAll(order, spec, manifest[0]);
      if first.Err? then Err(first.error)
      else
        assert forall r | r in manifest[1..] :: r in manifest;
        var rest := TransformAll(order, spec, manifest[1..]);
        if rest.Err? then rest else Ok([first.value] + rest.value)
  }

  // ----- the specification by kind, for any set of transforms already done

  predicate CertsFail(spec: KnativeServingSpec, r: Resource) {
    TakesCerts(spec, r) && CertsVolume(spec.controllerCustomCerts).Err?
  }

  /** Container `i` of a deployment: the image, the mounts and the limits are
      chosen independently. */
  function ContainerSpec(done: set<Transform>, spec: KnativeServingSpec, deployment: bool, certs: Option<Volume>,
                         i: nat, c: Container): Container
  {
    var image := if Images in done then ChosenImage(spec.registry, c.name, c.image) else c.image;
    var mounted := CustomCertificates in done && certs.Some? && i == 0;
    var found := if ResourceRequirements in done && deployment then Find(spec.resources, c.name) else None;
    Container(
      c.name, image,
      if mounted then c.volumeMounts + [VolumeMount(certs.value.name, CERTS_PATH)] else c.volumeMounts,
      if mounted then c.env + [EnvVar(CERTS_ENV, CERTS_PATH)] else c.env,
      if found.Some? then c.limits + found.value.limits else c.limits,
      if found.Some? then c.requests + found.value.requests else c.requests)
  }

  function CertsOf(spec: KnativeServingSpec, r: Resource): Option<Volume> {
    var volume := CertsVolume(spec.controllerCustomCerts);
    if TakesCerts(spec, r) && volume.Ok? then Some(volume.value) else None
  }

  function WorkloadSpec(done: set<Transform>, spec: KnativeServingSpec, r: Resource): Body
    requires WellTyped(r) && (r.kind == "Deployment" || r.kind == "DaemonSet")
  {
    var pod := r.body.pod;
    var certs := CertsOf(spec, r);
    var scaled := HighAvailability in done && spec.highAvailability.Some? && r.kind == "Deployment" &&
                  r.name in HA_DEPLOYMENTS;
    WorkloadBody(
      PodSpec(
        seq(|pod.containers|, i requires 0 <= i < |pod.containers| =>
          ContainerSpec(done, spec, r.kind == "Deployment", certs, i, pod.containers[i])),
        if CustomCertificates in done && certs.Some? then pod.volumes + [certs.value] else pod.volumes,
        if Images in done then pod.imagePullSecrets + spec.registry.imagePullSecrets else pod.imagePullSecrets),
      if scaled then spec.highAvailability else r.body.replicas)
  }

  function ConfigMapSpec(done: set<Transform>, spec: KnativeServingSpec, r: Resource): Body
    requires WellTyped(r) && r.kind == "ConfigMap"
  {
    var key := r.name[|CONFIG_PREFIX|..];
    var overrides := if ConfigMaps in done && key in spec.config then spec.config[key] else map[];
    var data := Overlaid(r.body.data, overrides);
    if HighAvailability in done && spec.highAvailability.Some? && r.name == LEADER_ELECTION then
      ConfigMapBody(Some(DataOf(data)[ENABLED_COMPONENTS := COMPONENTS]))
    else ConfigMapBody(data)
  }

  function AutoscalerSpec(done: set<Transform>, spec: KnativeServingSpec, r: Resource): Body
    requires WellTyped(r) && r.kind == "HorizontalPodAutoscaler"
  {
    if HighAvailability in done && spec.highAvailability.Some? &&
       MinimumOf(r.body.minReplicas) <= spec.highAvailability.value
    then AutoscalerBody(spec.highAvailability)
    else r.body
  }

  /** What a resource looks like once exactly the transforms in `done` have run. */
  function BodySpec(done: set<Transform>, spec: KnativeServingSpec, r: Resource): Body
    requires WellTyped(r)
  {
    if r.kind == "Deployment" || r.kind == "DaemonSet" then WorkloadSpec(done, spec, r)
    else if r.kind == "ConfigMap" then ConfigMapSpec(done, spec, r)
    else if r.kind == "HorizontalPodAutoscaler" then AutoscalerSpec(done, spec, r)
    else if r.kind == "Image" && r.apiVersion == CACHING_API && Images in done then
      ImageBody(ChosenImage(spec.registry, r.name, r.body.image),
        r.body.imagePullSecrets + spec.registry.imagePullSecrets, None)
    else if r.kind == "Gateway" && r.apiVersion == ISTIO_API && Gateways in done then GatewayTransform(spec, r).body
    else r.body
  }

  function ResourceSpec(done: set<Transform>, spec: KnativeServingSpec, r: Resource): Result<Resource, TransformError>
    requires WellTyped(r)
  {
    if CustomCertificates in done && CertsFail(spec, r) then Err(CertsVolume(spec.controllerCustomCerts).error)
    else Ok(r.(body := BodySpec(done, spec, r)))
  }

  // ----- one step of the refinement, kind by kind

  lemma NothingDone(spec: KnativeServingSpec, r: Resource)
    requires WellTyped(r)
    ensures ResourceSpec({}, spec, r) == Ok(r)
  {
    if r.kind == "Deployment" || r.kind == "DaemonSet" {
      assert WorkloadSpec({}, spec, r).pod.containers == r.body.pod.containers;
    }
  }

  predicate MayRun(t: Transform, done: set<Transform>) {
    t !in done && (t == ConfigMaps ==> HighAvailability !in done)
  }

  predicate Workload(r: Resource) {
    WellTyped(r) && (r.kind == "Deployment" || r.kind == "DaemonSet")
  }

  lemma ImagesStep(done: set<Transform>, spec: KnativeServingSpec, r: Resource)
    requires Workload(r) && Images !in done
    ensures WellTyped(r.(body := WorkloadSpec(done, spec, r)))
    ensures ImageTransform(spec, r.(body := WorkloadSpec(done, spec, r))).body == WorkloadSpec(done + {Images}, spec, r)
  {
    var before := WorkloadSpec(done, spec, r);
    assert UpdatedContainers(spec.registry, before.pod.containers) ==
           WorkloadSpec(done + {Images}, spec, r).pod.containers;
  }

  lemma RequirementsStep(done: set<Transform>, spec: KnativeServingSpec, r: Resource)
    requires Workload(r) && r.kind == "Deployment" && ResourceRequirements !in done
    ensures WellTyped(r.(body := WorkloadSpec(done, spec, r)))
    ensures ResourceRequirementsTransform(spec, r.(body := WorkloadSpec(done, spec, r))).body ==
            WorkloadSpec(done + {ResourceRequirements}, spec, r)
  {
    var before := WorkloadSpec(done, spec, r);
    assert ConstrainedAll(spec.resources, before.pod.containers) ==
           WorkloadSpec(done + {ResourceRequirements}, spec, r).pod.containers;
  }

  lemma CertsStep(done: set<Transform>, spec: KnativeServingSpec, r: Resource)
    requires Workload(r) && CustomCertificates !in done && TakesCerts(spec, r) && !CertsFail(spec, r)
    ensures WellTyped(r.(body := WorkloadSpec(done, spec, r)))
    ensures WithCerts(WorkloadSpec(done, spec, r).pod, CertsOf(spec, r).value) ==
            WorkloadSpec(done + {CustomCertificates}, spec, r).pod
  {
    var before := WorkloadSpec(done, spec, r);
    assert WithCerts(before.pod, CertsOf(spec, r).value).containers ==
           WorkloadSpec(done + {CustomCertificates}, spec, r).pod.containers;
  }

  /** Where a transform has nothing to do with a workload's pod, the pod's
      specification does not notice it. */
  lemma SamePod(t: Transform, done: set<Transform>, spec: KnativeServingSpec, r: Resource)
    requires Workload(r)
    requires t.ConfigMaps? || t.Gateways? || t.HighAvailability? ||
             (t.CustomCertificates? && !TakesCerts(spec, r)) || (t.ResourceRequirements? && r.kind == "DaemonSet")
    ensures WorkloadSpec(done + {t}, spec, r).pod == WorkloadSpec(done, spec, r).pod
  {
    assert WorkloadSpec(done + {t}, spec, r).pod.containers == WorkloadSpec(done, spec, r).pod.containers;
  }

  lemma WorkloadStep(t: Transform, done: set<Transform>, spec: KnativeServingSpec, r: Resource)
    requires Workload(r) && MayRun(t, done)
    requires t == CustomCertificates ==> !CertsFail(spec, r)
    ensures WellTyped(r.(body := WorkloadSpec(done, spec, r)))
    ensures RunOne(t, spec, r.(body := WorkloadSpec(done, spec, r))) ==
            Ok(r.(body := WorkloadSpec(done + {t}, spec, r)))
  {
    match t
    case Images => ImagesStep(done, spec, r);
    case ResourceRequirements =>
      if r.kind == "Deployment" {
        RequirementsStep(done, spec, r);
      } else {
        SamePod(t, done, spec, r);
      }
    case CustomCertificates =>
      if TakesCerts(spec, r) {
        CertsStep(done, spec, r);
      } else {
        SamePod(t, done, spec, r);
      }
    case _ => SamePod(t, done, spec, r);
  }

  lemma ConfigMapStep(t: Transform, done: set<Transform>, spec: KnativeServingSpec, r: Resource)
    requires WellTyped(r) && r.kind == "ConfigMap" && MayRun(t, done)
    ensures RunOne(t, spec, r.(body := ConfigMapSpec(done, spec, r))) ==
            Ok(r.(body := ConfigMapSpec(done + {t}, spec, r)))
  {}

  lemma AutoscalerStep(t: Transform, done: set<Transform>, spec: KnativeServingSpec, r: Resource)
    requires WellTyped(r) && r.kind == "HorizontalPodAutoscaler" && MayRun(t, done)
    ensures RunOne(t, spec, r.(body := AutoscalerSpec(done, spec, r))) ==
            Ok(r.(body := AutoscalerSpec(done + {t}, spec, r)))
  {}

  lemma BodySpecWellTyped(done: set<Transform>, spec: KnativeServingSpec, r: Resource)
    requires WellTyped(r)
    ensures WellTyped(r.(body := BodySpec(done, spec, r)))
  {}

  /** Running one more transform on what the specification says gives what the
      specification says, provided config maps are not patched after HA. */
  lemma Step(t: Transform, done: set<Transform>, spec: KnativeServingSpec, r: Resource)
    requires WellTyped(r) && MayRun(t, done)
    requires ResourceSpec(done, spec, r).Ok?
    ensures WellTyped(ResourceSpec(done, spec, r).value)
    ensures RunOne(t, spec, ResourceSpec(done, spec, r).value) == ResourceSpec(done + {t}, spec, r)
  {
    BodySpecWellTyped(done, spec, r);
    if r.kind == "Deployment" || r.kind == "DaemonSet" {
      if t == CustomCertificates ==> !CertsFail(spec, r) {
        WorkloadStep(t, done, spec, r);
      }
    } else if r.kind == "ConfigMap" {
      ConfigMapStep(t, done, spec, r);
    } else if r.kind == "HorizontalPodAutoscaler" {
      AutoscalerStep(t, done, spec, r);
    }
  }

  // ----- any admissible order

  /** Config maps are patched before HA sets its key. */
  predicate ConfigMapsFirst(order: seq<Transform>) {
    forall i, j | 0 <= i < j < |order| :: !(order[i] == HighAvailability && order[j] == ConfigMaps)
  }

  predicate NoRepeats(order: seq<Transform>) {
    forall i, j | 0 <= i < j < |order| :: order[i] != order[j]
  }

  function Members(order: seq<Transform>): set<Transform> {
    set t | t in order
  }

  /** Whatever remains to run, in any order that never repeats a transform nor
      patches config maps after HA, completes the specification. */
  lemma {:induction false} RunAllFrom(order: seq<Transform>, done: set<Transform>, spec: KnativeServingSpec,
      r: Resource)
    requires WellTyped(r) && NoRepeats(order) && ConfigMapsFirst(order)
    requires Members(order) !! done
    requires ConfigMaps in order ==> HighAvailability !in done
    requires ResourceSpec(done, spec, r).Ok?
    ensures WellTyped(ResourceSpec(done, spec, r).value)
    ensures RunAll(order, spec, ResourceSpec(done, spec, r).value) == ResourceSpec(done + Members(order), spec, r)
  {
    hide ResourceSpec, RunOne, WellTyped;
    if order == [] {
      assert done + Members(order) == done;
      ResourceSpecWellTyped(done, spec, r);
    } else {
      var t := order[0];
      assert t in Members(order);
      Step(t, done, spec, r);
      var next := done + {t};
      assert Members(order) == {t} + Members(order[1..]);
      assert done + Members(order) == next + Members(order[1..]);
      if ResourceSpec(next, spec, r).Ok? {
        RunAllFrom(order[1..], next, spec, r);
      } else {
        FailureStays(next, Members(order[1..]), spec, r);
      }
    }
  }

  lemma ResourceSpecWellTyped(done: set<Transform>, spec: KnativeServingSpec, r: Resource)
    requires WellTyped(r) && ResourceSpec(done, spec, r).Ok?
    ensures WellTyped(ResourceSpec(done, spec, r).value)
  {
    BodySpecWellTyped(done, spec, r);
  }

  lemma FailureStays(done: set<Transform>, more: set<Transform>, spec: KnativeServingSpec, r: Resource)
    requires WellTyped(r) && ResourceSpec(done, spec, r).Err?
    ensures ResourceSpec(done + more, spec, r) == ResourceSpec(done, spec, r)
  {}

  predicate Admissible(order: seq<Transform>) {
    && NoRepeats(order) && ConfigMapsFirst(order)
    && Members(order) == Members(SHIPPED_ORDER)
  }

  lemma ShippedOrderAdmissible()
    ensures Admissible(SHIPPED_ORDER)
  {}

  /** The pipeline refines the specification by kind, in every admissible order. */
  lemma PipelineRefinesSpec(order: seq<Transform>, spec: KnativeServingSpec, r: Resource)
    requires WellTyped(r) && Admissible(order)
    ensures RunAll(order, spec, r) == ResourceSpec(Members(SHIPPED_ORDER), spec, r)
  {
    NothingDone(spec, r);
    RunAllFrom(order, {}, spec, r);
    assert {} + Members(order) == Members(SHIPPED_ORDER);
  }

  /** Over every manifest and spec, any permutation of the six transforms that
      keeps config maps before HA gives the same manifest, or fails as well. */
  lemma {:induction false} OrderIrrelevant(order: seq<Transform>, spec: KnativeServingSpec, manifest: seq<Resource>)
    requires AllWellTyped(manifest) && Admissible(order)
    ensures TransformAll(order, spec, manifest) == TransformAll(SHIPPED_ORDER, spec, manifest)
  {
    if manifest != [] {
      assert manifest[0] in manifest;
      PipelineRefinesSpec(order, spec, manifest[0]);
      ShippedOrderAdmissible();
      PipelineRefinesSpec(SHIPPED_ORDER, spec, manifest[0]);
      assert forall r | r in manifest[1..] :: r in manifest;
      OrderIrrelevant(order, spec, manifest[1..]);
    }
  }

  lemma OneTransformed(spec: KnativeServingSpec, r: Resource)
    requires WellTyped(r)
    ensures RunAll(SHIPPED_ORDER, spec, r).Err? <==> CertsFail(spec, r)
    ensures !CertsFail(spec, r) ==>
              RunAll(SHIPPED_ORDER, spec, r) == Ok(r.(body := BodySpec(Members(SHIPPED_ORDER), spec, r)))
  {
    hide BodySpec, RunAll, CertsFail, WellTyped;
    ShippedOrderAdmissible();
    PipelineRefinesSpec(SHIPPED_ORDER, spec, r);
    assert CustomCertificates == SHIPPED_ORDER[3] && CustomCertificates in Members(SHIPPED_ORDER);
  }

  /** The manifest a pass works with, resource by resource, straight from the
      shipped one: nothing of an earlier pass, with another spec, shows. */
  lemma {:induction false} TransformedManifest(spec: KnativeServingSpec, manifest: seq<Resource>)
    requires AllWellTyped(manifest)
    ensures var result := TransformAll(SHIPPED_ORDER, spec, manifest);
            && (result.Ok? <==> forall r | r in manifest :: !CertsFail(spec, r))
            && (result.Ok? ==> forall i | 0 <= i < |manifest| ::
                   result.value[i] == manifest[i].(body := BodySpec(Members(SHIPPED_ORDER), spec, manifest[i])))
  {
    hide BodySpec, RunAll, CertsFail, WellTyped, Members;
    if manifest != [] {
      var first, rest := manifest[0], manifest[1..];
      assert manifest == [first] + rest;
      assert first in manifest && forall r | r in rest :: r in manifest;
      OneTransformed(spec, first);
      TransformedManifest(spec, rest);
    }
  }

  // ----- what the specification means for the two kinds that layer values

  /** A key of a transformed ConfigMap: HA's key wins, then `spec.config`, then
      what was shipped. */
  lemma ConfigMapPrecedence(spec: KnativeServingSpec, r: Resource, key: string)
    requires WellTyped(r) && r.kind == "ConfigMap"
    ensures RunAll(SHIPPED_ORDER, spec, r).Ok?
    ensures var data := DataOf(RunAll(SHIPPED_ORDER, spec, r).value.body.data);
            var section := r.name[|CONFIG_PREFIX|..];
            var overrides := if section in spec.config then spec.config[section] else map[];
            if spec.highAvailability.Some? && r.name == LEADER_ELECTION && key == ENABLED_COMPONENTS then
              key in data && data[key] == COMPONENTS
            else if key in overrides then key in data && data[key] == overrides[key]
            else if key in DataOf(r.body.data) then key in data && data[key] == DataOf(r.body.data)[key]
            else key !in data
  {
    ShippedOrderAdmissible();
    PipelineRefinesSpec(SHIPPED_ORDER, spec, r);
    AllDone();
  }

  lemma AllDone()
    ensures forall t: Transform :: t in Members(SHIPPED_ORDER)
  {
    forall t: Transform ensures t in SHIPPED_ORDER {
      match t
      case ConfigMaps => assert SHIPPED_ORDER[0] == t;
      case Images => assert SHIPPED_ORDER[1] == t;
      case Gateways => assert SHIPPED_ORDER[2] == t;
      case CustomCertificates => assert SHIPPED_ORDER[3] == t;
      case HighAvailability => assert SHIPPED_ORDER[4] == t;
      case ResourceRequirements => assert SHIPPED_ORDER[5] == t;
    }
  }

  /** The minimum of an autoscaler is the larger of the shipped one and the
      replicas asked for; a shipped absence counts as zero. */
  lemma AutoscalerMinimum(spec: KnativeServingSpec, r: Resource)
    requires WellTyped(r) && r.kind == "HorizontalPodAutoscaler"
    ensures RunAll(SHIPPED_ORDER, spec, r).Ok?
    ensures var shipped := MinimumOf(r.body.minReplicas);
            var minimum := MinimumOf(RunAll(SHIPPED_ORDER, spec, r).value.body.minReplicas);
            minimum == if spec.highAvailability.Some? && spec.highAvailability.value > shipped
                       then spec.highAvailability.value else shipped
  {
    ShippedOrderAdmissible();
    PipelineRefinesSpec(SHIPPED_ORDER, spec, r);
    AllDone();
  }

  // ----- the one pair that does not commute

  /** Swapping config maps and HA changes a resource exactly when the spec sets
      HA's own key to something else in the leader election config map. */
  lemma SwapMatters(spec: KnativeServingSpec, r: Resource)
    requires WellTyped(r)
    ensures RunAll([HighAvailability, ConfigMaps], spec, r) != RunAll([ConfigMaps, HighAvailability], spec, r) <==>
            && spec.highAvailability.Some?
            && r.kind == "ConfigMap" && r.name == LEADER_ELECTION
            && "leader-election" in spec.config
            && ENABLED_COMPONENTS in spec.config["leader-election"]
            && spec.config["leader-election"][ENABLED_COMPONENTS] != COMPONENTS
  {
    RunTwo(HighAvailability, ConfigMaps, spec, r);
    RunTwo(ConfigMaps, HighAvailability, spec, r);
    if spec.highAvailability.Some? && r.kind == "ConfigMap" && r.name == LEADER_ELECTION {
      assert r.name[|CONFIG_PREFIX|..] == "leader-election";
      if "leader-election" in spec.config {
        OverlayThenSet(r.body.data, spec.config["leader-election"]);
      }
    }
  }

  lemma OverlayThenSet(data: Option<map<string, string>>, overrides: map<string, string>)
    ensures Overlaid(Some(DataOf(data)[ENABLED_COMPONENTS := COMPONENTS]), overrides) !=
            Some(DataOf(Overlaid(data, overrides))[ENABLED_COMPONENTS := COMPONENTS]) <==>
            ENABLED_COMPONENTS in overrides && overrides[ENABLED_COMPONENTS] != COMPONENTS
  {
    var setFirst := DataOf(Overlaid(Some(DataOf(data)[ENABLED_COMPONENTS := COMPONENTS]), overrides));
    var setLast := DataOf(Overlaid(data, overrides))[ENABLED_COMPONENTS := COMPONENTS];
    if ENABLED_COMPONENTS in overrides && overrides[ENABLED_COMPONENTS] != COMPONENTS {
      assert setFirst[ENABLED_COMPONENTS] != setLast[ENABLED_COMPONENTS];
    } else {
      assert setFirst == setLast;
    }
  }

  lemma RunTwo(a: Transform, b: Transform, spec: KnativeServingSpec, r: Resource)
    requires WellTyped(r) && !a.CustomCertificates? && !b.CustomCertificates?
    ensures RunOne(a, spec, r).Ok? && WellTyped(RunOne(a, spec, r).value)
    ensures RunAll([a, b], spec, r) == RunOne(b, spec, RunOne(a, spec, r).value)
  {
    RunKeepsIdentity(a, spec, r);
    assert [a, b][1..] == [b] && [b][1..] == [];
    var first := RunOne(a, spec, r).value;
    assert RunAll([b], spec, first) == RunOne(b, spec, first);
  }
}
