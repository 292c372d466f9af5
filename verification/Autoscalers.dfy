/** The two autoscaler objects: a native HPA and a KEDA ScaledObject. */
module Autoscalers {
  import opened Values
  import opened GatewaySpec

  datatype ScaleTarget = ScaleTarget(kind: string, name: string, apiVersion: string)

  datatype MetricTarget = MetricTarget(kind: string, value: Option<int>, averageValue: Option<int>,
                                       averageUtilization: Option<int>)

  datatype ResourceMetric = ResourceMetric(name: string, target: MetricTarget)

  datatype Metric = Metric(kind: string, resource: ResourceMetric)

  datatype HpaSpec = HpaSpec(min: Option<int>, max: int, target: ScaleTarget, metrics: seq<Metric>)

  /** Metadata is nil rather than empty. */
  datatype ScaledTrigger = ScaledTrigger(kind: string, metadata: Option<map<string, string>>,
                                         authentication: Option<string>)

  /** The `spec` map of a ScaledObject; a key that is absent from the map is None here. */
  datatype ScaledSpec = ScaledSpec(target: ScaleTarget, min: Option<int>, max: int, polling: Option<int>,
                                   cooldown: Option<int>, idle: Option<int>, triggers: seq<ScaledTrigger>)

  function DeploymentTarget(name: string): ScaleTarget {
    ScaleTarget("Deployment", name, "apps/v1")
  }

  function HpaSpecOf(name: string, scaling: AutoScaling): HpaSpec {
    HpaSpec(scaling.min, scaling.max, DeploymentTarget(name),
            [Metric("Resource", ResourceMetric("cpu", MetricTarget("Utilization", None, None, scaling.cpu)))])
  }

  function Metadata(metadata: map<string, string>): Option<map<string, string>> {
    if metadata == map[] then None else Some(metadata)
  }

  function Triggers(triggers: seq<Trigger>): (r: seq<ScaledTrigger>)
    ensures |r| == |triggers|
    ensures forall i | 0 <= i < |r| ::
              && r[i].kind == triggers[i].kind
              && r[i].metadata == Metadata(triggers[i].metadata)
              && r[i].authentication == triggers[i].authentication
  {
    seq(|triggers|, i requires 0 <= i < |triggers| =>
      ScaledTrigger(triggers[i].kind, Metadata(triggers[i].metadata), triggers[i].authentication))
  }

  function ScaledSpecOf(name: string, scaling: AutoScaling): ScaledSpec {
    match scaling.keda
    case None => ScaledSpec(DeploymentTarget(name), scaling.min, scaling.max, None, None, None, [])
    case Some(keda) => ScaledSpec(DeploymentTarget(name), scaling.min, scaling.max, keda.polling, keda.cooldown,
                                  keda.idle, Triggers(keda.triggers))
  }

  // ----- the two objects, field by field -----

  predicate TargetsDeployment(target: ScaleTarget, name: string) {
    target.kind == "Deployment" && target.name == name && target.apiVersion == "apps/v1"
  }

  /** Bounds as asked for, and one metric: the CPU utilization asked for. */
  predicate HpaMatches(name: string, scaling: AutoScaling, hpa: HpaSpec) {
    && hpa.min == scaling.min && hpa.max == scaling.max && TargetsDeployment(hpa.target, name)
    && |hpa.metrics| == 1
    && var m := hpa.metrics[0];
       && m.kind == "Resource" && m.resource.name == "cpu"
       && m.resource.target.kind == "Utilization" && m.resource.target.averageUtilization == scaling.cpu
       && m.resource.target.value.None? && m.resource.target.averageValue.None?
  }

  /** Type, entries and authentication of the one are those of the other; no entries are nil. */
  predicate TriggerMatches(trigger: Trigger, built: ScaledTrigger) {
    && built.kind == trigger.kind
    && (built.metadata.None? <==> trigger.metadata == map[])
    && (built.metadata.Some? ==> built.metadata.value == trigger.metadata)
    && built.authentication == trigger.authentication
  }

  predicate TriggersMatch(triggers: seq<Trigger>, built: seq<ScaledTrigger>) {
    |built| == |triggers| && forall i | 0 <= i < |triggers| :: TriggerMatches(triggers[i], built[i])
  }

  /** Bounds as asked for, and of the KEDA config every setting that is there, and no other. */
  predicate ScaledMatches(name: string, scaling: AutoScaling, scaled: ScaledSpec) {
    && scaled.min == scaling.min && scaled.max == scaling.max && TargetsDeployment(scaled.target, name)
    && (scaling.keda.None? ==>
          scaled.polling.None? && scaled.cooldown.None? && scaled.idle.None? && scaled.triggers == [])
    && (scaling.keda.Some? ==>
          && scaled.polling == scaling.keda.value.polling
          && scaled.cooldown == scaling.keda.value.cooldown
          && scaled.idle == scaling.keda.value.idle
          && TriggersMatch(scaling.keda.value.triggers, scaled.triggers))
  }

  lemma AutoscalersByField(name: string, scaling: AutoScaling)
    ensures HpaMatches(name, scaling, HpaSpecOf(name, scaling))
    ensures ScaledMatches(name, scaling, ScaledSpecOf(name, scaling))
  {
  }

  // ----- building them -----

  /** Overwrites the whole spec of an HPA. */
  method UpdateHPAv2Spec(name: string, scaling: AutoScaling) returns (spec: HpaSpec)
    ensures spec == HpaSpecOf(name, scaling) && HpaMatches(name, scaling, spec)
  {
    var target := MetricTarget("Utilization", None, None, scaling.cpu);
    spec := HpaSpec(scaling.min, scaling.max, ScaleTarget("Deployment", name, "apps/v1"),
                    [Metric("Resource", ResourceMetric("cpu", target))]);
  }

  /** Copies a metadata map entry by entry, in any order; nothing to copy gives nil. */
  method BuildTriggerMetadata(metadata: map<string, string>) returns (result: Option<map<string, string>>)
    ensures result == Metadata(metadata)
    ensures if metadata == map[] then result == None else result == Some(metadata)
  {
    if metadata == map[] {
      return None;
    }
    var copied := map[];
    var keys := metadata.Keys;
    while keys != {}
      invariant keys <= metadata.Keys
      invariant copied == map k | k in metadata.Keys - keys :: metadata[k]
      decreases keys
    {
      var k :| k in keys;
      copied := copied[k := metadata[k]];
      keys := keys - {k};
    }
    assert (map k | k in metadata.Keys - keys :: metadata[k]) == metadata;
    result := Some(copied);
  }

  method BuildKEDATriggers(keda: Option<KedaConfig>) returns (triggers: seq<ScaledTrigger>)
    ensures triggers == if keda.None? then [] else Triggers(keda.value.triggers)
    ensures if keda.None? then triggers == [] else TriggersMatch(keda.value.triggers, triggers)
  {
    triggers := [];
    if keda.None? {
      return;
    }
    for i := 0 to |keda.value.triggers|
      invariant triggers == Triggers(keda.value.triggers)[..i]
    {
      var trigger := keda.value.triggers[i];
      var metadata := BuildTriggerMetadata(trigger.metadata);
      var item := ScaledTrigger(trigger.kind, metadata, None);
      if trigger.authentication.Some? {
        item := item.(authentication := Some(trigger.authentication.value));
      }
      triggers := triggers + [item];
    }
  }

  /** Fills the map of a ScaledObject key by key. */
  method UpdateScaledObjectSpec(name: string, scaling: AutoScaling) returns (spec: ScaledSpec)
    ensures spec == ScaledSpecOf(name, scaling) && ScaledMatches(name, scaling, spec)
  {
    var triggers := BuildKEDATriggers(scaling.keda);
    spec := ScaledSpec(DeploymentTarget(name), None, scaling.max, None, None, None, triggers);
    if scaling.min.Some? {
      spec := spec.(min := Some(scaling.min.value));
    }
    if scaling.keda.Some? {
      var keda := scaling.keda.value;
      if keda.polling.Some? {
        spec := spec.(polling := Some(keda.polling.value));
      }
      if keda.cooldown.Some? {
        spec := spec.(cooldown := Some(keda.cooldown.value));
      }
      if keda.idle.Some? {
        spec := spec.(idle := Some(keda.idle.value));
      }
    }
  }

  /** What makes an autoscaler acceptable: it scales the gateway's own deployment between bounds
      that are not crossed, on something to measure. */
  ghost predicate WellFormedHpa(name: string, spec: HpaSpec) {
    && spec.target == DeploymentTarget(name)
    && (spec.min.Some? ==> spec.min.value <= spec.max)
    && |spec.metrics| == 1
    && spec.metrics[0].resource.name == "cpu"
    && spec.metrics[0].resource.target.averageUtilization.Some?
  }

  ghost predicate WellFormedScaled(name: string, spec: ScaledSpec) {
    && spec.target == DeploymentTarget(name)
    && (spec.min.Some? ==> spec.min.value <= spec.max)
    && spec.triggers != []
    && forall i | 0 <= i < |spec.triggers| :: spec.triggers[i].kind != ""
  }

  /** Validation is exactly what makes the autoscaler of each mode well formed (a CPU request is
      demanded on top of that for the HPA), and no other mode gets past it. */
  lemma ValidationMeansWellFormed(name: string, spec: Spec)
    requires EffectiveMode(spec) != Disabled
    ensures Validate(spec).None? <==>
              && !spec.local
              && match EffectiveMode(spec)
                 case NativeHPA => WellFormedHpa(name, HpaSpecOf(name, spec.autoscaling.value))
                                   && spec.cpuRequest.Some? && spec.cpuRequest.value != 0
                 case KEDA => spec.autoscaling.value.keda.Some?
                              && WellFormedScaled(name, ScaledSpecOf(name, spec.autoscaling.value))
                 case _ => false
  {
  }
}
