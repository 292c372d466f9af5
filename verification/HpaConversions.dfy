/** Conversions of a HorizontalPodAutoscaler with resource metrics between its API versions: which
    objects come back unchanged from a trip through an older version, and what is lost otherwise. */
module HpaConversions {
  import opened Values
  import opened GatewaySpec
  import opened Autoscalers
  import opened Objects

  /** `behavior` and `status` stand for the parts no conversion carries over. */
  datatype HpaV2 = HpaV2(meta: Meta, spec: HpaSpec, behavior: Option<string>, status: Option<string>)

  datatype MetricV2beta2 = MetricV2beta2(kind: string, name: string, target: MetricTarget)

  datatype HpaV2beta2 = HpaV2beta2(meta: Meta, min: Option<int>, max: int, target: ScaleTarget,
                                   metrics: seq<MetricV2beta2>)

  datatype MetricV2beta1 = MetricV2beta1(kind: string, name: string, averageUtilization: Option<int>,
                                         averageValue: Option<int>)

  datatype HpaV2beta1 = HpaV2beta1(meta: Meta, min: Option<int>, max: int, target: ScaleTarget,
                                   metrics: seq<MetricV2beta1>)

  // ----- one metric -----

  function ToV2beta2(m: Metric): MetricV2beta2 {
    MetricV2beta2(m.kind, m.resource.name, m.resource.target)
  }

  function FromV2beta2(m: MetricV2beta2): Metric {
    Metric(m.kind, ResourceMetric(m.name, m.target))
  }

  function ToV2beta1(m: Metric): MetricV2beta1 {
    MetricV2beta1(m.kind, m.resource.name, m.resource.target.averageUtilization, m.resource.target.averageValue)
  }

  /** The older version names no target type; it is read off the field that is set, utilization first. */
  function FromV2beta1(m: MetricV2beta1): Metric {
    var target :=
      if m.averageUtilization.Some? then MetricTarget("Utilization", None, None, m.averageUtilization)
      else if m.averageValue.Some? then MetricTarget("AverageValue", None, m.averageValue, None)
      else MetricTarget("", None, None, None);
    Metric(m.kind, ResourceMetric(m.name, target))
  }

  function All<T, U>(f: T -> U, s: seq<T>): (r: seq<U>)
    ensures |r| == |s|
    ensures forall i | 0 <= i < |s| :: r[i] == f(s[i])
  {
    seq(|s|, i requires 0 <= i < |s| => f(s[i]))
  }

  // ----- one metric, field by field -----

  predicate KeptInV2beta2(m: Metric, older: MetricV2beta2) {
    && older.kind == m.kind && older.name == m.resource.name
    && older.target.kind == m.resource.target.kind && older.target.value == m.resource.target.value
    && older.target.averageValue == m.resource.target.averageValue
    && older.target.averageUtilization == m.resource.target.averageUtilization
  }

  /** The target's type and its plain value have no place in the older version. */
  predicate KeptInV2beta1(m: Metric, older: MetricV2beta1) {
    && older.kind == m.kind && older.name == m.resource.name
    && older.averageUtilization == m.resource.target.averageUtilization
    && older.averageValue == m.resource.target.averageValue
  }

  predicate RebuiltFromV2beta1(older: MetricV2beta1, m: Metric) {
    && m.kind == older.kind && m.resource.name == older.name && m.resource.target.value.None?
    && m.resource.target.averageUtilization == older.averageUtilization
    && (older.averageUtilization.Some? ==>
          m.resource.target.kind == "Utilization" && m.resource.target.averageValue.None?)
    && (older.averageUtilization.None? ==> m.resource.target.averageValue == older.averageValue)
    && (older.averageUtilization.None? && older.averageValue.Some? ==> m.resource.target.kind == "AverageValue")
    && (older.averageUtilization.None? && older.averageValue.None? ==> m.resource.target.kind == "")
  }

  // ----- whole objects -----

  method ConvertV2ToV2beta1(hpa: HpaV2) returns (res: HpaV2beta1)
    ensures res == HpaV2beta1(hpa.meta, hpa.spec.min, hpa.spec.max, hpa.spec.target, All(ToV2beta1, hpa.spec.metrics))
    ensures res.meta == hpa.meta && res.min == hpa.spec.min && res.max == hpa.spec.max && res.target == hpa.spec.target
    ensures |res.metrics| == |hpa.spec.metrics|
    ensures forall i | 0 <= i < |res.metrics| :: KeptInV2beta1(hpa.spec.metrics[i], res.metrics[i])
  {
    res := HpaV2beta1(hpa.meta, hpa.spec.min, hpa.spec.max, hpa.spec.target, []);
    for i := 0 to |hpa.spec.metrics|
      invariant res == HpaV2beta1(hpa.meta, hpa.spec.min, hpa.spec.max, hpa.spec.target,
                                  All(ToV2beta1, hpa.spec.metrics)[..i])
    {
      var metric := hpa.spec.metrics[i];
      res := res.(metrics := res.metrics + [
        MetricV2beta1(metric.kind, metric.resource.name,
                      metric.resource.target.averageUtilization, metric.resource.target.averageValue)]);
    }
  }

  method ConvertV2ToV2beta2(hpa: HpaV2) returns (res: HpaV2beta2)
    ensures res == HpaV2beta2(hpa.meta, hpa.spec.min, hpa.spec.max, hpa.spec.target, All(ToV2beta2, hpa.spec.metrics))
    ensures res.meta == hpa.meta && res.min == hpa.spec.min && res.max == hpa.spec.max && res.target == hpa.spec.target
    ensures |res.metrics| == |hpa.spec.metrics|
    ensures forall i | 0 <= i < |res.metrics| :: KeptInV2beta2(hpa.spec.metrics[i], res.metrics[i])
  {
    res := HpaV2beta2(hpa.meta, hpa.spec.min, hpa.spec.max, hpa.spec.target, []);
    for i := 0 to |hpa.spec.metrics|
      invariant res == HpaV2beta2(hpa.meta, hpa.spec.min, hpa.spec.max, hpa.spec.target,
                                  All(ToV2beta2, hpa.spec.metrics)[..i])
    {
      var metric := hpa.spec.metrics[i];
      var target := metric.resource.target;
      res := res.(metrics := res.metrics + [
        MetricV2beta2(metric.kind, metric.resource.name,
                      MetricTarget(target.kind, target.value, target.averageValue, target.averageUtilization))]);
    }
  }

  method ConvertV2beta2ToV2(hpa: HpaV2beta2) returns (res: HpaV2)
    ensures res == HpaV2(hpa.meta, HpaSpec(hpa.min, hpa.max, hpa.target, All(FromV2beta2, hpa.metrics)), None, None)
    ensures res.meta == hpa.meta && res.behavior.None? && res.status.None?
    ensures res.spec.min == hpa.min && res.spec.max == hpa.max && res.spec.target == hpa.target
    ensures |res.spec.metrics| == |hpa.metrics|
    ensures forall i | 0 <= i < |hpa.metrics| :: KeptInV2beta2(res.spec.metrics[i], hpa.metrics[i])
  {
    res := HpaV2(hpa.meta, HpaSpec(hpa.min, hpa.max, hpa.target, []), None, None);
    for i := 0 to |hpa.metrics|
      invariant res == HpaV2(hpa.meta, HpaSpec(hpa.min, hpa.max, hpa.target, All(FromV2beta2, hpa.metrics)[..i]),
                             None, None)
    {
      var metric := hpa.metrics[i];
      var target := MetricTarget(metric.target.kind, metric.target.value,
                                 metric.target.averageValue, metric.target.averageUtilization);
      res := res.(spec := res.spec.(metrics := res.spec.metrics
                                    + [Metric(metric.kind, ResourceMetric(metric.name, target))]));
    }
  }

  method ConvertV2beta1ToV2(hpa: HpaV2beta1) returns (res: HpaV2)
    ensures res == HpaV2(hpa.meta, HpaSpec(hpa.min, hpa.max, hpa.target, All(FromV2beta1, hpa.metrics)), None, None)
    ensures res.meta == hpa.meta && res.behavior.None? && res.status.None?
    ensures res.spec.min == hpa.min && res.spec.max == hpa.max && res.spec.target == hpa.target
    ensures |res.spec.metrics| == |hpa.metrics|
    ensures forall i | 0 <= i < |hpa.metrics| :: RebuiltFromV2beta1(hpa.metrics[i], res.spec.metrics[i])
  {
    res := HpaV2(hpa.meta, HpaSpec(hpa.min, hpa.max, hpa.target, []), None, None);
    for i := 0 to |hpa.metrics|
      invariant res == HpaV2(hpa.meta, HpaSpec(hpa.min, hpa.max, hpa.target, All(FromV2beta1, hpa.metrics)[..i]),
                             None, None)
    {
      var metric := hpa.metrics[i];
      var item := Metric(metric.kind, ResourceMetric(metric.name, MetricTarget("", None, None, None)));
      if metric.averageUtilization.Some? {
        item := item.(resource := item.resource.(target := item.resource.target.(
          kind := "Utilization", averageUtilization := metric.averageUtilization)));
      } else if metric.averageValue.Some? {
        item := item.(resource := item.resource.(target := item.resource.target.(
          kind := "AverageValue", averageValue := metric.averageValue)));
      }
      res := res.(spec := res.spec.(metrics := res.spec.metrics + [item]));
    }
  }

  /** There and back, in either direction. */
  method ThroughV2beta2(hpa: HpaV2) returns (res: HpaV2)
    ensures res == hpa <==> hpa.behavior.None? && hpa.status.None?
    ensures res.meta == hpa.meta && res.spec == hpa.spec
  {
    var older := ConvertV2ToV2beta2(hpa);
    res := ConvertV2beta2ToV2(older);
    TripThroughV2beta2(hpa.spec.metrics);
  }

  method ThroughV2beta1(hpa: HpaV2) returns (res: HpaV2)
    ensures res == hpa <==> hpa.behavior.None? && hpa.status.None? && forall m | m in hpa.spec.metrics :: Survives(m)
    ensures res.meta == hpa.meta && res.spec == hpa.spec.(metrics := Rebuilt(hpa.spec.metrics))
  {
    var older := ConvertV2ToV2beta1(hpa);
    res := ConvertV2beta1ToV2(older);
    TripThroughV2beta1(hpa.spec.metrics);
  }

  // ----- what survives -----

  lemma TripThroughV2beta2(metrics: seq<Metric>)
    ensures All(FromV2beta2, All(ToV2beta2, metrics)) == metrics
  {
  }

  /** Nothing but one average is set, and the target type says which; or nothing is set at all. */
  predicate Survives(m: Metric) {
    var t := m.resource.target;
    && t.value.None?
    && match (t.averageUtilization, t.averageValue)
       case (Some(_), None) => t.kind == "Utilization"
       case (None, Some(_)) => t.kind == "AverageValue"
       case (None, None) => t.kind == ""
       case _ => false
  }

  function Rebuilt(metrics: seq<Metric>): seq<Metric> {
    All(FromV2beta1, All(ToV2beta1, metrics))
  }

  /** A trip through the oldest version restores exactly the metrics that survive it, and a second
      trip changes nothing more. */
  lemma TripThroughV2beta1(metrics: seq<Metric>)
    ensures Rebuilt(metrics) == metrics <==> forall m | m in metrics :: Survives(m)
    ensures Rebuilt(Rebuilt(metrics)) == Rebuilt(metrics)
  {
    forall i | 0 <= i < |metrics|
      ensures FromV2beta1(ToV2beta1(metrics[i])) == metrics[i] <==> Survives(metrics[i])
    {
    }
    if Rebuilt(metrics) == metrics {
      forall m | m in metrics
        ensures Survives(m)
      {
        var i :| 0 <= i < |metrics| && metrics[i] == m;
        assert Rebuilt(metrics)[i] == metrics[i];
      }
    } else {
      var i :| 0 <= i < |metrics| && Rebuilt(metrics)[i] != metrics[i];
      assert metrics[i] in metrics;
    }
  }

  /** The other way round only a metric with both averages set loses one. */
  lemma TripThroughV2(metrics: seq<MetricV2beta1>)
    ensures All(ToV2beta1, All(FromV2beta1, metrics)) == metrics
            <==> forall m | m in metrics :: m.averageUtilization.None? || m.averageValue.None?
  {
  }

  /** The HPA of a gateway comes back unchanged from both trips exactly when it has a CPU target,
      which validation demands of every gateway that gets one. */
  lemma GatewayHpaSurvives(name: string, spec: Spec)
    requires EffectiveMode(spec) == NativeHPA
    ensures var metrics := HpaSpecOf(name, spec.autoscaling.value).metrics;
            && All(FromV2beta2, All(ToV2beta2, metrics)) == metrics
            && (Rebuilt(metrics) == metrics <==> spec.autoscaling.value.cpu.Some?)
            && (Validate(spec).None? ==> Rebuilt(metrics) == metrics)
  {
    var metrics := HpaSpecOf(name, spec.autoscaling.value).metrics;
    TripThroughV2beta1(metrics);
    assert metrics[0] in metrics;
    assert Survives(metrics[0]) <==> spec.autoscaling.value.cpu.Some?;
  }
}
