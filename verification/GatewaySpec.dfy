/** The HigressGateway resource: its fields, the defaults filled in before every decision, and
    the pure decisions made from it. */
module GatewaySpec {
  import opened Values
  import opened MeshConfigMap

  /** `Unset` is the empty string; `Other` is any string outside the enumeration. */
  datatype Mode = Unset | Disabled | NativeHPA | KEDA | Other(name: string)

  datatype Trigger = Trigger(kind: string, metadata: map<string, string>, authentication: Option<string>)

  datatype KedaConfig = KedaConfig(polling: Option<int>, cooldown: Option<int>, idle: Option<int>,
                                   triggers: seq<Trigger>)

  datatype AutoScaling = AutoScaling(mode: Mode, enable: bool, min: Option<int>, max: int,
                                     cpu: Option<int>, keda: Option<KedaConfig>)

  datatype Account = Account(enable: bool, name: string, annotations: Labels)

  /** An empty protocol stands for TCP, as it does to the store. */
  datatype Port = Port(name: string, protocol: string, port: int)

  datatype ServiceConfig = ServiceConfig(kind: string, ports: seq<Port>, loadBalancerIP: string,
                                         sourceRanges: seq<string>, trafficPolicy: string)

  datatype Scheduling = Scheduling(scheduler: string, priorityClass: string, labels: Labels, annotations: Labels)

  datatype EnvVar = EnvVar(name: string, value: string)

  /** `env` lists the entries of the user's environment map in an arbitrary order; `cpuRequest`
      is None wherever the path to `resources.requests.cpu` breaks off. */
  datatype Spec = Spec(
    replicas: Option<int>,
    selector: Labels,
    rbac: Option<bool>,
    account: Option<Account>,
    autoscaling: Option<AutoScaling>,
    local: bool,
    cpuRequest: Option<int>,
    service: Option<ServiceConfig>,
    env: seq<EnvVar>,
    scheduling: Option<Scheduling>,
    network: string,
    jwtPolicy: string,
    image: string,
    hostNetwork: bool,
    meshSpec: MeshSpec)

  const DEFAULT_NAME := "higress-gateway"
  const DEFAULT_SELECTOR: Labels := map["app" := DEFAULT_NAME, "higress" := "higress-system-higress-gateway"]
  const DEFAULT_SERVICE := ServiceConfig("LoadBalancer", [Port("http2", "TCP", 80), Port("https", "TCP", 443)], "",
                                         [], "")

  function SetDefaults(spec: Spec): Spec {
    spec.(
      rbac := if spec.rbac.None? then Some(true) else spec.rbac,
      account := if spec.account.None? then Some(Account(true, DEFAULT_NAME, map[])) else spec.account,
      replicas := if spec.replicas.None? then Some(1) else spec.replicas,
      selector := if spec.selector == map[] then DEFAULT_SELECTOR else spec.selector,
      service := if spec.service.None? then Some(DEFAULT_SERVICE) else spec.service)
  }

  /** The service account's name, which is also the name of the cluster role binding. */
  function AccountName(id: Id, spec: Spec): string {
    match spec.account
    case None => DEFAULT_NAME
    case Some(account) => if account.name != "" then account.name else id.name
  }

  predicate RbacWanted(spec: Spec) {
    && (spec.rbac.Some? ==> spec.rbac.value)
    && (spec.account.Some? ==> spec.account.value.enable)
  }

  function EffectiveMode(spec: Spec): Mode {
    if spec.autoscaling.None? || !spec.autoscaling.value.enable then Disabled
    else if spec.autoscaling.value.mode != Unset then spec.autoscaling.value.mode
    else if spec.autoscaling.value.keda.Some? then KEDA
    else NativeHPA
  }

  datatype Invalid =
    | LocalModeUnsupported
    | InvalidReplicaBounds
    | MissingCPUTarget
    | MissingCPURequest
    | MissingKEDAConfig
    | MissingKEDATriggers
    | InvalidKEDATrigger
    | UnsupportedAutoscalingMode(mode: Mode)

  function Validate(spec: Spec): Option<Invalid> {
    if EffectiveMode(spec) == Disabled then None
    else if spec.local then Some(LocalModeUnsupported)
    else
      var scaling := spec.autoscaling.value;
      if scaling.min.Some? && scaling.max < scaling.min.value then Some(InvalidReplicaBounds)
      else
        match EffectiveMode(spec)
        case NativeHPA =>
          if scaling.cpu.None? then Some(MissingCPUTarget)
          else if spec.cpuRequest.None? || spec.cpuRequest.value == 0 then Some(MissingCPURequest)
          else None
        case KEDA =>
          if scaling.keda.None? then Some(MissingKEDAConfig)
          else if scaling.keda.value.triggers == [] then Some(MissingKEDATriggers)
          else if exists t | t in scaling.keda.value.triggers :: t.kind == "" then Some(InvalidKEDATrigger)
          else None
        case other => Some(UnsupportedAutoscalingMode(other))
  }

  lemma DefaultsAreStable(id: Id, spec: Spec)
    ensures SetDefaults(SetDefaults(spec)) == SetDefaults(spec)
    ensures AccountName(id, SetDefaults(spec)) == AccountName(id, spec)
    ensures RbacWanted(SetDefaults(spec)) == RbacWanted(spec)
    ensures EffectiveMode(SetDefaults(spec)) == EffectiveMode(spec)
    ensures Validate(SetDefaults(spec)) == Validate(spec)
  {
  }

  // ----- the decisions, read off the fields -----

  predicate AsksForHpa(spec: Spec) {
    && spec.autoscaling.Some? && spec.autoscaling.value.enable
    && (spec.autoscaling.value.mode == NativeHPA
        || (spec.autoscaling.value.mode == Unset && spec.autoscaling.value.keda.None?))
  }

  predicate AsksForKeda(spec: Spec) {
    && spec.autoscaling.Some? && spec.autoscaling.value.enable
    && (spec.autoscaling.value.mode == KEDA
        || (spec.autoscaling.value.mode == Unset && spec.autoscaling.value.keda.Some?))
  }

  predicate AsksForNothing(spec: Spec) {
    spec.autoscaling.None? || !spec.autoscaling.value.enable || spec.autoscaling.value.mode == Disabled
  }

  /** An unset mode is KEDA with a KEDA config and native without; autoscaling that is absent or not
      enabled is disabled, whatever its mode; any other name is kept. */
  lemma ModesByField(spec: Spec)
    ensures EffectiveMode(spec) == NativeHPA <==> AsksForHpa(spec)
    ensures EffectiveMode(spec) == KEDA <==> AsksForKeda(spec)
    ensures EffectiveMode(spec) == Disabled <==> AsksForNothing(spec)
    ensures forall name :: EffectiveMode(spec) == Other(name) <==>
              spec.autoscaling.Some? && spec.autoscaling.value.enable && spec.autoscaling.value.mode == Other(name)
    ensures EffectiveMode(spec) != Unset
  {
  }

  predicate BoundsCross(spec: Spec) {
    spec.autoscaling.Some? && spec.autoscaling.value.min.Some?
    && spec.autoscaling.value.max < spec.autoscaling.value.min.value
  }

  predicate RequestsCpu(spec: Spec) {
    spec.cpuRequest.Some? && spec.cpuRequest.value != 0
  }

  /** What validation accepts: no autoscaling, or autoscaling that is not local, has bounds that do not
      cross, and has what its kind needs. */
  predicate Acceptable(spec: Spec) {
    || AsksForNothing(spec)
    || (&& !spec.local && !BoundsCross(spec)
        && ((AsksForHpa(spec) && spec.autoscaling.value.cpu.Some? && RequestsCpu(spec))
            || (AsksForKeda(spec) && spec.autoscaling.value.keda.Some?
                && spec.autoscaling.value.keda.value.triggers != []
                && forall t | t in spec.autoscaling.value.keda.value.triggers :: t.kind != "")))
  }

  /** Why a spec is rejected: the first of these that applies, in this order. */
  lemma RejectionsByField(spec: Spec)
    ensures Validate(spec).None? <==> Acceptable(spec)
    ensures Validate(spec) == Some(LocalModeUnsupported) <==> !AsksForNothing(spec) && spec.local
    ensures Validate(spec) == Some(InvalidReplicaBounds) <==>
              !AsksForNothing(spec) && !spec.local && BoundsCross(spec)
    ensures Validate(spec) == Some(MissingCPUTarget) <==>
              AsksForHpa(spec) && !spec.local && !BoundsCross(spec) && spec.autoscaling.value.cpu.None?
    ensures Validate(spec) == Some(MissingCPURequest) <==>
              AsksForHpa(spec) && !spec.local && !BoundsCross(spec) && spec.autoscaling.value.cpu.Some?
              && !RequestsCpu(spec)
    ensures Validate(spec) == Some(MissingKEDAConfig) <==>
              AsksForKeda(spec) && !spec.local && !BoundsCross(spec) && spec.autoscaling.value.keda.None?
    ensures Validate(spec) == Some(MissingKEDATriggers) <==>
              AsksForKeda(spec) && !spec.local && !BoundsCross(spec) && spec.autoscaling.value.keda.Some?
              && spec.autoscaling.value.keda.value.triggers == []
    ensures Validate(spec) == Some(InvalidKEDATrigger) <==>
              AsksForKeda(spec) && !spec.local && !BoundsCross(spec) && spec.autoscaling.value.keda.Some?
              && exists t :: t in spec.autoscaling.value.keda.value.triggers && t.kind == ""
    ensures forall mode :: Validate(spec) == Some(UnsupportedAutoscalingMode(mode)) <==>
              !AsksForNothing(spec) && !AsksForHpa(spec) && !AsksForKeda(spec) && !spec.local && !BoundsCross(spec)
              && mode == spec.autoscaling.value.mode
  {
  }

  /** What is absent gets its default, what is there is kept. */
  lemma DefaultsByField(spec: Spec)
    ensures var d := SetDefaults(spec);
            && d.rbac == (if spec.rbac.Some? then spec.rbac else Some(true))
            && d.account == (if spec.account.Some? then spec.account else Some(Account(true, "higress-gateway", map[])))
            && d.replicas == (if spec.replicas.Some? then spec.replicas else Some(1))
            && d.selector == (if spec.selector != map[] then spec.selector
                              else map["app" := "higress-gateway", "higress" := "higress-system-higress-gateway"])
            && (spec.service.Some? ==> d.service == spec.service)
            && (spec.service.None? ==>
                  d.service == Some(ServiceConfig("LoadBalancer", [Port("http2", "TCP", 80), Port("https", "TCP", 443)],
                                                  "", [], "")))
            && spec == d.(rbac := spec.rbac, account := spec.account, replicas := spec.replicas,
                          selector := spec.selector, service := spec.service)
  {
  }

  /** RBAC objects are wanted unless a switch that is there is off; the account is named by its config,
      after the gateway if the config leaves the name empty, and after the operator without a config. */
  lemma AccessByField(id: Id, spec: Spec)
    ensures !RbacWanted(spec) <==> spec.rbac == Some(false) || (spec.account.Some? && !spec.account.value.enable)
    ensures spec.account.None? ==> AccountName(id, spec) == "higress-gateway"
    ensures spec.account.Some? && spec.account.value.name == "" ==> AccountName(id, spec) == id.name
    ensures spec.account.Some? && spec.account.value.name != "" ==> AccountName(id, spec) == spec.account.value.name
  {
  }

  /** The name of the service account, and of the cluster role binding. */
  predicate IsAccount(id: Id, spec: Spec, name: string) {
    && (spec.account.None? ==> name == "higress-gateway")
    && (spec.account.Some? && spec.account.value.name == "" ==> name == id.name)
    && (spec.account.Some? && spec.account.value.name != "" ==> name == spec.account.value.name)
  }
}
