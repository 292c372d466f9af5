/** The objects a gateway owns, how each is initialised, and how a reconcile changes the stored one. */
module Objects {
  import opened Values
  import opened GatewaySpec
  import opened Conditions
  import opened MeshConfigMap
  import opened Autoscalers
  import opened Subjects

  datatype Kind =
    | GatewayKind
    | AccountKind
    | ClusterRoleKind
    | ClusterBindingKind
    | RoleKind
    | RoleBindingKind
    | ConfigKind
    | DeploymentKind
    | HpaKind
    | ScaledKind
    | ServiceKind

  /** Cluster-scoped objects have the empty namespace. */
  datatype Key = Key(kind: Kind, ns: string, name: string)

  /** `generation` counts the changes of `spec`. */
  datatype Gateway = Gateway(labels: Labels, annotations: Labels, generation: int, finalizers: set<string>,
                             deleting: bool, spec: Spec, status: Status)

  datatype Meta = Meta(labels: Labels, annotations: Labels, owner: Option<string>)

  datatype Rule = Rule(verbs: seq<string>, groups: seq<string>, resources: seq<string>)

  datatype Template = Template(labels: Labels, annotations: Labels, scheduler: string, priorityClass: string,
                               account: string, image: string, env: seq<EnvVar>, cpu: Option<int>, hostNetwork: bool)

  datatype ServiceSpec = ServiceSpec(selector: Labels, kind: string, ports: seq<Port>, loadBalancerIP: string,
                                     sourceRanges: seq<string>, trafficPolicy: string)

  datatype Body =
    | GatewayBody(gw: Gateway)
    | AccountBody(meta: Meta)
    | RulesBody(rules: seq<Rule>)
    | BindingBody(role: RoleRef, subjects: seq<Subject>)
    | ConfigBody(meta: Meta, data: Data)
    | DeploymentBody(meta: Meta, replicas: Option<int>, selector: Labels, template: Template)
    | HpaBody(meta: Meta, hpa: HpaSpec)
    | ScaledBody(meta: Meta, scaled: ScaledSpec)
    | ServiceBody(meta: Meta, service: ServiceSpec)

  const FINALIZER := "higressgateway.higress.io/finalizer"
  const ROLE := "higress-gateway"
  const CONFIG_NAME := "higress-gateway-config"
  const SERVICE_NAME := "higress-gateway"
  const NETWORK_LABEL := "topology.istio.io/network"
  const DEFAULT_RULES := [Rule(["get", "list", "watch", "update", "delete"], [""], ["secrets"])]
  const NETWORK_PORTS := [Port("status-port", "", 15021), Port("tls", "", 15443),
                         Port("tls-istiod", "", 15012), Port("tls-webhook", "", 15017)]

  predicate Fits(kind: Kind, body: Body) {
    match kind
    case GatewayKind => body.GatewayBody?
    case AccountKind => body.AccountBody?
    case ClusterRoleKind => body.RulesBody?
    case RoleKind => body.RulesBody?
    case ClusterBindingKind => body.BindingBody?
    case RoleBindingKind => body.BindingBody?
    case ConfigKind => body.ConfigBody?
    case DeploymentKind => body.DeploymentBody?
    case HpaKind => body.HpaBody?
    case ScaledKind => body.ScaledBody?
    case ServiceKind => body.ServiceBody?
  }

  function GatewayKey(id: Id): Key {
    Key(GatewayKind, id.ns, id.name)
  }

  /** Where the object of each kind lives; the cluster role binding is shared by every gateway
      whose service account has the same name. */
  function KeyOf(kind: Kind, id: Id, spec: Spec): Key {
    match kind
    case GatewayKind => GatewayKey(id)
    case AccountKind => Key(kind, id.ns, AccountName(id, spec))
    case ClusterRoleKind => Key(kind, "", ROLE)
    case ClusterBindingKind => Key(kind, "", AccountName(id, spec))
    case RoleKind => Key(kind, id.ns, ROLE)
    case RoleBindingKind => Key(kind, id.ns, ROLE)
    case ConfigKind => Key(kind, id.ns, CONFIG_NAME)
    case DeploymentKind => Key(kind, id.ns, id.name)
    case HpaKind => Key(kind, id.ns, id.name)
    case ScaledKind => Key(kind, id.ns, id.name)
    case ServiceKind => Key(kind, id.ns, SERVICE_NAME)
  }

  // ----- the deployment -----

  /** The pod labels: those of the selector, and scheduling labels whose keys are not taken. */
  function TemplateLabels(spec: Spec): Labels {
    match spec.scheduling
    case None => spec.selector
    case Some(scheduling) => scheduling.labels + spec.selector
  }

  /** The user's entries come in the order of a map iteration: `order` when it is an ordering of
      them, else the listed one. */
  function Arrange(entries: seq<EnvVar>, order: seq<EnvVar>): seq<EnvVar> {
    if multiset(order) == multiset(entries) then order else entries
  }

  function FixedEnv(spec: Spec): seq<EnvVar> {
    [EnvVar("JWT_POLICY", spec.jwtPolicy)]
    + if spec.network != "" then [EnvVar("ISTIO_META_REQUESTED_NETWORK_VIEW", spec.network)] else []
  }

  function TemplateOf(spec: Spec, order: seq<EnvVar>): Template {
    Template(
      TemplateLabels(spec),
      if spec.scheduling.Some? then spec.scheduling.value.annotations else map[],
      if spec.scheduling.Some? then spec.scheduling.value.scheduler else "",
      if spec.scheduling.Some? then spec.scheduling.value.priorityClass else "",
      if spec.account.Some? && spec.account.value.enable then spec.account.value.name else "",
      spec.image,
      FixedEnv(spec) + Arrange(spec.env, order),
      if spec.local then None else spec.cpuRequest,
      spec.hostNetwork)
  }

  /** The replica count of a deployment whose autoscaler, if any, owns it once it is set. */
  function ReplicasOf(spec: Spec, current: Option<int>): Option<int> {
    if EffectiveMode(spec) != Disabled && current.Some? then current else spec.replicas
  }

  // ----- the service -----

  function ServiceOf(spec: Spec, current: ServiceSpec): ServiceSpec {
    var base := current.(selector := spec.selector);
    var configured :=
      match spec.service
      case None => base
      case Some(s) =>
        base.(loadBalancerIP := if s.loadBalancerIP != "" then s.loadBalancerIP else base.loadBalancerIP,
              sourceRanges := if s.sourceRanges != [] then s.sourceRanges else base.sourceRanges,
              trafficPolicy := if s.trafficPolicy != "" then s.trafficPolicy else base.trafficPolicy,
              kind := s.kind,
              ports := s.ports);
    if spec.network != "" then configured.(ports := NETWORK_PORTS) else configured
  }

  /** The network label is written into the service's own label map, which must not be nil. */
  predicate ServicePanics(spec: Spec, labels: Labels) {
    spec.network != "" && labels == map[]
  }

  function ServiceLabels(spec: Spec, labels: Labels): Labels {
    if spec.network != "" then labels[NETWORK_LABEL := spec.network] else labels
  }

  // ----- initial objects and mutations -----

  /** Stands where the source would dereference a nil autoscaling config; validation rules that out. */
  const NO_SCALING := AutoScaling(Unset, false, None, 0, None, None)

  function ScalingOf(spec: Spec): AutoScaling {
    if spec.autoscaling.Some? then spec.autoscaling.value else NO_SCALING
  }

  function Initial(kind: Kind, id: Id, gw: Gateway): Body {
    var name := AccountName(id, gw.spec);
    var owned := Meta(gw.labels, gw.annotations, Some(id.name));
    match kind
    case GatewayKind => GatewayBody(gw)
    case AccountKind =>
      AccountBody(Meta(gw.labels, if gw.spec.account.Some? then gw.spec.account.value.annotations else map[],
                       Some(id.name)))
    case ClusterRoleKind => RulesBody(DEFAULT_RULES)
    case RoleKind => RulesBody(DEFAULT_RULES)
    case ClusterBindingKind => BindingBody(RoleRef("ClusterRole", ROLE), [AccountSubject(name, id.ns)])
    case RoleBindingKind => BindingBody(RoleRef("Role", name), [AccountSubject(name, id.ns)])
    case ConfigKind => ConfigBody(Meta(gw.labels, map[], None), map[])
    case DeploymentKind => DeploymentBody(owned, gw.spec.replicas, gw.spec.selector, TemplateOf(gw.spec, gw.spec.env))
    case HpaKind => HpaBody(owned, HpaSpecOf(id.name, ScalingOf(gw.spec)))
    case ScaledKind => ScaledBody(owned, ScaledSpecOf(id.name, ScalingOf(gw.spec)))
    case ServiceKind =>
      ServiceBody(owned.(labels := ServiceLabels(gw.spec, gw.labels)),
                  ServiceOf(gw.spec, ServiceSpec(map[], "", [], "", [], "")))
  }

  /** What the mutate callback of each kind makes of the object it is given. */
  function Mutate(kind: Kind, id: Id, gw: Gateway, order: seq<EnvVar>, body: Body): Body {
    var name := AccountName(id, gw.spec);
    var scaling := ScalingOf(gw.spec);
    match body
    case RulesBody(_) => RulesBody(DEFAULT_RULES)
    case BindingBody(_, subjects) =>
      BindingBody(RoleRef(if kind == ClusterBindingKind then "ClusterRole" else "Role", ROLE),
                  AddSubject(subjects, AccountSubject(name, id.ns)))
    case ConfigBody(meta, _) => ConfigBody(meta, StoredData(id.ns, gw.spec.meshSpec))
    case DeploymentBody(meta, replicas, _, _) =>
      DeploymentBody(meta, ReplicasOf(gw.spec, replicas), gw.spec.selector, TemplateOf(gw.spec, order))
    case HpaBody(meta, _) =>
      HpaBody(meta.(labels := gw.labels, annotations := gw.annotations), HpaSpecOf(id.name, scaling))
    case ScaledBody(meta, _) =>
      ScaledBody(meta.(labels := gw.labels, annotations := gw.annotations), ScaledSpecOf(id.name, scaling))
    case ServiceBody(meta, service) =>
      ServiceBody(meta.(labels := ServiceLabels(gw.spec, meta.labels)), ServiceOf(gw.spec, service))
    case GatewayBody(_) => body
    case AccountBody(_) => body
  }

  lemma InitialFits(kind: Kind, id: Id, gw: Gateway)
    ensures Fits(kind, Initial(kind, id, gw))
  {
  }

  lemma MutateFits(kind: Kind, id: Id, gw: Gateway, order: seq<EnvVar>, body: Body)
    requires Fits(kind, body)
    ensures Fits(kind, Mutate(kind, id, gw, order, body))
  {
  }

  /** Equality up to the order of the environment and the times of status transitions. */
  predicate Alike(a: Body, b: Body) {
    match (a, b)
    case (DeploymentBody(_, _, _, t), DeploymentBody(_, _, _, u)) =>
      a.(template := t.(env := [])) == b.(template := u.(env := [])) && multiset(t.env) == multiset(u.env)
    case (GatewayBody(g), GatewayBody(h)) =>
      g.(status := TimelessStatus(g.status)) == h.(status := TimelessStatus(h.status))
    case _ => a == b
  }

  lemma DeploymentSettles(id: Id, gw: Gateway, order: seq<EnvVar>, order': seq<EnvVar>, body: Body)
    requires body.DeploymentBody?
    ensures var once := Mutate(DeploymentKind, id, gw, order, body);
            var other := Mutate(DeploymentKind, id, gw, order', body);
            && Mutate(DeploymentKind, id, gw, order, once) == once
            && Mutate(DeploymentKind, id, gw, order', once) == other
            && Alike(once, other)
            && (|gw.spec.env| <= 1 ==> once == other)
  {
    assert multiset(Arrange(gw.spec.env, order)) == multiset(Arrange(gw.spec.env, order'));
    if |gw.spec.env| <= 1 {
      OneWayToArrange(gw.spec.env, order);
      OneWayToArrange(gw.spec.env, order');
    }
  }

  /** Only a deployment depends on the order drawn. */
  lemma OthersSettle(kind: Kind, id: Id, gw: Gateway, order: seq<EnvVar>, order': seq<EnvVar>, body: Body)
    requires !body.DeploymentBody?
    ensures var once := Mutate(kind, id, gw, order, body);
            Mutate(kind, id, gw, order', body) == once && Mutate(kind, id, gw, order, once) == once
  {
  }

  lemma KindOnlyMattersForBindings(kind: Kind, kind': Kind, id: Id, gw: Gateway, order: seq<EnvVar>, body: Body)
    requires !body.BindingBody?
    ensures Mutate(kind, id, gw, order, body) == Mutate(kind', id, gw, order, body)
  {
  }

  /** Mutating twice is mutating once, whichever map orders were drawn. */
  lemma MutateSettles(kind: Kind, id: Id, gw: Gateway, order: seq<EnvVar>, order': seq<EnvVar>, body: Body)
    ensures var once, other := Mutate(kind, id, gw, order, body), Mutate(kind, id, gw, order', body);
            && Mutate(kind, id, gw, order, once) == once
            && Mutate(kind, id, gw, order', once) == other
            && Alike(once, other)
            && (|gw.spec.env| <= 1 || !body.DeploymentBody? ==> once == other)
  {
    if body.DeploymentBody? {
      DeploymentSettles(id, gw, order, order', body);
      KindOnlyMattersForBindings(kind, DeploymentKind, id, gw, order, body);
      KindOnlyMattersForBindings(kind, DeploymentKind, id, gw, order', body);
      var once := Mutate(DeploymentKind, id, gw, order, body);
      KindOnlyMattersForBindings(kind, DeploymentKind, id, gw, order, once);
      KindOnlyMattersForBindings(kind, DeploymentKind, id, gw, order', once);
    } else {
      OthersSettle(kind, id, gw, order, order', body);
    }
  }

  lemma OneWayToArrange(entries: seq<EnvVar>, order: seq<EnvVar>)
    requires |entries| <= 1
    ensures Arrange(entries, order) == entries
  {
  }

  lemma AlikeIsTransitive(a: Body, b: Body, c: Body)
    requires Alike(a, b) && Alike(b, c)
    ensures Alike(a, c) && Alike(b, a)
  {
  }

  /** Every deployment a reconcile writes selects its own pods. */
  lemma SelectorMatchesPods(kind: Kind, id: Id, gw: Gateway, order: seq<EnvVar>, body: Body)
    requires Mutate(kind, id, gw, order, body).DeploymentBody?
    ensures var d := Mutate(kind, id, gw, order, body);
            forall k | k in d.selector :: k in d.template.labels && d.template.labels[k] == d.selector[k]
  {
  }

  // ----- the objects, field by field -----

  /** The selector's labels, and those scheduling labels whose keys the selector does not have. */
  ghost predicate LabelsMatch(spec: Spec, labels: Labels) {
    && (forall k :: k in labels <==> k in spec.selector || (spec.scheduling.Some? && k in spec.scheduling.value.labels))
    && (forall k | k in spec.selector :: k in labels && labels[k] == spec.selector[k])
    && (spec.scheduling.Some? ==>
          forall k | k in spec.scheduling.value.labels && k !in spec.selector ::
            k in labels && labels[k] == spec.scheduling.value.labels[k])
  }

  /** The operator's variables first, then the user's in any order. */
  ghost predicate EnvMatches(spec: Spec, env: seq<EnvVar>) {
    var n := if spec.network != "" then 2 else 1;
    && n <= |env| && env[0] == EnvVar("JWT_POLICY", spec.jwtPolicy)
    && (spec.network != "" ==> env[1] == EnvVar("ISTIO_META_REQUESTED_NETWORK_VIEW", spec.network))
    && multiset(env[n..]) == multiset(spec.env)
  }

  ghost predicate TemplateMatches(spec: Spec, t: Template) {
    && LabelsMatch(spec, t.labels)
    && EnvMatches(spec, t.env)
    && t.image == spec.image
    && t.hostNetwork == spec.hostNetwork
    && (spec.local ==> t.cpu.None?) && (!spec.local ==> t.cpu == spec.cpuRequest)
    && (t.account == if spec.account.Some? && spec.account.value.enable then spec.account.value.name else "")
    && (spec.scheduling.None? ==> t.annotations == map[] && t.scheduler == "" && t.priorityClass == "")
    && (spec.scheduling.Some? ==>
          && t.annotations == spec.scheduling.value.annotations
          && t.scheduler == spec.scheduling.value.scheduler
          && t.priorityClass == spec.scheduling.value.priorityClass)
  }

  /** The ports of a gateway that connects networks, whatever the user asks for. */
  predicate ConnectsNetworks(ports: seq<Port>) {
    && |ports| == 4
    && ports[0] == Port("status-port", "", 15021) && ports[1] == Port("tls", "", 15443)
    && ports[2] == Port("tls-istiod", "", 15012) && ports[3] == Port("tls-webhook", "", 15017)
  }

  /** What the user sets is taken over, what is left empty stays as it was. */
  predicate ServiceMatches(spec: Spec, before: ServiceSpec, after: ServiceSpec) {
    && after.selector == spec.selector
    && (spec.network != "" ==> ConnectsNetworks(after.ports))
    && (spec.service.None? ==>
          && after.kind == before.kind && after.loadBalancerIP == before.loadBalancerIP
          && after.sourceRanges == before.sourceRanges && after.trafficPolicy == before.trafficPolicy
          && (spec.network == "" ==> after.ports == before.ports))
    && (spec.service.Some? ==>
          var s := spec.service.value;
          && after.kind == s.kind
          && (spec.network == "" ==> after.ports == s.ports)
          && (after.loadBalancerIP == if s.loadBalancerIP == "" then before.loadBalancerIP else s.loadBalancerIP)
          && (after.sourceRanges == if s.sourceRanges == [] then before.sourceRanges else s.sourceRanges)
          && (after.trafficPolicy == if s.trafficPolicy == "" then before.trafficPolicy else s.trafficPolicy))
  }

  predicate NetworkLabelled(spec: Spec, before: Labels, after: Labels) {
    if spec.network == "" then after == before else after == before["topology.istio.io/network" := spec.network]
  }

  predicate GrantsSecrets(rules: seq<Rule>) {
    && |rules| == 1 && rules[0].groups == [""] && rules[0].resources == ["secrets"]
    && rules[0].verbs == ["get", "list", "watch", "update", "delete"]
  }

  predicate IsSubjectOf(id: Id, spec: Spec, s: Subject) {
    s.kind == "ServiceAccount" && s.apiGroup == "" && s.ns == id.ns && IsAccount(id, spec, s.name)
  }

  /** The replica count in the mutated deployment: with autoscaling a count that is set is kept. */
  predicate ReplicasMatch(spec: Spec, before: Option<int>, after: Option<int>) {
    if AsksForNothing(spec) || before.None? then after == spec.replicas else after == before
  }

  /** What each callback makes of what it is given. */
  ghost predicate MutationMatches(kind: Kind, id: Id, gw: Gateway, before: Body, after: Body) {
    match (before, after)
    case (RulesBody(_), RulesBody(rules)) => GrantsSecrets(rules)
    case (BindingBody(_, former), BindingBody(role, subjects)) =>
      && role.name == "higress-gateway"
      && (if kind == ClusterBindingKind then role.kind == "ClusterRole" else role.kind == "Role")
      && (exists s :: IsSubjectOf(id, gw.spec, s)
                      && (if s in former then subjects == former else subjects == former + [s]))
    case (ConfigBody(m, _), ConfigBody(n, data)) => n == m && DataMatches(id.ns, gw.spec.meshSpec, data)
    case (DeploymentBody(m, before, _, _), DeploymentBody(n, after, selector, template)) =>
      n == m && ReplicasMatch(gw.spec, before, after) && selector == gw.spec.selector
      && TemplateMatches(gw.spec, template)
    case (HpaBody(m, _), HpaBody(n, hpa)) =>
      n == m.(labels := gw.labels, annotations := gw.annotations)
      && (gw.spec.autoscaling.Some? ==> HpaMatches(id.name, gw.spec.autoscaling.value, hpa))
    case (ScaledBody(m, _), ScaledBody(n, scaled)) =>
      n == m.(labels := gw.labels, annotations := gw.annotations)
      && (gw.spec.autoscaling.Some? ==> ScaledMatches(id.name, gw.spec.autoscaling.value, scaled))
    case (ServiceBody(m, before), ServiceBody(n, after)) =>
      n == m.(labels := n.labels) && NetworkLabelled(gw.spec, m.labels, n.labels)
      && ServiceMatches(gw.spec, before, after)
    case (GatewayBody(_), _) => after == before
    case (AccountBody(_), _) => after == before
    case _ => false
  }

  lemma LabelsByField(spec: Spec)
    ensures LabelsMatch(spec, TemplateLabels(spec))
  {
  }

  lemma EnvByField(spec: Spec, order: seq<EnvVar>)
    ensures EnvMatches(spec, FixedEnv(spec) + Arrange(spec.env, order))
  {
    var n := if spec.network != "" then 2 else 1;
    assert (FixedEnv(spec) + Arrange(spec.env, order))[n..] == Arrange(spec.env, order);
  }

  lemma TemplateByField(spec: Spec, order: seq<EnvVar>)
    ensures TemplateMatches(spec, TemplateOf(spec, order))
  {
    LabelsByField(spec);
    EnvByField(spec, order);
  }

  lemma ServiceByField(spec: Spec, before: ServiceSpec)
    ensures ServiceMatches(spec, before, ServiceOf(spec, before))
  {
  }

  lemma BindingByField(kind: Kind, id: Id, gw: Gateway, order: seq<EnvVar>, body: Body)
    requires body.BindingBody?
    ensures MutationMatches(kind, id, gw, body, Mutate(kind, id, gw, order, body))
  {
    AccessByField(id, gw.spec);
    assert IsSubjectOf(id, gw.spec, AccountSubject(AccountName(id, gw.spec), id.ns));
  }

  lemma DeploymentByField(kind: Kind, id: Id, gw: Gateway, order: seq<EnvVar>, body: Body)
    requires body.DeploymentBody?
    ensures MutationMatches(kind, id, gw, body, Mutate(kind, id, gw, order, body))
  {
    ModesByField(gw.spec);
    TemplateByField(gw.spec, order);
  }

  lemma AutoscalerByField(kind: Kind, id: Id, gw: Gateway, order: seq<EnvVar>, body: Body)
    requires body.HpaBody? || body.ScaledBody?
    ensures MutationMatches(kind, id, gw, body, Mutate(kind, id, gw, order, body))
  {
    AutoscalersByField(id.name, ScalingOf(gw.spec));
  }

  lemma ServiceBodyByField(kind: Kind, id: Id, gw: Gateway, order: seq<EnvVar>, body: Body)
    requires body.ServiceBody?
    ensures MutationMatches(kind, id, gw, body, Mutate(kind, id, gw, order, body))
  {
    ServiceByField(gw.spec, body.service);
  }

  lemma ConfigByField(kind: Kind, id: Id, gw: Gateway, order: seq<EnvVar>, body: Body)
    requires body.ConfigBody?
    ensures MutationMatches(kind, id, gw, body, Mutate(kind, id, gw, order, body))
  {
    DataByField(id.ns, gw.spec.meshSpec, StoredData(id.ns, gw.spec.meshSpec));
  }

  lemma MutationsByField(kind: Kind, id: Id, gw: Gateway, order: seq<EnvVar>, body: Body)
    ensures MutationMatches(kind, id, gw, body, Mutate(kind, id, gw, order, body))
  {
    match body
    case BindingBody(_, _) => BindingByField(kind, id, gw, order, body);
    case ConfigBody(_, _) => ConfigByField(kind, id, gw, order, body);
    case DeploymentBody(_, _, _, _) => DeploymentByField(kind, id, gw, order, body);
    case HpaBody(_, _) => AutoscalerByField(kind, id, gw, order, body);
    case ScaledBody(_, _) => AutoscalerByField(kind, id, gw, order, body);
    case ServiceBody(_, _) => ServiceBodyByField(kind, id, gw, order, body);
    case _ =>
  }

  /** Where each object lives. */
  predicate Place(kind: Kind, id: Id, spec: Spec, key: Key) {
    && key.kind == kind
    && match kind
       case GatewayKind => key.ns == id.ns && key.name == id.name
       case AccountKind => key.ns == id.ns && IsAccount(id, spec, key.name)
       case ClusterRoleKind => key.ns == "" && key.name == "higress-gateway"
       case ClusterBindingKind => key.ns == "" && IsAccount(id, spec, key.name)
       case RoleKind => key.ns == id.ns && key.name == "higress-gateway"
       case RoleBindingKind => key.ns == id.ns && key.name == "higress-gateway"
       case ConfigKind => key.ns == id.ns && key.name == "higress-gateway-config"
       case DeploymentKind => key.ns == id.ns && key.name == id.name
       case HpaKind => key.ns == id.ns && key.name == id.name
       case ScaledKind => key.ns == id.ns && key.name == id.name
       case ServiceKind => key.ns == id.ns && key.name == "higress-gateway"
  }

  lemma PlacesByField(kind: Kind, id: Id, spec: Spec, key: Key)
    ensures key == KeyOf(kind, id, spec) <==> Place(kind, id, spec, key)
  {
    AccessByField(id, spec);
  }

  /** Labels, annotations and owner of an object that is created. */
  predicate NewMeta(kind: Kind, id: Id, gw: Gateway, meta: Meta) {
    match kind
    case AccountKind =>
      meta.labels == gw.labels && meta.owner == Some(id.name)
      && (gw.spec.account.Some? ==> meta.annotations == gw.spec.account.value.annotations)
    case ConfigKind => meta.labels == gw.labels && meta.annotations == map[] && meta.owner.None?
    case ServiceKind =>
      NetworkLabelled(gw.spec, gw.labels, meta.labels) && meta.annotations == gw.annotations
      && meta.owner == Some(id.name)
    case _ => meta.labels == gw.labels && meta.annotations == gw.annotations && meta.owner == Some(id.name)
  }

  predicate HasMeta(body: Body) {
    || body.AccountBody? || body.ConfigBody? || body.DeploymentBody?
    || body.HpaBody? || body.ScaledBody? || body.ServiceBody?
  }

  lemma NewMetaByField(kind: Kind, id: Id, gw: Gateway, order: seq<EnvVar>)
    ensures var body := Initial(kind, id, gw); HasMeta(body) ==> NewMeta(kind, id, gw, body.meta)
    ensures var body := Mutate(kind, id, gw, order, Initial(kind, id, gw));
            HasMeta(body) ==> NewMeta(kind, id, gw, body.meta)
    ensures var body := Mutate(kind, id, gw, order, Initial(kind, id, gw));
            body.BindingBody? ==> |body.subjects| == 1 && IsSubjectOf(id, gw.spec, body.subjects[0])
  {
    AccessByField(id, gw.spec);
  }

  /** What an object that is created is made from: nothing but its metadata. */
  function Blank(gw: Gateway, after: Body): Body {
    match after
    case RulesBody(_) => RulesBody([])
    case BindingBody(role, _) => BindingBody(role, [])
    case ConfigBody(meta, _) => ConfigBody(meta, map[])
    case DeploymentBody(meta, _, selector, template) => DeploymentBody(meta, None, selector, template)
    case ServiceBody(meta, _) =>
      ServiceBody(meta.(labels := gw.labels), ServiceSpec(map[], "", [], "", [], ""))
    case _ => after
  }

  ghost predicate CreationMatches(kind: Kind, id: Id, gw: Gateway, after: Body) {
    MutationMatches(kind, id, gw, Blank(gw, after), after) && (HasMeta(after) ==> NewMeta(kind, id, gw, after.meta))
  }

  lemma CreationsByField(kind: Kind, id: Id, gw: Gateway, order: seq<EnvVar>)
    requires kind != GatewayKind && kind != AccountKind
    ensures CreationMatches(kind, id, gw, Mutate(kind, id, gw, order, Initial(kind, id, gw)))
  {
    NewMetaByField(kind, id, gw, order);
    var initial := Initial(kind, id, gw);
    var after := Mutate(kind, id, gw, order, initial);
    MutationsByField(kind, id, gw, order, Blank(gw, after));
    BlankMutates(kind, id, gw, order);
  }

  /** Starting from the initial object makes no difference to starting from a blank one. */
  lemma BlankMutates(kind: Kind, id: Id, gw: Gateway, order: seq<EnvVar>)
    requires kind != GatewayKind && kind != AccountKind
    ensures var after := Mutate(kind, id, gw, order, Initial(kind, id, gw));
            Mutate(kind, id, gw, order, Blank(gw, after)) == after
  {
    var subject := AccountSubject(AccountName(id, gw.spec), id.ns);
    assert AddSubject([], subject) == [subject];
  }
}
