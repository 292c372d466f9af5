/** Two gateways of one namespace: they share a config map, a service, a role and a role binding, and
    may share an account and its bindings. When can both be left alone? */
module Neighbours {
  import opened Values
  import opened GatewaySpec
  import opened Subjects
  import opened MeshConfigMap
  import opened Objects
  import opened ApiServer
  import opened Protocol
  import opened Interleavings
  import opened Convergence
  import opened Reconciliation

  // ----- what two specs must agree on -----

  /** A setting that is written only if it is not empty. */
  predicate Compatible<T(==)>(x: T, y: T, empty: T) {
    x == y || x == empty || y == empty
  }

  function ServicePorts(spec: Spec, s: ServiceConfig): seq<Port> {
    if spec.network != "" then NETWORK_PORTS else s.ports
  }

  predicate ServicesAgree(a: Spec, b: Spec)
    requires a.service.Some? && b.service.Some?
  {
    var s, t := a.service.value, b.service.value;
    && a.selector == b.selector
    && Compatible(a.network, b.network, "")
    && s.kind == t.kind
    && Compatible(s.loadBalancerIP, t.loadBalancerIP, "")
    && Compatible(s.sourceRanges, t.sourceRanges, [])
    && Compatible(s.trafficPolicy, t.trafficPolicy, "")
    && ServicePorts(a, s) == ServicePorts(b, t)
  }

  /** Of everything that is shared, only config map and service depend on the gateway in a way that
      can clash. */
  predicate Agree(ns: string, a: Spec, b: Spec)
    requires a.service.Some? && b.service.Some?
  {
    StoredData(ns, a.meshSpec) == StoredData(ns, b.meshSpec) && ServicesAgree(a, b)
  }

  predicate Suits(spec: Spec, labels: Labels, service: ServiceSpec) {
    ServiceOf(spec, service) == service && ServiceLabels(spec, labels) == labels
  }

  lemma SuitedServicesAgree(a: Spec, b: Spec, labels: Labels, service: ServiceSpec)
    requires a.service.Some? && b.service.Some?
    requires Suits(a, labels, service) && Suits(b, labels, service)
    ensures ServicesAgree(a, b)
  {
    assert a.network != "" ==> labels[NETWORK_LABEL] == a.network;
    assert b.network != "" ==> labels[NETWORK_LABEL] == b.network;
    assert service.ports == ServicePorts(a, a.service.value) == ServicePorts(b, b.service.value);
  }

  /** Where they agree, the second gateway's service still suits the first. */
  lemma AgreeingServicesSuit(a: Spec, b: Spec, labels: Labels, service: ServiceSpec)
    requires a.service.Some? && b.service.Some? && ServicesAgree(a, b)
    requires Suits(a, labels, service)
    ensures Suits(a, ServiceLabels(b, labels), ServiceOf(b, service))
  {
    var after := ServiceOf(b, service);
    assert service.ports == ServicePorts(a, a.service.value);
    assert after.ports == ServicePorts(b, b.service.value);
    assert ServiceOf(a, after).ports == ServicePorts(a, a.service.value);
  }

  /** Some service suits both exactly when they agree. */
  lemma ServicesAgreeExactly(a: Spec, b: Spec)
    requires a.service.Some? && b.service.Some?
    ensures ServicesAgree(a, b) <==> exists labels, service :: Suits(a, labels, service) && Suits(b, labels, service)
  {
    if ServicesAgree(a, b) {
      var blank := ServiceSpec(map[], "", [], "", [], "");
      var service, labels := ServiceOf(a, blank), ServiceLabels(a, map[]);
      assert Suits(a, labels, service);
      AgreeingServicesSuit(a, b, labels, service);
      assert Suits(b, ServiceLabels(b, labels), ServiceOf(b, service));
    } else if labels, service :| Suits(a, labels, service) && Suits(b, labels, service) {
      SuitedServicesAgree(a, b, labels, service);
    }
  }

  // ----- what one reconcile leaves of the other's objects -----

  lemma {:induction false} RunSparesOthers(c: Cluster, b: Id, p: Proc, luck: seq<Luck>, a: Id)
    requires a != b
    ensures var c' := Run(c, b, p, luck).0;
            && At(c', GatewayKey(a)) == At(c, GatewayKey(a)) && At(c', DeploymentKey(a)) == At(c, DeploymentKey(a))
            && At(c', HpaKey(a)) == At(c, HpaKey(a)) && At(c', ScaledKey(a)) == At(c, ScaledKey(a))
    decreases |luck|
  {
    if luck != [] {
      OwnKeysOnly(b, p, luck[0], a);
      EffectIsLocal(c, Request(b, p, luck[0]));
      var (c1, p1) := Step(c, b, p, luck[0]);
      RunSparesOthers(c1, b, p1, luck[1..], a);
    }
  }

  predicate Shared(kind: Kind) {
    kind in {AccountKind, ClusterRoleKind, ClusterBindingKind, RoleKind, RoleBindingKind, ConfigKind, ServiceKind}
  }

  /** A mutation that suits one gateway and is followed by the other's still suits the first. */
  lemma MutationsAgree(kind: Kind, a: Id, b: Id, gwA: Gateway, gwB: Gateway, order: seq<EnvVar>, order': seq<EnvVar>,
                       body: Body)
    requires Shared(kind) && Fits(kind, body) && a.ns == b.ns
    requires gwA.spec.service.Some? && gwB.spec.service.Some? && Agree(a.ns, gwA.spec, gwB.spec)
    requires Mutate(kind, a, gwA, order, body) == body
    ensures var after := Mutate(kind, b, gwB, order', body); Mutate(kind, a, gwA, order, after) == after
  {
    if kind == ServiceKind {
      AgreeingServicesSuit(gwA.spec, gwB.spec, body.meta.labels, body.service);
    }
  }

  lemma SharedStaysSettled(c: Cluster, c': Cluster, a: Id, b: Id, gwA: Gateway, gwB: Gateway, kind: Kind)
    requires Typed(c) && Shared(kind) && a.ns == b.ns && c'.keda == c.keda
    requires gwA.spec.service.Some? && gwB.spec.service.Some? && Agree(a.ns, gwA.spec, gwB.spec)
    requires Settled(c, a, gwA, kind)
    requires var key := KeyOf(kind, a, gwA.spec);
             At(c', key) == At(c, key) || At(c', key) == Wanted(kind, b, gwB, c.keda, At(c, key))
    ensures Settled(c', a, gwA, kind)
  {
    var key := KeyOf(kind, a, gwA.spec);
    if DutyOf(kind, gwA.spec, c.keda) == Maintain {
      assert key.kind == kind && Fits(kind, c.store[key].body);
      var order :| Mutate(kind, a, gwA, order, c.store[key].body) == c.store[key].body;
      MutationsAgree(kind, a, b, gwA, gwB, order, [], c.store[key].body);
      assert Mutate(kind, a, gwA, order, c'.store[key].body) == c'.store[key].body;
    }
  }

  /** A second gateway, valid and live, beside one at rest, both of one namespace. */
  ghost predicate Beside(c: Cluster, a: Id, b: Id) {
    && a != b && a.ns == b.ns
    && Sound(c) && Rest(c, a) && !Inactive(c, a) && !Inactive(c, b) && !GatewayAt(c, b).deleting
    && Validate(GatewayAt(c, a).spec).None? && Validate(GatewayAt(c, b).spec).None?
    && !Panics(c, b)
  }

  lemma SharedOutcome(c: Cluster, a: Id, b: Id, luck: seq<Luck>, kind: Kind)
    requires Beside(c, a, b) && Complete(luck) && Shared(kind)
    ensures var key := KeyOf(kind, a, Defaulted(GatewayAt(c, a)).spec);
            var now := At(Reconciled(c, b, luck), key);
            now == At(c, key) || now == Wanted(kind, b, Defaulted(WithFinalizer(GatewayAt(c, b))), c.keda, At(c, key))
  {
    var key := KeyOf(kind, a, Defaulted(GatewayAt(c, a)).spec);
    ReconcileReachesTheGoal(c, b, luck);
    RunKeepsGoal(c, b, Reading, luck);
    var c' := Reconciled(c, b, luck);
    LiveGoal(c, b, key);
    assert Same(At(c', key), GoalAt(c, b, key));
    assert key.kind == kind;
    assert key in c'.store ==> Fits(kind, c'.store[key].body);
    SharedSameIsEqual(At(c', key), GoalAt(c, b, key), kind);
  }

  lemma SharedSameIsEqual(x: Option<Body>, y: Option<Body>, kind: Kind)
    requires Shared(kind) && Same(x, y) && (x.Some? ==> Fits(kind, x.value))
    ensures x == y
  {
  }

  lemma StillActive(c: Cluster, a: Id, b: Id, luck: seq<Luck>)
    requires Beside(c, a, b)
    ensures var c' := Reconciled(c, b, luck);
            && HasGateway(c', a) && GatewayAt(c', a) == GatewayAt(c, a) && !Inactive(c', a) && c'.keda == c.keda
  {
    RunSparesOthers(c, b, Reading, luck, a);
    RunKeepsSurroundings(c, b, Reading, luck);
  }

  lemma AgreementKeepsRest(c: Cluster, a: Id, b: Id, luck: seq<Luck>)
    requires Beside(c, a, b) && Complete(luck)
    requires Agree(a.ns, SetDefaults(GatewayAt(c, a).spec), SetDefaults(GatewayAt(c, b).spec))
    ensures Rest(Reconciled(c, b, luck), a)
  {
    var c' := Reconciled(c, b, luck);
    var gwA, gwB := Defaulted(GatewayAt(c, a)), Defaulted(WithFinalizer(GatewayAt(c, b)));
    StillActive(c, a, b, luck);
    RunSparesOthers(c, b, Reading, luck, a);
    DefaultsAreStable(b, GatewayAt(c, b).spec);
    forall kind | kind != GatewayKind
      ensures Settled(c', a, gwA, kind)
    {
      assert Settled(c, a, gwA, kind);
      if Shared(kind) {
        SharedOutcome(c, a, b, luck, kind);
        SharedStaysSettled(c, c', a, b, gwA, gwB, kind);
      } else {
        OwnStaysSettled(c, c', a, gwA, kind);
      }
    }
  }

  lemma OwnStaysSettled(c: Cluster, c': Cluster, a: Id, gw: Gateway, kind: Kind)
    requires kind != GatewayKind && !Shared(kind) && c'.keda == c.keda && Settled(c, a, gw, kind)
    requires At(c', DeploymentKey(a)) == At(c, DeploymentKey(a))
    requires At(c', HpaKey(a)) == At(c, HpaKey(a)) && At(c', ScaledKey(a)) == At(c, ScaledKey(a))
    ensures Settled(c', a, gw, kind)
  {
    SettledIgnoresStatus(c, c', a, gw, gw, kind);
  }

  lemma RestingTogetherAgrees(c: Cluster, a: Id, b: Id)
    requires Typed(c) && a.ns == b.ns
    requires Rest(c, a) && !Inactive(c, a) && Validate(GatewayAt(c, a).spec).None?
    requires Rest(c, b) && !Inactive(c, b) && Validate(GatewayAt(c, b).spec).None?
    ensures Agree(a.ns, SetDefaults(GatewayAt(c, a).spec), SetDefaults(GatewayAt(c, b).spec))
  {
    var gwA, gwB := Defaulted(GatewayAt(c, a)), Defaulted(GatewayAt(c, b));
    DefaultsAreStable(a, GatewayAt(c, a).spec);
    DefaultsAreStable(b, GatewayAt(c, b).spec);
    SettledSharesAgree(c, a, b, gwA, gwB);
  }

  lemma SettledSharesAgree(c: Cluster, a: Id, b: Id, gwA: Gateway, gwB: Gateway)
    requires Typed(c) && a.ns == b.ns && gwA.spec.service.Some? && gwB.spec.service.Some?
    requires Validate(gwA.spec).None? && Validate(gwB.spec).None?
    requires Settled(c, a, gwA, ConfigKind) && Settled(c, a, gwA, ServiceKind)
    requires Settled(c, b, gwB, ConfigKind) && Settled(c, b, gwB, ServiceKind)
    ensures Agree(a.ns, gwA.spec, gwB.spec)
  {
    var config := c.store[Key(ConfigKind, a.ns, CONFIG_NAME)].body;
    var service := c.store[Key(ServiceKind, a.ns, SERVICE_NAME)].body;
    assert Fits(ConfigKind, config) && Fits(ServiceKind, service);
    assert config.data == StoredData(a.ns, gwA.spec.meshSpec) == StoredData(b.ns, gwB.spec.meshSpec);
    SuitedServicesAgree(gwA.spec, gwB.spec, service.meta.labels, service.service);
  }

  /** Beside a gateway at rest, reconciling a second one of its namespace leaves both at rest exactly
      when they agree on config map and service; otherwise it disturbs the first. */
  lemma NeighboursRestExactly(c: Cluster, a: Id, b: Id, luck: seq<Luck>)
    requires Beside(c, a, b) && Complete(luck)
    ensures Rest(Reconciled(c, b, luck), b)
    ensures Rest(Reconciled(c, b, luck), a)
            <==> Agree(a.ns, SetDefaults(GatewayAt(c, a).spec), SetDefaults(GatewayAt(c, b).spec))
  {
    var c' := Reconciled(c, b, luck);
    ReconcileReachesTheGoal(c, b, luck);
    if Agree(a.ns, SetDefaults(GatewayAt(c, a).spec), SetDefaults(GatewayAt(c, b).spec)) {
      AgreementKeepsRest(c, a, b, luck);
    } else if Rest(c', a) {
      StillActive(c, a, b, luck);
      ReconciledIsActive(c, b, luck);
      RunKeepsGoal(c, b, Reading, luck);
      DefaultsAreStable(b, GatewayAt(c, b).spec);
      RestingTogetherAgrees(c', a, b);
    }
  }

  /** Neighbours that disagree are never both at rest, in any cluster. */
  lemma DisagreeingNeighboursNeverRest(c: Cluster, a: Id, b: Id)
    requires Sound(c) && a.ns == b.ns && !Inactive(c, a) && !Inactive(c, b)
    requires Validate(GatewayAt(c, a).spec).None? && Validate(GatewayAt(c, b).spec).None?
    requires !Agree(a.ns, SetDefaults(GatewayAt(c, a).spec), SetDefaults(GatewayAt(c, b).spec))
    ensures !(Rest(c, a) && Rest(c, b))
  {
    if Rest(c, a) && Rest(c, b) {
      RestingTogetherAgrees(c, a, b);
    }
  }
}
