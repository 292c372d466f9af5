/** What a reconcile without failures leaves in the cluster, object by object and field by field, read
    off the gateway's spec alone. */
module Delivery {
  import opened Values
  import opened GatewaySpec
  import opened Conditions
  import opened Autoscalers
  import opened Subjects
  import opened Objects
  import opened ApiServer
  import opened Protocol
  import opened Interleavings
  import opened Convergence
  import opened Reconciliation

  /** A live gateway is reconciled without a failure, and without writing into a nil map. */
  ghost predicate Goes(c: Cluster, id: Id, luck: seq<Luck>) {
    && Sound(c) && !Panics(c, id) && Complete(luck)
    && HasGateway(c, id) && !GatewayAt(c, id).deleting && Live(c, id)
  }

  /** The gateway with its defaults, as the callbacks see it. */
  function Owner(c: Cluster, id: Id): Gateway
    requires HasGateway(c, id)
  {
    Defaulted(WithFinalizer(GatewayAt(c, id)))
  }

  lemma OwnerByField(c: Cluster, id: Id)
    requires HasGateway(c, id)
    ensures var g, gw := GatewayAt(c, id), Owner(c, id);
            && gw.labels == g.labels && gw.annotations == g.annotations && gw.spec == SetDefaults(g.spec)
            && gw.spec.autoscaling == g.spec.autoscaling && gw.spec.local == g.spec.local
            && gw.spec.cpuRequest == g.spec.cpuRequest
  {
    DefaultsAreStable(id, GatewayAt(c, id).spec);
  }

  lemma GoesToRest(c: Cluster, id: Id, luck: seq<Luck>)
    requires Goes(c, id, luck)
    ensures var c' := Reconciled(c, id, luck);
            && Sound(c') && Rest(c', id) && Adopted(c', id) && !Inactive(c', id) && c'.keda == c.keda
            && Defaulted(GatewayAt(c', id)).spec == Owner(c, id).spec
  {
    ReconcileReachesTheGoal(c, id, luck);
    RunKeepsGoal(c, id, Reading, luck);
    ReconciledIsActive(c, id, luck);
    OwnerByField(c, id);
    DefaultsAreStable(id, GatewayAt(c, id).spec);
  }

  lemma GoesToGoal(c: Cluster, id: Id, luck: seq<Luck>, kind: Kind)
    requires Goes(c, id, luck) && kind != GatewayKind
    ensures var key := KeyOf(kind, id, Owner(c, id).spec);
            Same(At(Reconciled(c, id, luck), key), Wanted(kind, id, Owner(c, id), c.keda, At(c, key)))
  {
    var key := KeyOf(kind, id, Owner(c, id).spec);
    ReconcileReachesTheGoal(c, id, luck);
    LiveGoal(c, id, key);
    OwnerByField(c, id);
    DefaultsAreStable(id, GatewayAt(c, id).spec);
    assert key.kind == kind;
    assert GoalAt(c, id, key) == OwnedGoal(c, id, WithFinalizer(GatewayAt(c, id)), key);
  }

  // ----- objects with a callback -----

  /** The object is there; if it was before, it is what the callback makes of that, else it is new. */
  ghost predicate Delivers(c: Cluster, c': Cluster, kind: Kind, id: Id, gw: Gateway) {
    forall key | Place(kind, id, gw.spec, key) ::
      && key in c'.store
      && (key in c.store ==> MutationMatches(kind, id, gw, c.store[key].body, c'.store[key].body))
      && (key !in c.store ==> CreationMatches(kind, id, gw, c'.store[key].body))
  }

  lemma MutatedDelivers(c: Cluster, c': Cluster, kind: Kind, id: Id, gw: Gateway)
    requires kind != GatewayKind && kind != AccountKind && kind != DeploymentKind
    requires Typed(c) && Typed(c') && DutyOf(kind, gw.spec, c.keda) == Maintain
    requires var key := KeyOf(kind, id, gw.spec); Same(At(c', key), Wanted(kind, id, gw, c.keda, At(c, key)))
    ensures Delivers(c, c', kind, id, gw)
  {
    var key := KeyOf(kind, id, gw.spec);
    assert key.kind == kind && Fits(kind, c'.store[key].body);
    if key in c.store {
      MutationsByField(kind, id, gw, [], c.store[key].body);
    } else {
      CreationsByField(kind, id, gw, []);
    }
    forall k | Place(kind, id, gw.spec, k)
      ensures k == key
    {
      PlacesByField(kind, id, gw.spec, k);
    }
  }

  /** Only the environment's order tells two deployments apart that are alike. */
  lemma AlikeDelivers(id: Id, gw: Gateway, before: Body, wanted: Body, after: Body)
    requires before.DeploymentBody? && wanted.DeploymentBody? && after.DeploymentBody?
    requires MutationMatches(DeploymentKind, id, gw, before, wanted) && Alike(after, wanted)
    requires TemplateMatches(gw.spec, after.template)
    ensures MutationMatches(DeploymentKind, id, gw, before, after)
  {
  }

  lemma SettledTemplate(c: Cluster, id: Id, gw: Gateway)
    requires Typed(c) && Settled(c, id, gw, DeploymentKind) && DutyOf(DeploymentKind, gw.spec, c.keda) == Maintain
    ensures var body := c.store[DeploymentKey(id)].body; body.DeploymentBody? && TemplateMatches(gw.spec, body.template)
  {
    var body := c.store[DeploymentKey(id)].body;
    assert Fits(DeploymentKind, body);
    var order :| Mutate(DeploymentKind, id, gw, order, body) == body;
    TemplateByField(gw.spec, order);
  }

  lemma DeploymentBodyDelivers(c: Cluster, id: Id, gw: Gateway, after: Body)
    requires Typed(c) && after.DeploymentBody? && TemplateMatches(gw.spec, after.template)
    requires var now := At(c, DeploymentKey(id));
             var from := if now.Some? then now.value else Initial(DeploymentKind, id, gw);
             Alike(after, Mutate(DeploymentKind, id, gw, [], from))
    ensures DeploymentKey(id) in c.store ==>
              MutationMatches(DeploymentKind, id, gw, c.store[DeploymentKey(id)].body, after)
    ensures DeploymentKey(id) !in c.store ==> CreationMatches(DeploymentKind, id, gw, after)
  {
    if DeploymentKey(id) in c.store {
      var before := c.store[DeploymentKey(id)].body;
      assert Fits(DeploymentKind, before);
      MutationsByField(DeploymentKind, id, gw, [], before);
      AlikeDelivers(id, gw, before, Mutate(DeploymentKind, id, gw, [], before), after);
    } else {
      var wanted := Mutate(DeploymentKind, id, gw, [], Initial(DeploymentKind, id, gw));
      CreationsByField(DeploymentKind, id, gw, []);
      AlikeDelivers(id, gw, Blank(gw, wanted), wanted, after);
    }
  }

  lemma DeploymentDelivers(c: Cluster, c': Cluster, id: Id, gw: Gateway)
    requires Typed(c) && Typed(c') && DutyOf(DeploymentKind, gw.spec, c.keda) == Maintain && c'.keda == c.keda
    requires var key := DeploymentKey(id);
             Same(At(c', key), Wanted(DeploymentKind, id, gw, c.keda, At(c, key)))
    requires Settled(c', id, gw, DeploymentKind)
    ensures Delivers(c, c', DeploymentKind, id, gw)
  {
    SettledTemplate(c', id, gw);
    DeploymentBodyDelivers(c, id, gw, c'.store[DeploymentKey(id)].body);
    forall k | Place(DeploymentKind, id, gw.spec, k)
      ensures k == DeploymentKey(id)
    {
      PlacesByField(DeploymentKind, id, gw.spec, k);
    }
  }

  lemma RestingDeployment(c: Cluster, id: Id, luck: seq<Luck>)
    requires Goes(c, id, luck) && Acceptable(GatewayAt(c, id).spec)
    ensures Delivers(c, Reconciled(c, id, luck), DeploymentKind, id, Owner(c, id))
  {
    var c', gw := Reconciled(c, id, luck), Owner(c, id);
    GoesToRest(c, id, luck);
    GoesToGoal(c, id, luck, DeploymentKind);
    AcceptableOwner(c, id);
    assert Settled(c', id, Defaulted(GatewayAt(c', id)), DeploymentKind);
    SettledBySpec(c', id, Defaulted(GatewayAt(c', id)), gw);
    DeploymentDelivers(c, c', id, gw);
  }

  lemma SettledBySpec(c: Cluster, id: Id, gw: Gateway, gw': Gateway)
    requires gw'.spec == gw.spec && Typed(c) && Settled(c, id, gw, DeploymentKind)
    ensures Settled(c, id, gw', DeploymentKind)
  {
    if DutyOf(DeploymentKind, gw.spec, c.keda) == Maintain {
      var body := c.store[DeploymentKey(id)].body;
      assert Fits(DeploymentKind, body);
      var order :| Mutate(DeploymentKind, id, gw, order, body) == body;
      assert Mutate(DeploymentKind, id, gw', order, body) == body;
    }
  }

  lemma AcceptableOwner(c: Cluster, id: Id)
    requires HasGateway(c, id)
    ensures Validate(Owner(c, id).spec).None? <==> Acceptable(GatewayAt(c, id).spec)
    ensures RbacWanted(Owner(c, id).spec) == RbacWanted(GatewayAt(c, id).spec)
    ensures EffectiveMode(Owner(c, id).spec) == EffectiveMode(GatewayAt(c, id).spec)
  {
    DefaultsAreStable(id, GatewayAt(c, id).spec);
    OwnerByField(c, id);
    RejectionsByField(GatewayAt(c, id).spec);
  }

  predicate Switched(spec: Spec) {
    spec.rbac != Some(false) && (spec.account.Some? ==> spec.account.value.enable)
  }

  /** After a reconcile without failures an acceptable gateway has its service account, config map,
      deployment and service, and unless a switch is off its role, cluster role and their bindings,
      each with the fields its spec asks for. */
  lemma ResourcesAreDelivered(c: Cluster, id: Id, luck: seq<Luck>)
    requires Goes(c, id, luck) && Acceptable(GatewayAt(c, id).spec)
    ensures var c', gw := Reconciled(c, id, luck), Owner(c, id);
            && Delivers(c, c', ConfigKind, id, gw)
            && Delivers(c, c', DeploymentKind, id, gw)
            && Delivers(c, c', ServiceKind, id, gw)
            && (Switched(GatewayAt(c, id).spec) ==>
                  && Delivers(c, c', ClusterRoleKind, id, gw) && Delivers(c, c', ClusterBindingKind, id, gw)
                  && Delivers(c, c', RoleKind, id, gw) && Delivers(c, c', RoleBindingKind, id, gw))
  {
    var c', gw := Reconciled(c, id, luck), Owner(c, id);
    RestingDeployment(c, id, luck);
    KindDelivers(c, id, luck, ConfigKind);
    KindDelivers(c, id, luck, ServiceKind);
    if Switched(GatewayAt(c, id).spec) {
      KindDelivers(c, id, luck, ClusterRoleKind);
      KindDelivers(c, id, luck, ClusterBindingKind);
      KindDelivers(c, id, luck, RoleKind);
      KindDelivers(c, id, luck, RoleBindingKind);
    }
  }

  lemma KindDelivers(c: Cluster, id: Id, luck: seq<Luck>, kind: Kind)
    requires Goes(c, id, luck) && Acceptable(GatewayAt(c, id).spec)
    requires kind in {ConfigKind, ServiceKind, ClusterRoleKind, ClusterBindingKind, RoleKind, RoleBindingKind}
    requires kind != ConfigKind && kind != ServiceKind ==> Switched(GatewayAt(c, id).spec)
    ensures Delivers(c, Reconciled(c, id, luck), kind, id, Owner(c, id))
  {
    GoesToRest(c, id, luck);
    GoesToGoal(c, id, luck, kind);
    AcceptableOwner(c, id);
    AccessByField(id, GatewayAt(c, id).spec);
    MutatedDelivers(c, Reconciled(c, id, luck), kind, id, Owner(c, id));
  }

  // ----- the gateway itself -----

  /** The gateway carries the finalizer and is otherwise as it was, but for its status and for the
      defaults, which are stored together with a finalizer that was missing. */
  lemma GatewayIsAdopted(c: Cluster, id: Id, luck: seq<Luck>)
    requires Goes(c, id, luck)
    ensures var c', before := Reconciled(c, id, luck), GatewayAt(c, id);
            && HasGateway(c', id)
            && var after := GatewayAt(c', id);
               && after.finalizers == before.finalizers + {"higressgateway.higress.io/finalizer"}
               && after.labels == before.labels && after.annotations == before.annotations && !after.deleting
               && (if "higressgateway.higress.io/finalizer" in before.finalizers then after.spec == before.spec
                   else after.spec == SetDefaults(before.spec))
               && after.generation == before.generation + if after.spec == before.spec then 0 else 1
  {
    GoesToRest(c, id, luck);
    ReconcileReachesTheGoal(c, id, luck);
    LiveGoal(c, id, GatewayKey(id));
    assert Same(At(Reconciled(c, id, luck), GatewayKey(id)), GoalAt(c, id, GatewayKey(id)));
  }

  // ----- a deletion -----

  /** A gateway marked for deletion carries the finalizer, and all calls go through. */
  ghost predicate Departs(c: Cluster, id: Id, luck: seq<Luck>) {
    && Sound(c) && Complete(luck) && HasGateway(c, id) && GatewayAt(c, id).deleting
    && "higressgateway.higress.io/finalizer" in GatewayAt(c, id).finalizers
  }

  /** Of the binding's subjects exactly the gateway's account in its namespace goes, and the role stays;
      a gateway that others hold keeps their finalizers and has its defaults stored. */
  lemma DepartureIsDelivered(c: Cluster, id: Id, luck: seq<Luck>, key: Key)
    requires Departs(c, id, luck) && Place(ClusterBindingKind, id, GatewayAt(c, id).spec, key) && key in c.store
    ensures var c', before := Reconciled(c, id, luck), GatewayAt(c, id);
            && key in c'.store && c.store[key].body.BindingBody? && c'.store[key].body.BindingBody?
            && c'.store[key].body.role == c.store[key].body.role
            && (forall s :: s in c'.store[key].body.subjects <==>
                  s in c.store[key].body.subjects && !(s.ns == id.ns && IsAccount(id, before.spec, s.name)))
            && (HasGateway(c', id) <==> before.finalizers != {"higressgateway.higress.io/finalizer"})
            && (HasGateway(c', id) ==>
                  var after := GatewayAt(c', id);
                  && after.finalizers == before.finalizers - {"higressgateway.higress.io/finalizer"}
                  && after.labels == before.labels && after.annotations == before.annotations && after.deleting
                  && after.spec == SetDefaults(before.spec)
                  && after.generation == before.generation + if after.spec == before.spec then 0 else 1)
  {
    var c', gw := Reconciled(c, id, luck), GatewayAt(c, id);
    ReconcileReachesTheGoal(c, id, luck);
    PlacesByField(ClusterBindingKind, id, gw.spec, key);
    AccessByField(id, gw.spec);
    assert Fits(ClusterBindingKind, c.store[key].body);
    assert Same(At(c', GatewayKey(id)), GoalAt(c, id, GatewayKey(id)));
    assert Same(At(c', key), GoalAt(c, id, key));
    DefaultsAreStable(id, gw.spec);
    forall s
      ensures s in Without(c.store[key].body.subjects, AccountName(id, gw.spec), id.ns) <==>
                s in c.store[key].body.subjects && (s.name != AccountName(id, gw.spec) || s.ns != id.ns)
    {
      WithoutMember(c.store[key].body.subjects, AccountName(id, gw.spec), id.ns, s);
    }
  }

  /** Everything else stays. */
  lemma DepartureSparesTheRest(c: Cluster, id: Id, luck: seq<Luck>, key: Key)
    requires Departs(c, id, luck)
    requires key != GatewayKey(id) && !Place(ClusterBindingKind, id, GatewayAt(c, id).spec, key)
    ensures Same(At(Reconciled(c, id, luck), key), At(c, key))
  {
    PlacesByField(ClusterBindingKind, id, GatewayAt(c, id).spec, key);
    ReconcileReachesTheGoal(c, id, luck);
    SameIsReflexive(At(c, key));
  }

  // ----- the service account -----

  /** It is created with the annotations its config gives it, and never changed. */
  lemma AccountIsDelivered(c: Cluster, id: Id, luck: seq<Luck>)
    requires Goes(c, id, luck) && Acceptable(GatewayAt(c, id).spec)
    ensures var c', gw := Reconciled(c, id, luck), Owner(c, id);
            forall key | Place(AccountKind, id, gw.spec, key) ::
              && key in c'.store
              && (key in c.store ==> c'.store[key].body == c.store[key].body)
              && (key !in c.store ==> c'.store[key].body.AccountBody?
                                      && NewMeta(AccountKind, id, gw, c'.store[key].body.meta))
  {
    var gw := Owner(c, id);
    GoesToGoal(c, id, luck, AccountKind);
    AcceptableOwner(c, id);
    NewMetaByField(AccountKind, id, gw, []);
    var key := KeyOf(AccountKind, id, gw.spec);
    assert key in c.store ==> Fits(AccountKind, c.store[key].body);
    forall k | Place(AccountKind, id, gw.spec, k)
      ensures k == key
    {
      PlacesByField(AccountKind, id, gw.spec, k);
    }
  }

  // ----- autoscalers and status -----

  lemma AutoscalerDuties(spec: Spec, keda: bool)
    ensures DutyOf(HpaKind, spec, keda) == if Acceptable(spec) && AsksForHpa(spec) then Maintain else Forbid
    ensures DutyOf(ScaledKind, spec, keda) == if Acceptable(spec) && AsksForKeda(spec) && keda then Maintain else Forbid
  {
    RejectionsByField(spec);
    ModesByField(spec);
  }

  lemma AutoscalerIsDelivered(c: Cluster, id: Id, luck: seq<Luck>, kind: Kind)
    requires Goes(c, id, luck) && (kind == HpaKind || kind == ScaledKind)
    ensures var c', gw := Reconciled(c, id, luck), Owner(c, id);
            && (Key(kind, id.ns, id.name) in c'.store <==> DutyOf(kind, gw.spec, c.keda) == Maintain)
            && (DutyOf(kind, gw.spec, c.keda) == Maintain ==> Delivers(c, c', kind, id, gw))
  {
    GoesToRest(c, id, luck);
    GoesToGoal(c, id, luck, kind);
    if DutyOf(kind, Owner(c, id).spec, c.keda) == Maintain {
      MutatedDelivers(c, Reconciled(c, id, luck), kind, id, Owner(c, id));
    }
  }

  /** After a reconcile without failures there is an HPA exactly if the spec is acceptable and asks for one,
      by name or by default; a ScaledObject exactly if it asks for KEDA and the CRD is there; and each has
      the bounds, targets and settings asked for. */
  lemma AutoscalersAreDelivered(c: Cluster, id: Id, luck: seq<Luck>)
    requires Goes(c, id, luck)
    ensures var c', gw, spec := Reconciled(c, id, luck), Owner(c, id), GatewayAt(c, id).spec;
            && (Key(HpaKind, id.ns, id.name) in c'.store <==> Acceptable(spec) && AsksForHpa(spec))
            && (Key(ScaledKind, id.ns, id.name) in c'.store <==> Acceptable(spec) && AsksForKeda(spec) && c.keda)
            && (Acceptable(spec) && AsksForHpa(spec) ==> Delivers(c, c', HpaKind, id, gw))
            && (Acceptable(spec) && AsksForKeda(spec) && c.keda ==> Delivers(c, c', ScaledKind, id, gw))
  {
    OwnerByField(c, id);
    AutoscalerDuties(Owner(c, id).spec, c.keda);
    AutoscalerIsDelivered(c, id, luck, HpaKind);
    AutoscalerIsDelivered(c, id, luck, ScaledKind);
  }

  /** A rejected spec costs the gateway its autoscalers and nothing else. */
  lemma RejectionSparesTheRest(c: Cluster, id: Id, luck: seq<Luck>, key: Key)
    requires Goes(c, id, luck) && !Acceptable(GatewayAt(c, id).spec)
    requires key != GatewayKey(id) && !Place(HpaKind, id, GatewayAt(c, id).spec, key)
             && !Place(ScaledKind, id, GatewayAt(c, id).spec, key)
    ensures Same(At(Reconciled(c, id, luck), key), At(c, key))
  {
    var owner := WithFinalizer(GatewayAt(c, id));
    ReconcileReachesTheGoal(c, id, luck);
    LiveGoal(c, id, key);
    AcceptableOwner(c, id);
    SameIsReflexive(At(c, key));
    assert key == KeyOf(key.kind, id, owner.spec) ==> key.kind != HpaKind && key.kind != ScaledKind;
  }

  /** The mode a status reports. */
  predicate ReportsMode(spec: Spec, mode: Mode) {
    && (AsksForNothing(spec) ==> mode == Disabled)
    && (AsksForHpa(spec) ==> mode == NativeHPA)
    && (AsksForKeda(spec) ==> mode == KEDA)
    && (!AsksForNothing(spec) && !AsksForHpa(spec) && !AsksForKeda(spec) ==> mode == spec.autoscaling.value.mode)
  }

  /** What the status says after a reconcile without failures, by what the spec asks for. */
  ghost predicate ReportsOutcome(spec: Spec, keda: bool, st: Status) {
    && ReportsMode(spec, st.mode)
    && (st.deployed <==> Acceptable(spec))
    && (Truthy(st, ConfigurationValid, True) <==> Acceptable(spec))
    && (Truthy(st, ConfigurationValid, False) <==> !Acceptable(spec))
    && (Truthy(st, Ready, True) <==> Acceptable(spec))
    && (Truthy(st, Ready, False) <==> !Acceptable(spec))
    && (Truthy(st, AutoscalingReady, True) <==> Acceptable(spec) && !(AsksForKeda(spec) && !keda))
    && (Truthy(st, AutoscalingReady, False) <==> !Acceptable(spec) || (AsksForKeda(spec) && !keda))
    && (Truthy(st, DependencyReady, True) <==> Acceptable(spec) && !(AsksForKeda(spec) && !keda))
    && (Truthy(st, DependencyReady, False) <==> Acceptable(spec) && AsksForKeda(spec) && !keda)
    && (Truthy(st, DependencyReady, Unknown) <==> !Acceptable(spec))
    && (forall why | Validate(spec) == Some(why) ::
          && Says(st, ConfigurationValid, False, Rejected(why), Complaint(why))
          && Says(st, Ready, False, ConfigurationInvalid, Complaint(why))
          && Says(st, AutoscalingReady, False, ConfigurationInvalid, Complaint(why))
          && Says(st, DependencyReady, Unknown, ConfigurationInvalid, Complaint(why)))
    && (Acceptable(spec) && AsksForNothing(spec) ==>
          && Says(st, AutoscalingReady, True, AutoscalingDisabled, AutoscalingIsDisabled)
          && Says(st, DependencyReady, True, NoExternalDependency, NothingRequired))
    && (Acceptable(spec) && AsksForHpa(spec) ==>
          && Says(st, AutoscalingReady, True, AutoscalerReady, HpaReconciled)
          && Says(st, DependencyReady, True, NoExternalDependency, NothingRequired))
    && (Acceptable(spec) && AsksForKeda(spec) && keda ==>
          && Says(st, AutoscalingReady, True, AutoscalerReady, ScaledObjectReconciled)
          && Says(st, DependencyReady, True, DependencyAvailable, KedaIsAvailable))
    && (Acceptable(spec) && AsksForKeda(spec) && !keda ==>
          && Says(st, AutoscalingReady, False, DependencyMissing, ScaledObjectBlocked)
          && Says(st, DependencyReady, False, DependencyMissing, KedaIsMissing))
  }

  lemma VerdictByField(spec: Spec, keda: bool)
    ensures VerdictOf(spec, keda).RejectedSpec? <==> !Acceptable(spec)
    ensures VerdictOf(spec, keda) == HpaReady <==> Acceptable(spec) && AsksForHpa(spec)
    ensures VerdictOf(spec, keda) == KedaReady <==> Acceptable(spec) && AsksForKeda(spec) && keda
    ensures VerdictOf(spec, keda) == KedaMissing <==> Acceptable(spec) && AsksForKeda(spec) && !keda
    ensures VerdictOf(spec, keda) == ScalingDisabled <==> Acceptable(spec) && AsksForNothing(spec)
    ensures ReportsMode(spec, EffectiveMode(spec))
  {
    RejectionsByField(spec);
    ModesByField(spec);
  }

  lemma OutcomeByField(spec: Spec, keda: bool, st: Status)
    requires Shows(st, VerdictOf(spec, keda)) && st.mode == EffectiveMode(spec)
    ensures ReportsOutcome(spec, keda, st)
  {
    VerdictByField(spec, keda);
    TruthsByVerdict(st, VerdictOf(spec, keda));
    ProfilesByField(st, VerdictOf(spec, keda));
  }

  /** With autoscaling asked for, it is reported ready exactly if its autoscaler is there. */
  lemma StatusIsDelivered(c: Cluster, id: Id, luck: seq<Luck>)
    requires Goes(c, id, luck)
    ensures var c', spec := Reconciled(c, id, luck), GatewayAt(c, id).spec;
            && HasGateway(c', id)
            && var st := GatewayAt(c', id).status;
               && st.generation == GatewayAt(c', id).generation
               && ReportsOutcome(spec, c.keda, st)
               && (!AsksForNothing(spec) ==>
                     (Truthy(st, AutoscalingReady, True)
                      <==> Key(HpaKind, id.ns, id.name) in c'.store || Key(ScaledKind, id.ns, id.name) in c'.store))
  {
    var c' := Reconciled(c, id, luck);
    GoesToRest(c, id, luck);
    RestIsTruthful(c', id);
    AutoscalersAreDelivered(c, id, luck);
    DefaultsAreStable(id, GatewayAt(c, id).spec);
    DefaultsAreStable(id, GatewayAt(c', id).spec);
    OwnerByField(c, id);
    VerdictsAgree(GatewayAt(c', id).spec, GatewayAt(c, id).spec, c.keda);
    OutcomeByField(GatewayAt(c, id).spec, c.keda, GatewayAt(c', id).status);
    ModesByField(GatewayAt(c, id).spec);
  }

  lemma VerdictsAgree(spec: Spec, spec': Spec, keda: bool)
    requires SetDefaults(spec) == SetDefaults(spec')
    ensures VerdictOf(spec, keda) == VerdictOf(spec', keda) && EffectiveMode(spec) == EffectiveMode(spec')
  {
    var id := Id("", "");
    DefaultsAreStable(id, spec);
    DefaultsAreStable(id, spec');
  }
}
