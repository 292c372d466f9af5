/** What a reconcile achieves when nobody interferes: the goal each state is heading for, that no
    call ever moves it, and that a reconcile without failures reaches it and then stays quiet. */
module Convergence {
  import opened Values
  import opened GatewaySpec
  import opened Conditions
  import opened Subjects
  import opened Objects
  import opened ApiServer
  import opened Protocol
  import opened Interleavings

  // ----- the goal, stated without reference to the order of the program -----

  /** What a live gateway owes each kind of object. */
  datatype Duty = Leave | Ensure | Maintain | Forbid

  function DutyOf(kind: Kind, spec: Spec, keda: bool): Duty {
    match kind
    case GatewayKind => Leave
    case HpaKind => if Validate(spec).None? && EffectiveMode(spec) == NativeHPA then Maintain else Forbid
    case ScaledKind => if Validate(spec).None? && EffectiveMode(spec) == KEDA && keda then Maintain else Forbid
    case _ =>
      if Validate(spec).Some? then Leave
      else
        match kind
        case AccountKind => Ensure
        case ConfigKind => Maintain
        case DeploymentKind => Maintain
        case ServiceKind => Maintain
        case _ => if RbacWanted(spec) then Maintain else Leave
  }

  function Wanted(kind: Kind, id: Id, gw: Gateway, keda: bool, current: Option<Body>): Option<Body> {
    match DutyOf(kind, gw.spec, keda)
    case Leave => current
    case Forbid => None
    case Ensure => Some(if current.Some? then current.value else Initial(kind, id, gw))
    case Maintain => Some(Mutate(kind, id, gw, [], if current.Some? then current.value else Initial(kind, id, gw)))
  }

  /** The gateway once the finalizer is on it; adding it also stores the defaults. */
  function WithFinalizer(gw: Gateway): Gateway {
    if FINALIZER in gw.finalizers then gw
    else Rewritten(gw, gw.finalizers + {FINALIZER})
  }

  function Rewritten(gw: Gateway, finalizers: set<string>): Gateway {
    gw.(finalizers := finalizers, spec := SetDefaults(gw.spec),
        generation := if SetDefaults(gw.spec) != gw.spec then gw.generation + 1 else gw.generation)
  }

  function Defaulted(gw: Gateway): Gateway {
    gw.(spec := SetDefaults(gw.spec))
  }

  predicate Live(c: Cluster, id: Id) {
    id.ns in c.namespaces && !c.namespaces[id.ns]
  }

  function BindingOf(id: Id, gw: Gateway): Key {
    KeyOf(ClusterBindingKind, id, gw.spec)
  }

  /** Nothing for a reconcile to do: no gateway, one whose deletion is finished or blocked on a
      missing binding, or one whose namespace is gone or going. */
  predicate Inactive(c: Cluster, id: Id) {
    !HasGateway(c, id) ||
    var gw := GatewayAt(c, id);
    if gw.deleting then FINALIZER !in gw.finalizers || BindingOf(id, gw) !in c.store
    else !Live(c, id)
  }

  /** The goal of an object of a live gateway that carries the finalizer. */
  function OwnedGoal(c: Cluster, id: Id, owner: Gateway, key: Key): Option<Body> {
    if key == GatewayKey(id) then Some(GatewayBody(owner.(status := Marked(Defaulted(owner), c.keda, 0))))
    else if key == KeyOf(key.kind, id, owner.spec) then Wanted(key.kind, id, Defaulted(owner), c.keda, At(c, key))
    else At(c, key)
  }

  function GoalAt(c: Cluster, id: Id, key: Key): Option<Body> {
    if Inactive(c, id) then At(c, key)
    else
      var gw := GatewayAt(c, id);
      if gw.deleting then
        if key == GatewayKey(id) then
          var released := Released(gw);
          if Vanishes(released) then None else Some(released)
        else if key == BindingOf(id, gw) then
          Some(Unbound(id, Instance(gw, 0), c.store[key].body))
        else At(c, key)
      else
        OwnedGoal(c, id, WithFinalizer(gw), key)
  }

  predicate Same(a: Option<Body>, b: Option<Body>) {
    (a.None? && b.None?) || (a.Some? && b.Some? && Alike(a.value, b.value))
  }

  ghost predicate SameGoal(c: Cluster, c': Cluster, id: Id) {
    forall key :: Same(GoalAt(c', id, key), GoalAt(c, id, key))
  }

  /** The label write of the gateway's service would hit a nil map. */
  predicate WouldPanic(c: Cluster, id: Id, gw: Gateway) {
    var key := KeyOf(ServiceKind, id, gw.spec);
    || ServicePanics(gw.spec, gw.labels)
    || (key in c.store && c.store[key].body.ServiceBody? && ServicePanics(gw.spec, c.store[key].body.meta.labels))
  }

  predicate Panics(c: Cluster, id: Id) {
    && !Inactive(c, id)
    && !GatewayAt(c, id).deleting
    && Validate(GatewayAt(c, id).spec).None?
    && WouldPanic(c, id, GatewayAt(c, id))
  }

  // ----- a reconcile without interference -----

  predicate InSync(c: Cluster, id: Id, m: Instance) {
    HasGateway(c, id) && Load(c.store[GatewayKey(id)]) == m
  }

  function KindOf(cmd: Cmd): Kind {
    match cmd
    case CreateAccount => AccountKind
    case Apply(kind) => kind
    case Remove(kind) => kind
    case CheckKeda => ScaledKind
    case ReportStatus => GatewayKind
  }

  predicate Pends(todo: seq<Cmd>, kind: Kind) {
    exists i | 0 <= i < |todo| :: KindOf(todo[i]) == kind
  }

  /** The duty towards one kind is done, and doing it again changes nothing. */
  ghost predicate Settled(c: Cluster, id: Id, gw: Gateway, kind: Kind) {
    var key := KeyOf(kind, id, gw.spec);
    match DutyOf(kind, gw.spec, c.keda)
    case Leave => true
    case Forbid => key !in c.store
    case Ensure => key in c.store
    case Maintain =>
      key in c.store && exists order :: Mutate(kind, id, gw, order, c.store[key].body) == c.store[key].body
  }

  predicate Dutiful(spec: Spec, keda: bool, cmd: Cmd) {
    match cmd
    case CreateAccount => DutyOf(AccountKind, spec, keda) == Ensure
    case Apply(kind) => kind != GatewayKind && DutyOf(kind, spec, keda) == Maintain
    case Remove(kind) => Scales(cmd) && DutyOf(kind, spec, keda) == Forbid
    case CheckKeda => Validate(spec).None? && EffectiveMode(spec) == KEDA
    case ReportStatus => true
  }

  ghost predicate Tracking(c: Cluster, id: Id, p: Proc) {
    match p
    case Idle(_) => true
    case Reading => true
    case Finalizing(m) => InSync(c, id, m) && m.gw.deleting && FINALIZER in m.gw.finalizers
    case Unbinding(m, seen) =>
      && InSync(c, id, m) && m.gw.deleting && FINALIZER in m.gw.finalizers
      && BindingKey(id, m) in c.store && c.store[BindingKey(id, m)] == seen
    case Releasing(m) =>
      && InSync(c, id, m) && m.gw.deleting && FINALIZER in m.gw.finalizers
      && BindingKey(id, m) in c.store
      && Unbound(id, m, c.store[BindingKey(id, m)].body) == c.store[BindingKey(id, m)].body
    case Checking(m) => InSync(c, id, m) && !m.gw.deleting
    case Adopting(m) => InSync(c, id, m) && !m.gw.deleting && Live(c, id) && FINALIZER !in m.gw.finalizers
    case Rereading =>
      HasGateway(c, id) && !GatewayAt(c, id).deleting && FINALIZER in GatewayAt(c, id).finalizers && Live(c, id)
    case Running(m, todo, pending, installed) =>
      && InSync(c, id, m) && !m.gw.deleting && FINALIZER in m.gw.finalizers && Live(c, id)
      && Executing(c, id, m, todo, pending, installed)
  }

  ghost predicate Executing(c: Cluster, id: Id, m: Instance, todo: seq<Cmd>, pending: Pending, installed: bool) {
    && todo != [] && todo[|todo| - 1] == ReportStatus && ReportStatus !in todo[..|todo| - 1]
    && (forall i | 0 <= i < |todo| :: Dutiful(m.gw.spec, c.keda, todo[i]))
    && (forall kind | kind != GatewayKind && !Pends(todo, kind) :: Settled(c, id, m.gw, kind))
    && (Validate(m.gw.spec).None? && EffectiveMode(m.gw.spec) == KEDA && CheckKeda !in todo ==> installed == c.keda)
    && (CheckKeda in todo ==> !installed)
    && (forall i, j | 0 <= i < j < |todo| :: todo[i] == CheckKeda ==> todo[j] != CheckKeda)
    && var kind := KindOf(todo[0]);
       var key := KeyOf(kind, id, m.gw.spec);
       match pending
       case Nothing => true
       case Insert(body) =>
         && todo[0].Apply? && key !in c.store
         && exists order :: body == Mutate(kind, id, m.gw, order, Initial(kind, id, m.gw))
       case Replace(seen, body) =>
         && todo[0].Apply? && key in c.store && c.store[key] == seen
         && exists order :: body == Mutate(kind, id, m.gw, order, seen.body)
       case Erase => todo[0].Remove?
  }

  /** A state in which a failure-free reconcile has left its gateway. */
  ghost predicate Rest(c: Cluster, id: Id) {
    Inactive(c, id) ||
    var gw := GatewayAt(c, id);
    && !gw.deleting && FINALIZER in gw.finalizers
    && (forall kind | kind != GatewayKind :: Settled(c, id, Defaulted(gw), kind))
    && forall now :: Marked(Defaulted(gw), c.keda, now) == gw.status
  }

  // ----- the program does what the duties ask -----

  lemma PlanEndsWithReport(spec: Spec)
    ensures Plan(spec) != [] && Plan(spec)[|Plan(spec)| - 1] == ReportStatus
    ensures ReportStatus !in Plan(spec)[..|Plan(spec)| - 1]
  {
  }

  lemma PlanChecksOnce(spec: Spec)
    ensures forall i, j | 0 <= i < j < |Plan(spec)| :: Plan(spec)[i] == CheckKeda ==> Plan(spec)[j] != CheckKeda
  {
  }

  lemma PlanIsDutiful(spec: Spec, keda: bool)
    ensures forall i | 0 <= i < |Plan(spec)| :: Dutiful(spec, keda, Plan(spec)[i])
  {
  }

  lemma InPlan(spec: Spec, kind: Kind, cmd: Cmd, i: nat)
    requires i < |Plan(spec)| && Plan(spec)[i] == cmd && KindOf(cmd) == kind
    ensures Pends(Plan(spec), kind)
  {
  }

  /** Whatever is owed to a kind of object, some command of the plan is about it. */
  lemma PlanCoversDuties(spec: Spec, keda: bool, kind: Kind)
    requires kind != GatewayKind && DutyOf(kind, spec, keda) != Leave
    ensures Pends(Plan(spec), kind)
  {
    if Validate(spec).Some? {
      InPlan(spec, HpaKind, Remove(HpaKind), 0);
      InPlan(spec, ScaledKind, Remove(ScaledKind), 1);
    } else if kind == HpaKind || kind == ScaledKind {
      PlanScales(spec);
    } else {
      PlanServes(spec, kind);
    }
  }

  lemma PlanScales(spec: Spec)
    requires Validate(spec).None?
    ensures Pends(Plan(spec), HpaKind) && Pends(Plan(spec), ScaledKind)
    ensures EffectiveMode(spec) == KEDA ==> CheckKeda in Plan(spec)
  {
    var r, scale := |RbacPlan(spec)|, ScalePlan(EffectiveMode(spec));
    assert |scale| == 2 && Plan(spec)[r + 3] == scale[0] && Plan(spec)[r + 4] == scale[1];
    InPlan(spec, KindOf(scale[0]), scale[0], r + 3);
    InPlan(spec, KindOf(scale[1]), scale[1], r + 4);
  }

  lemma PlanServes(spec: Spec, kind: Kind)
    requires Validate(spec).None? && kind != GatewayKind && kind != HpaKind && kind != ScaledKind
    requires DutyOf(kind, spec, false) != Leave
    ensures Pends(Plan(spec), kind)
  {
    var r := |RbacPlan(spec)|;
    match kind
    case AccountKind => InPlan(spec, kind, CreateAccount, 0);
    case ClusterRoleKind => InPlan(spec, kind, Apply(kind), 1);
    case ClusterBindingKind => InPlan(spec, kind, Apply(kind), 2);
    case RoleKind => InPlan(spec, kind, Apply(kind), 3);
    case RoleBindingKind => InPlan(spec, kind, Apply(kind), 4);
    case ConfigKind => InPlan(spec, kind, Apply(kind), r + 1);
    case DeploymentKind => InPlan(spec, kind, Apply(kind), r + 2);
    case ServiceKind => InPlan(spec, kind, Apply(kind), r + 5);
  }

  lemma StartTracks(c: Cluster, id: Id, m: Instance)
    requires InSync(c, id, m) && !m.gw.deleting && FINALIZER in m.gw.finalizers && Live(c, id)
    ensures Tracking(c, id, Start(m))
  {
    var spec := m.gw.spec;
    PlanEndsWithReport(spec);
    PlanChecksOnce(spec);
    PlanIsDutiful(spec, c.keda);
    forall kind | kind != GatewayKind && !Pends(Plan(spec), kind)
      ensures Settled(c, id, m.gw, kind)
    {
      if DutyOf(kind, spec, c.keda) != Leave {
        PlanCoversDuties(spec, c.keda, kind);
      }
    }
    if Validate(spec).None? {
      PlanScales(spec);
    }
  }

  lemma LoadIsDefaulted(c: Cluster, id: Id)
    requires HasGateway(c, id)
    ensures Load(c.store[GatewayKey(id)]).gw == Defaulted(GatewayAt(c, id))
    ensures SetDefaults(Defaulted(GatewayAt(c, id)).spec) == Defaulted(GatewayAt(c, id)).spec
    ensures forall kind :: KeyOf(kind, id, Defaulted(GatewayAt(c, id)).spec) == KeyOf(kind, id, GatewayAt(c, id).spec)
  {
  }

  lemma TrackingIsObservant(c: Cluster, id: Id, p: Proc)
    requires Sound(c) && Tracking(c, id, p)
    requires !p.Idle? && !p.Reading? && !p.Rereading?
    ensures Observant(c, AccountName(id, p.m.gw.spec), id, p)
  {
    LoadIsDefaulted(c, id);
    if p.Running? {
      forall i | 0 <= i < |p.todo|
        ensures Ordinary(p.m.gw.spec, p.todo[i])
      {
        assert Dutiful(p.m.gw.spec, c.keda, p.todo[i]);
      }
      if p.pending.Replace? || p.pending.Insert? {
        var kind := KindOf(p.todo[0]);
        assert kind == p.todo[0].kind;
        var from := if p.pending.Replace? then p.pending.seen.body else Initial(kind, id, p.m.gw);
        assert Derived(kind, id, p.m.gw, from, p.pending.body);
      }
    }
  }

  // ----- one command -----

  /** Everything but this object is as before. */
  ghost predicate OnlyAt(c: Cluster, c': Cluster, key: Key) {
    && c'.keda == c.keda && c'.namespaces == c.namespaces
    && forall k | k != key :: At(c', k) == At(c, k) && (k in c.store && k in c'.store ==> c'.store[k] == c.store[k])
  }

  /** The object has been brought to what its duty asks. */
  ghost predicate Achieved(c: Cluster, c': Cluster, id: Id, gw: Gateway, kind: Kind) {
    var key := KeyOf(kind, id, gw.spec);
    && OnlyAt(c, c', key)
    && Settled(c', id, gw, kind)
    && Same(Wanted(kind, id, gw, c'.keda, At(c', key)), Wanted(kind, id, gw, c.keda, At(c, key)))
  }

  lemma CreatingAchieves(c: Cluster, id: Id, gw: Gateway, kind: Kind)
    requires DutyOf(kind, gw.spec, c.keda) == Ensure && KeyOf(kind, id, gw.spec) !in c.store
    ensures Achieved(c, Put(c, KeyOf(kind, id, gw.spec), Initial(kind, id, gw)), id, gw, kind)
  {
    SameIsReflexive(Some(Initial(kind, id, gw)));
  }

  lemma AccountCallStep(c: Cluster, id: Id, p: Proc, l: Luck)
    requires p.Running? && p.todo != [] && p.todo[0] == CreateAccount
    ensures var (c', p') := Step(c, id, p, l);
            var key := KeyOf(AccountKind, id, p.m.gw.spec);
            && (c' == c || (key !in c.store && c' == Put(c, key, Initial(AccountKind, id, p.m.gw))))
            && (p' == Idle(true) || (p' == Advance(p) && key in c'.store))
            && (l.fault.Healthy? ==> p' == Advance(p))
  {
  }

  lemma CreateAccountStep(c: Cluster, id: Id, p: Proc, l: Luck)
    requires Sound(c) && p.Running? && Tracking(c, id, p) && p.todo[0] == CreateAccount
    ensures var (c', p') := Step(c, id, p, l);
            && (c' == c || Achieved(c, c', id, p.m.gw, AccountKind))
            && (p'.Idle? || (p' == Advance(p) && Settled(c', id, p.m.gw, AccountKind)))
            && (l.fault.Healthy? ==> !p'.Idle?)
  {
    assert Dutiful(p.m.gw.spec, c.keda, p.todo[0]);
    AccountCallStep(c, id, p, l);
    if KeyOf(AccountKind, id, p.m.gw.spec) !in c.store {
      CreatingAchieves(c, id, p.m.gw, AccountKind);
    }
  }

  lemma RemovingAchieves(c: Cluster, c': Cluster, id: Id, gw: Gateway, kind: Kind)
    requires DutyOf(kind, gw.spec, c.keda) == Forbid
    requires c' == c.(store := c.store - {KeyOf(kind, id, gw.spec)})
    ensures Achieved(c, c', id, gw, kind)
  {
  }

  lemma RemoveCommandStep(c: Cluster, id: Id, p: Proc, l: Luck)
    requires Sound(c) && p.Running? && Tracking(c, id, p) && p.todo[0].Remove?
    ensures var (c', p') := Step(c, id, p, l);
            var kind := p.todo[0].kind;
            && (c' == c || Achieved(c, c', id, p.m.gw, kind))
            && (p'.Idle? || (p' == Advance(p) && Settled(c', id, p.m.gw, kind))
                || (c' == c && p' == p.(pending := Erase)))
            && (l.fault.Healthy? ==> !p'.Idle?)
  {
    assert Dutiful(p.m.gw.spec, c.keda, p.todo[0]);
    RemoveStep(c, id, p, l);
    var kind := p.todo[0].kind;
    RemovingAchieves(c, c.(store := c.store - {KeyOf(kind, id, p.m.gw.spec)}), id, p.m.gw, kind);
  }

  /** What a lookup makes of the object it finds, or of its absence. */
  lemma LookupOutcome(c: Cluster, id: Id, p: Proc, l: Luck)
    requires p.Running? && p.todo != [] && p.todo[0].Apply? && p.pending.Nothing?
    requires !Unmatched(c, KeyOf(p.todo[0].kind, id, p.m.gw.spec))
    ensures var (c', p') := Step(c, id, p, l);
            var gw, kind := p.m.gw, p.todo[0].kind;
            var key := KeyOf(kind, id, gw.spec);
            && c' == c
            && (p'.Idle?
                || (p' == Advance(p) && key in c.store
                    && Mutate(kind, id, gw, l.order, c.store[key].body) == c.store[key].body)
                || (key in c.store
                    && p' == p.(pending := Replace(c.store[key], Mutate(kind, id, gw, l.order, c.store[key].body))))
                || (key !in c.store
                    && p' == p.(pending := Insert(Mutate(kind, id, gw, l.order, Initial(kind, id, gw))))))
            && (l.fault.Healthy? && p'.Idle? ==> kind == ServiceKind && WouldPanic(c, id, gw))
  {
  }

  lemma ApplyLookupStep(c: Cluster, id: Id, p: Proc, l: Luck)
    requires Sound(c) && p.Running? && Tracking(c, id, p) && p.todo[0].Apply? && p.pending.Nothing?
    ensures var (c', p') := Step(c, id, p, l);
            var kind := p.todo[0].kind;
            && c' == c
            && (p'.Idle? || (p' == Advance(p) && Settled(c, id, p.m.gw, kind))
                || (p' == p.(pending := p'.pending) && p'.Running?
                    && Executing(c, id, p.m, p.todo, p'.pending, p.installed)))
            && (l.fault.Healthy? && p'.Idle? ==> kind == ServiceKind && WouldPanic(c, id, p.m.gw))
  {
    assert Dutiful(p.m.gw.spec, c.keda, p.todo[0]);
    assert !Unmatched(c, KeyOf(p.todo[0].kind, id, p.m.gw.spec));
    LookupOutcome(c, id, p, l);
  }

  /** What a write of a command comes to. */
  ghost predicate Written(c: Cluster, id: Id, p: Proc, l: Luck, key: Key, body: Body)
    requires p.Running? && p.todo != []
  {
    var (c', p') := Step(c, id, p, l);
    && (c' == c || c' == Put(c, key, body))
    && (p'.Idle? || (p' == Advance(p) && c' == Put(c, key, body)))
    && (l.fault.Healthy? ==> !p'.Idle?)
  }

  lemma InsertWrite(c: Cluster, id: Id, p: Proc, l: Luck)
    requires p.Running? && p.todo != [] && p.todo[0].Apply? && p.pending.Insert?
    requires var key := KeyOf(p.todo[0].kind, id, p.m.gw.spec); !Unmatched(c, key) && key !in c.store
    ensures Written(c, id, p, l, KeyOf(p.todo[0].kind, id, p.m.gw.spec), p.pending.body)
  {
    InsertStep(c, id, p, l);
  }

  lemma ReplaceWrite(c: Cluster, id: Id, p: Proc, l: Luck)
    requires p.Running? && p.todo != [] && p.todo[0].Apply? && p.pending.Replace?
    requires var key := KeyOf(p.todo[0].kind, id, p.m.gw.spec);
             !Unmatched(c, key) && key in c.store && c.store[key] == p.pending.seen
    requires !p.pending.seen.body.GatewayBody? && !p.pending.body.GatewayBody?
    ensures Written(c, id, p, l, KeyOf(p.todo[0].kind, id, p.m.gw.spec), p.pending.body)
  {
    ReplaceStep(c, id, p, l);
  }

  lemma MutationAchieves(c: Cluster, id: Id, gw: Gateway, kind: Kind, order: seq<EnvVar>, from: Body)
    requires kind != GatewayKind && DutyOf(kind, gw.spec, c.keda) == Maintain
    requires from == var now := At(c, KeyOf(kind, id, gw.spec)); if now.Some? then now.value else Initial(kind, id, gw)
    ensures Achieved(c, Put(c, KeyOf(kind, id, gw.spec), Mutate(kind, id, gw, order, from)), id, gw, kind)
  {
    var key := KeyOf(kind, id, gw.spec);
    var body := Mutate(kind, id, gw, order, from);
    var c' := Put(c, key, body);
    MutateSettles(kind, id, gw, order, [], from);
    assert Mutate(kind, id, gw, order, c'.store[key].body) == c'.store[key].body;
  }

  lemma PendingWrite(c: Cluster, id: Id, p: Proc, l: Luck)
    requires Sound(c) && p.Running? && Tracking(c, id, p) && p.todo[0].Apply? && !p.pending.Nothing?
    ensures p.pending.Insert? || p.pending.Replace?
    ensures Written(c, id, p, l, KeyOf(p.todo[0].kind, id, p.m.gw.spec), p.pending.body)
  {
    assert Dutiful(p.m.gw.spec, c.keda, p.todo[0]);
    var key := KeyOf(p.todo[0].kind, id, p.m.gw.spec);
    assert key.kind == p.todo[0].kind;
    if p.pending.Insert? {
      InsertWrite(c, id, p, l);
    } else {
      var seen, kind := p.pending.seen.body, p.todo[0].kind;
      assert Fits(kind, seen);
      var order :| p.pending.body == Mutate(kind, id, p.m.gw, order, seen);
      MutateFits(kind, id, p.m.gw, order, seen);
      ReplaceWrite(c, id, p, l);
    }
  }

  lemma ApplyWriteStep(c: Cluster, id: Id, p: Proc, l: Luck)
    requires Sound(c) && p.Running? && Tracking(c, id, p) && p.todo[0].Apply? && !p.pending.Nothing?
    ensures var (c', p') := Step(c, id, p, l);
            var kind := p.todo[0].kind;
            && (c' == c || Achieved(c, c', id, p.m.gw, kind))
            && (p'.Idle? || (p' == Advance(p) && Settled(c', id, p.m.gw, kind)))
            && (l.fault.Healthy? ==> !p'.Idle?)
  {
    assert Dutiful(p.m.gw.spec, c.keda, p.todo[0]);
    PendingWrite(c, id, p, l);
    var kind := p.todo[0].kind;
    var from := if p.pending.Replace? then p.pending.seen.body else Initial(kind, id, p.m.gw);
    var order :| p.pending.body == Mutate(kind, id, p.m.gw, order, from);
    MutationAchieves(c, id, p.m.gw, kind, order, from);
  }

  // ----- one step of the whole program -----

  lemma SameIsReflexive(a: Option<Body>)
    ensures Same(a, a)
  {
  }

  lemma SameIsTransitive(a: Option<Body>, b: Option<Body>, d: Option<Body>)
    requires Same(a, b) && Same(b, d)
    ensures Same(a, d) && Same(b, a)
  {
  }

  lemma SettledStays(c: Cluster, c': Cluster, id: Id, gw: Gateway, kind: Kind, other: Kind)
    requires OnlyAt(c, c', KeyOf(kind, id, gw.spec)) && other != kind
    requires Settled(c, id, gw, other)
    ensures Settled(c', id, gw, other)
  {
  }

  /** The goal of an object depends on the gateway, the installed kinds, the namespaces, the
      presence of the binding, and the object itself. */
  lemma GoalFrame(c: Cluster, c': Cluster, id: Id, key: Key)
    requires HasGateway(c, id) && HasGateway(c', id) && GatewayAt(c', id) == GatewayAt(c, id)
    requires c'.keda == c.keda && c'.namespaces == c.namespaces
    requires BindingOf(id, GatewayAt(c, id)) in c'.store <==> BindingOf(id, GatewayAt(c, id)) in c.store
    requires At(c', key) == At(c, key)
    ensures Same(GoalAt(c', id, key), GoalAt(c, id, key))
  {
  }

  /** Bringing one object to its duty does not move the goal. */
  lemma AchievingKeepsGoal(c: Cluster, c': Cluster, id: Id, gw: Gateway, kind: Kind)
    requires kind != GatewayKind && HasGateway(c, id) && gw == Defaulted(GatewayAt(c, id))
    requires !gw.deleting && FINALIZER in gw.finalizers && Live(c, id)
    requires Achieved(c, c', id, gw, kind)
    ensures SameGoal(c, c', id)
    ensures HasGateway(c', id) && GatewayAt(c', id) == GatewayAt(c, id)
  {
    assert At(c', GatewayKey(id)) == At(c, GatewayKey(id));
    LoadIsDefaulted(c, id);
    forall key
      ensures Same(GoalAt(c', id, key), GoalAt(c, id, key))
    {
      LiveGoal(c, id, key);
      LiveGoal(c', id, key);
      if key == KeyOf(kind, id, gw.spec) {
        assert key.kind == kind;
      } else {
        assert At(c', key) == At(c, key);
        SameIsReflexive(GoalAt(c, id, key));
      }
    }
  }

  lemma LiveGoal(c: Cluster, id: Id, key: Key)
    requires HasGateway(c, id) && !GatewayAt(c, id).deleting && Live(c, id)
    ensures GoalAt(c, id, key) == OwnedGoal(c, id, WithFinalizer(GatewayAt(c, id)), key)
  {
  }

  lemma PendsLater(todo: seq<Cmd>, kind: Kind)
    requires todo != [] && kind != KindOf(todo[0])
    ensures Pends(todo, kind) ==> Pends(todo[1..], kind)
  {
  }

  lemma NextCommand(c: Cluster, c': Cluster, id: Id, m: Instance, todo: seq<Cmd>, pending: Pending, installed: bool)
    requires Executing(c, id, m, todo, pending, installed) && todo[0] != ReportStatus
    requires OnlyAt(c, c', KeyOf(KindOf(todo[0]), id, m.gw.spec))
    requires Settled(c', id, m.gw, KindOf(todo[0]))
    requires todo[0] == CheckKeda ==> installed == c.keda
    ensures Executing(c', id, m, todo[1..], Nothing, installed)
  {
    var rest := todo[1..];
    assert rest != [] && rest[|rest| - 1] == todo[|todo| - 1];
    forall i | 0 <= i < |rest|
      ensures Dutiful(m.gw.spec, c'.keda, rest[i])
    {
      assert Dutiful(m.gw.spec, c.keda, todo[i + 1]);
    }
    forall kind | kind != GatewayKind && !Pends(rest, kind)
      ensures Settled(c', id, m.gw, kind)
    {
      if kind != KindOf(todo[0]) {
        PendsLater(todo, kind);
        SettledStays(c, c', id, m.gw, KindOf(todo[0]), kind);
      }
    }
    assert forall i, j | 0 <= i < j < |rest| :: rest[i] == CheckKeda ==> rest[j] != CheckKeda by {
      assert forall i | 0 <= i < |rest| :: rest[i] == todo[i + 1];
    }
    if CheckKeda !in rest && CheckKeda in todo {
      assert todo[0] == CheckKeda;
    }
  }

  lemma KedaFoundIsDutiful(spec: Spec, todo: seq<Cmd>)
    requires todo != [] && todo[0] == CheckKeda && forall i | 0 <= i < |todo| :: Dutiful(spec, true, todo[i])
    requires forall i, j | 0 <= i < j < |todo| :: todo[i] == CheckKeda ==> todo[j] != CheckKeda
    ensures var next := [Apply(ScaledKind)] + todo[1..];
            CheckKeda !in next && forall i | 0 <= i < |next| :: Dutiful(spec, true, next[i])
  {
  }

  /** Finding the CRD turns the command into the ScaledObject's. */
  lemma KedaFound(c: Cluster, id: Id, p: Proc)
    requires p.Running? && Tracking(c, id, p) && p.todo[0] == CheckKeda && c.keda
    ensures Executing(c, id, p.m, [Apply(ScaledKind)] + p.todo[1..], Nothing, true)
  {
    var todo := p.todo;
    var next := [Apply(ScaledKind)] + todo[1..];
    KedaFoundIsDutiful(p.m.gw.spec, todo);
    forall kind | kind != GatewayKind && !Pends(next, kind)
      ensures Settled(c, id, p.m.gw, kind)
    {
      SamePends(todo, kind);
    }
  }

  lemma SamePends(todo: seq<Cmd>, kind: Kind)
    requires todo != [] && todo[0] == CheckKeda
    ensures Pends([Apply(ScaledKind)] + todo[1..], kind) <==> Pends(todo, kind)
  {
    var next := [Apply(ScaledKind)] + todo[1..];
    assert |next| == |todo| && forall i | 0 <= i < |todo| :: KindOf(next[i]) == KindOf(todo[i]);
  }

  lemma KedaNotFound(c: Cluster, id: Id, p: Proc)
    requires Sound(c) && p.Running? && Tracking(c, id, p) && p.todo[0] == CheckKeda && !c.keda
    ensures Executing(c, id, p.m, p.todo[1..], Nothing, p.installed)
  {
    assert Dutiful(p.m.gw.spec, c.keda, p.todo[0]);
    NotYetInstalled(c, id, p);
    assert Settled(c, id, p.m.gw, ScaledKind);
    NextCommand(c, c, id, p.m, p.todo, p.pending, p.installed);
  }

  lemma CheckKedaStep(c: Cluster, id: Id, p: Proc, l: Luck)
    requires Sound(c) && p.Running? && Tracking(c, id, p) && p.todo[0] == CheckKeda
    ensures var (c', p') := Step(c, id, p, l);
            && c' == c && Tracking(c, id, p')
            && (l.fault.Healthy? ==> !p'.Idle?)
  {
    if c.keda {
      KedaFound(c, id, p);
    } else {
      KedaNotFound(c, id, p);
    }
  }

  /** Before the CRD has been looked up, the reconcile takes KEDA to be missing. */
  lemma NotYetInstalled(c: Cluster, id: Id, p: Proc)
    requires p.Running? && Tracking(c, id, p) && p.todo[0] == CheckKeda
    ensures !p.installed
  {
  }

  /** One step of a reconcile that nobody interferes with: it stays on track, it does not move the
      goal, and unless it fails it stops only at rest (or where it would panic). */
  ghost predicate GoodStep(c: Cluster, id: Id, p: Proc, l: Luck) {
    var (c', p') := Step(c, id, p, l);
    && Tracking(c', id, p')
    && SameGoal(c, c', id)
    && (Panics(c', id) ==> Panics(c, id))
    && (l.fault.Healthy? && p'.Idle? ==> Rest(c', id) || Panics(c, id))
  }

  /** A settled service already carries the label whose write would panic. */
  lemma SettledServiceIsLabelled(c: Cluster, id: Id, gw: Gateway)
    requires Settled(c, id, gw, ServiceKind) && Validate(gw.spec).None?
    ensures WouldPanic(c, id, gw) ==> ServicePanics(gw.spec, gw.labels)
  {
    var body := c.store[KeyOf(ServiceKind, id, gw.spec)].body;
    if body.ServiceBody? {
      var order :| Mutate(ServiceKind, id, gw, order, body) == body;
      assert gw.spec.network != "" ==> NETWORK_LABEL in body.meta.labels;
    }
  }

  lemma PanicNeedsService(c: Cluster, c': Cluster, id: Id, gw: Gateway)
    requires At(c', KeyOf(ServiceKind, id, gw.spec)) == At(c, KeyOf(ServiceKind, id, gw.spec))
    ensures WouldPanic(c', id, gw) == WouldPanic(c, id, gw)
  {
  }

  lemma AchievingNeverPanics(c: Cluster, c': Cluster, id: Id, gw: Gateway, kind: Kind)
    requires kind != GatewayKind && Validate(gw.spec).None? && Achieved(c, c', id, gw, kind)
    ensures WouldPanic(c', id, gw) ==> WouldPanic(c, id, gw)
  {
    if kind == ServiceKind {
      SettledServiceIsLabelled(c', id, gw);
    } else {
      assert OnlyAt(c, c', KeyOf(kind, id, gw.spec));
      PanicNeedsService(c, c', id, gw);
    }
  }

  /** Of a live gateway only its own spec and service decide whether a reconcile would panic. */
  lemma LivePanics(c: Cluster, id: Id)
    requires HasGateway(c, id) && !GatewayAt(c, id).deleting && Live(c, id)
    ensures var gw := Defaulted(GatewayAt(c, id));
            Panics(c, id) <==> Validate(gw.spec).None? && WouldPanic(c, id, gw)
  {
  }

  /** What any command of the main program but the report comes to. */
  ghost predicate Outcome(c: Cluster, id: Id, p: Proc, l: Luck)
    requires p.Running? && p.todo != []
  {
    var (c', p') := Step(c, id, p, l);
    var kind := KindOf(p.todo[0]);
    && (c' == c || Achieved(c, c', id, p.m.gw, kind))
    && (p'.Idle?
        || (p' == Advance(p) && p.todo[0] != CheckKeda && Settled(c', id, p.m.gw, kind))
        || (p'.Running? && c' == c && Tracking(c, id, p')))
    && (l.fault.Healthy? && p'.Idle? ==>
          kind == ServiceKind && DutyOf(kind, p.m.gw.spec, c.keda) == Maintain && WouldPanic(c, id, p.m.gw))
  }

  lemma CommandOutcome(c: Cluster, id: Id, p: Proc, l: Luck)
    requires Sound(c) && p.Running? && Tracking(c, id, p) && p.todo[0] != ReportStatus
    ensures Outcome(c, id, p, l)
  {
    assert Dutiful(p.m.gw.spec, c.keda, p.todo[0]);
    match p.todo[0]
    case CheckKeda => CheckKedaStep(c, id, p, l);
    case CreateAccount => CreateAccountStep(c, id, p, l);
    case Remove(_) => RemoveCommandStep(c, id, p, l);
    case Apply(_) =>
      if p.pending.Nothing? {
        ApplyLookupStep(c, id, p, l);
      } else {
        ApplyWriteStep(c, id, p, l);
      }
  }

  lemma PanicIsPanic(c: Cluster, id: Id, m: Instance)
    requires InSync(c, id, m) && !m.gw.deleting && Live(c, id)
    requires Validate(m.gw.spec).None? && WouldPanic(c, id, m.gw)
    ensures Panics(c, id)
  {
  }

  /** What a command does to the store moves no goal and brings no panic about. */
  lemma AchievingIsGood(c: Cluster, c': Cluster, id: Id, m: Instance, kind: Kind)
    requires InSync(c, id, m) && !m.gw.deleting && FINALIZER in m.gw.finalizers && Live(c, id)
    requires kind != GatewayKind && (c' == c || Achieved(c, c', id, m.gw, kind))
    ensures SameGoal(c, c', id) && (Panics(c', id) ==> Panics(c, id))
  {
    LoadIsDefaulted(c, id);
    if c' == c {
      forall key { SameIsReflexive(GoalAt(c, id, key)); }
    } else {
      AchievingKeepsGoal(c, c', id, m.gw, kind);
      LivePanics(c, id);
      LivePanics(c', id);
      if Validate(m.gw.spec).None? {
        AchievingNeverPanics(c, c', id, m.gw, kind);
      }
    }
  }

  /** A command that is done leaves the rest of the program on track. */
  lemma AdvancingTracks(c: Cluster, c': Cluster, id: Id, p: Proc)
    requires p.Running? && Tracking(c, id, p) && p.todo[0] != ReportStatus && p.todo[0] != CheckKeda
    requires KindOf(p.todo[0]) != GatewayKind
    requires c' == c || Achieved(c, c', id, p.m.gw, KindOf(p.todo[0]))
    requires Settled(c', id, p.m.gw, KindOf(p.todo[0]))
    ensures Tracking(c', id, Advance(p))
  {
    var key := KeyOf(KindOf(p.todo[0]), id, p.m.gw.spec);
    assert OnlyAt(c, c', key) && key != GatewayKey(id);
    NextCommand(c, c', id, p.m, p.todo, p.pending, p.installed);
  }

  lemma CommandGoodStep(c: Cluster, id: Id, p: Proc, l: Luck)
    requires Sound(c) && p.Running? && Tracking(c, id, p) && p.todo[0] != ReportStatus
    ensures GoodStep(c, id, p, l)
  {
    var (c', p') := Step(c, id, p, l);
    var kind := KindOf(p.todo[0]);
    assert Dutiful(p.m.gw.spec, c.keda, p.todo[0]);
    CommandOutcome(c, id, p, l);
    AchievingIsGood(c, c', id, p.m, kind);
    if p'.Idle? {
      if l.fault.Healthy? {
        PanicIsPanic(c, id, p.m);
      }
    } else if p' == Advance(p) && p.todo[0] != CheckKeda && Settled(c', id, p.m.gw, kind) {
      AdvancingTracks(c, c', id, p);
    }
  }

  lemma MarkingKeepsGoal(c: Cluster, id: Id, installed: bool, now: int)
    requires HasGateway(c, id) && !GatewayAt(c, id).deleting && FINALIZER in GatewayAt(c, id).finalizers && Live(c, id)
    requires VerdictOf(Defaulted(GatewayAt(c, id)).spec, installed)
             == VerdictOf(Defaulted(GatewayAt(c, id)).spec, c.keda)
    ensures var gw := GatewayAt(c, id);
            var c' := Put(c, GatewayKey(id), GatewayBody(gw.(status := Marked(Defaulted(gw), installed, now))));
            SameGoal(c, c', id) && (Panics(c', id) ==> Panics(c, id))
  {
    var gw := GatewayAt(c, id);
    var gw' := gw.(status := Marked(Defaulted(gw), installed, now));
    var c' := Put(c, GatewayKey(id), GatewayBody(gw'));
    var v, mode := VerdictOf(Defaulted(gw).spec, c.keda), EffectiveMode(Defaulted(gw).spec);
    assert GatewayAt(c', id) == gw';
    forall key
      ensures Same(GoalAt(c', id, key), GoalAt(c, id, key))
    {
      LiveGoal(c, id, key);
      LiveGoal(c', id, key);
      if key == GatewayKey(id) {
        MarkedOnce(Defaulted(gw), installed, c.keda, now, 0);
        MarkTimeless(gw.status, gw.status, v, gw.generation, mode, now, 0);
      } else {
        assert At(c', key) == At(c, key);
        WantedIgnoresStatus(key.kind, id, Defaulted(gw), Defaulted(gw'), c.keda, At(c, key));
        SameIsReflexive(GoalAt(c, id, key));
      }
    }
  }

  lemma WantedIgnoresStatus(kind: Kind, id: Id, gw: Gateway, gw': Gateway, keda: bool, current: Option<Body>)
    requires gw' == gw.(status := gw'.status)
    ensures Wanted(kind, id, gw, keda, current) == Wanted(kind, id, gw', keda, current)
  {
  }

  lemma ReportComesLast(todo: seq<Cmd>)
    requires todo != [] && ReportStatus !in todo[..|todo| - 1]
    ensures todo[0] == ReportStatus ==> |todo| == 1
  {
  }

  lemma SettledIgnoresStatus(c: Cluster, c': Cluster, id: Id, gw: Gateway, gw': Gateway, kind: Kind)
    requires gw' == gw.(status := gw'.status) && kind != GatewayKind
    requires c'.keda == c.keda && At(c', KeyOf(kind, id, gw.spec)) == At(c, KeyOf(kind, id, gw.spec))
    requires Settled(c, id, gw, kind)
    ensures Settled(c', id, gw', kind)
  {
    var key := KeyOf(kind, id, gw.spec);
    if DutyOf(kind, gw.spec, c.keda) == Maintain {
      var order :| Mutate(kind, id, gw, order, c.store[key].body) == c.store[key].body;
      assert Mutate(kind, id, gw', order, c'.store[key].body) == c'.store[key].body;
    }
  }

  /** Once marked, a gateway stays marked whatever the time. */
  lemma MarkedOnce(gw: Gateway, installed: bool, keda: bool, now: int, later: int)
    requires VerdictOf(gw.spec, installed) == VerdictOf(gw.spec, keda)
    ensures var gw' := gw.(status := Marked(gw, installed, now)); Marked(gw', keda, later) == gw'.status
  {
    var v, mode := VerdictOf(gw.spec, installed), EffectiveMode(gw.spec);
    MarkShows(gw.status, v, gw.generation, mode, now);
    MarkNoopExactly(Marked(gw, installed, now), v, gw.generation, mode, later);
  }

  lemma EverythingSettledBeforeReport(c: Cluster, id: Id, p: Proc, kind: Kind)
    requires p.Running? && Tracking(c, id, p) && p.todo == [ReportStatus] && kind != GatewayKind
    ensures Settled(c, id, p.m.gw, kind)
    ensures VerdictOf(p.m.gw.spec, p.installed) == VerdictOf(p.m.gw.spec, c.keda)
  {
  }

  /** A gateway with everything settled is at rest once its status says so. */
  lemma MarkedIsRest(c: Cluster, c': Cluster, id: Id, m: Instance, st: Status)
    requires InSync(c, id, m) && !m.gw.deleting && FINALIZER in m.gw.finalizers && Live(c, id)
    requires forall kind | kind != GatewayKind :: Settled(c, id, m.gw, kind)
    requires forall t :: Marked(m.gw.(status := st), c.keda, t) == st
    requires c' == Put(c, GatewayKey(id), GatewayBody(GatewayAt(c, id).(status := st)))
             || (c' == c && m.gw.status == st)
    ensures Rest(c', id)
  {
    var gw' := GatewayAt(c', id);
    assert Defaulted(gw') == m.gw.(status := st);
    forall kind | kind != GatewayKind
      ensures Settled(c', id, Defaulted(gw'), kind)
    {
      assert Settled(c, id, m.gw, kind);
      assert At(c', KeyOf(kind, id, m.gw.spec)) == At(c, KeyOf(kind, id, m.gw.spec));
      SettledIgnoresStatus(c, c', id, m.gw, Defaulted(gw'), kind);
    }
  }

  lemma ReportingRests(c: Cluster, c': Cluster, id: Id, p: Proc, now: int)
    requires p.Running? && Tracking(c, id, p) && p.todo == [ReportStatus]
    requires var gw := GatewayAt(c, id);
             var status := Marked(p.m.gw, p.installed, now);
             c' == (if status == gw.status then c else Put(c, GatewayKey(id), GatewayBody(gw.(status := status))))
    ensures Rest(c', id)
  {
    var status := Marked(p.m.gw, p.installed, now);
    EverythingSettledBeforeReport(c, id, p, HpaKind);
    forall kind | kind != GatewayKind
      ensures Settled(c, id, p.m.gw, kind)
    {
      EverythingSettledBeforeReport(c, id, p, kind);
    }
    forall t
      ensures Marked(p.m.gw.(status := status), c.keda, t) == status
    {
      MarkedOnce(p.m.gw, p.installed, c.keda, now, t);
    }
    MarkedIsRest(c, c', id, p.m, status);
  }

  lemma ReportTrackedStep(c: Cluster, id: Id, p: Proc, l: Luck)
    requires p.Running? && Tracking(c, id, p) && p.todo[0] == ReportStatus
    ensures var (c', p') := Step(c, id, p, l);
            var gw, status := GatewayAt(c, id), Marked(p.m.gw, p.installed, l.now);
            && p'.Idle?
            && (c' == c || c' == Put(c, GatewayKey(id), GatewayBody(gw.(status := status))))
            && (l.fault.Healthy? ==>
                  c' == if status == gw.status then c else Put(c, GatewayKey(id), GatewayBody(gw.(status := status))))
            && (l.fault.Healthy? ==> p' == Idle(false))
  {
    LoadIsDefaulted(c, id);
    var gw := GatewayAt(c, id);
    var status := Marked(p.m.gw, p.installed, l.now);
    assert MergePatch(gw.status, gw.status, status) == status;
  }

  lemma ReportGoodStep(c: Cluster, id: Id, p: Proc, l: Luck)
    requires Sound(c) && p.Running? && Tracking(c, id, p) && p.todo[0] == ReportStatus
    ensures GoodStep(c, id, p, l)
  {
    var c' := Step(c, id, p, l).0;
    ReportTrackedStep(c, id, p, l);
    ReportComesLast(p.todo);
    LoadIsDefaulted(c, id);
    EverythingSettledBeforeReport(c, id, p, HpaKind);
    if c' == c {
      forall key { SameIsReflexive(GoalAt(c, id, key)); }
    } else {
      MarkingKeepsGoal(c, id, p.installed, l.now);
    }
    if l.fault.Healthy? {
      ReportingRests(c, c', id, p, l.now);
    }
  }

  // ----- before and after the main program -----

  lemma UnbindingKeepsGoal(c: Cluster, id: Id, m: Instance)
    requires Sound(c) && InSync(c, id, m) && m.gw.deleting && FINALIZER in m.gw.finalizers
    requires BindingKey(id, m) in c.store
    ensures var key := BindingKey(id, m);
            var c' := Put(c, key, Unbound(id, m, c.store[key].body));
            SameGoal(c, c', id) && Unbound(id, m, c'.store[key].body) == c'.store[key].body
  {
    LoadIsDefaulted(c, id);
    var gw, key := GatewayAt(c, id), BindingKey(id, m);
    DefaultsAreStable(id, gw.spec);
    var body := c.store[key].body;
    assert Fits(ClusterBindingKind, body);
    var c' := Put(c, key, Unbound(id, m, body));
    WithoutTwice(body.subjects, AccountName(id, gw.spec), id.ns);
    forall k
      ensures Same(GoalAt(c', id, k), GoalAt(c, id, k))
    {
      if k == key {
        SameIsReflexive(GoalAt(c, id, k));
      } else {
        GoalFrame(c, c', id, k);
      }
    }
  }

  lemma UnbindingStep(c: Cluster, id: Id, p: Proc, l: Luck)
    requires Sound(c) && p.Unbinding? && Tracking(c, id, p)
    ensures var (c', p') := Step(c, id, p, l);
            var key := BindingKey(id, p.m);
            && (c' == c || c' == Put(c, key, Unbound(id, p.m, p.seen.body)))
            && (p' == Idle(true) || (p' == Releasing(p.m) && c' != c))
            && (l.fault.Healthy? ==> !p'.Idle?)
  {
  }

  lemma UnbindingGoodStep(c: Cluster, id: Id, p: Proc, l: Luck)
    requires Sound(c) && p.Unbinding? && Tracking(c, id, p)
    ensures GoodStep(c, id, p, l)
  {
    var (c', p') := Step(c, id, p, l);
    UnbindingStep(c, id, p, l);
    if c' == c {
      forall k { SameIsReflexive(GoalAt(c, id, k)); }
    } else {
      UnbindingKeepsGoal(c, id, p.m);
      LoadIsDefaulted(c, id);
      assert GatewayAt(c', id) == GatewayAt(c, id);
    }
  }

  function Released(gw: Gateway): Body {
    GatewayBody(Rewritten(gw, gw.finalizers - {FINALIZER}))
  }

  lemma ReleasingStep(c: Cluster, id: Id, p: Proc, l: Luck)
    requires p.Releasing? && Tracking(c, id, p)
    ensures var (c', p') := Step(c, id, p, l);
            var released := Released(GatewayAt(c, id));
            && p'.Idle?
            && (c' == c || c' == if Vanishes(released) then c.(store := c.store - {GatewayKey(id)})
                                 else Put(c, GatewayKey(id), released))
            && (l.fault.Healthy? ==> c' != c)
  {
    LoadIsDefaulted(c, id);
    var gw := GatewayAt(c, id);
    assert Accepted(GatewayBody(gw), GatewayBody(p.m.gw.(finalizers := p.m.gw.finalizers - {FINALIZER})))
           == Released(gw);
  }

  /** Taking the finalizer off is the last step: the goal of a finished deletion is what is there. */
  lemma ReleasedIsDone(c: Cluster, c': Cluster, id: Id)
    requires HasGateway(c, id) && GatewayAt(c, id).deleting
    requires var released := Released(GatewayAt(c, id));
             c' == if Vanishes(released) then c.(store := c.store - {GatewayKey(id)})
                 else Put(c, GatewayKey(id), released)
    ensures Inactive(c', id)
    ensures forall k | k != GatewayKey(id) :: At(c', k) == At(c, k)
    ensures At(c', GatewayKey(id)) == if Vanishes(Released(GatewayAt(c, id))) then None
            else Some(Released(GatewayAt(c, id)))
  {
  }

  lemma ReleasingGoodStep(c: Cluster, id: Id, p: Proc, l: Luck)
    requires Sound(c) && p.Releasing? && Tracking(c, id, p)
    ensures GoodStep(c, id, p, l)
  {
    var c' := Step(c, id, p, l).0;
    ReleasingStep(c, id, p, l);
    LoadIsDefaulted(c, id);
    if c' != c {
      ReleasedIsDone(c, c', id);
    }
    forall k
      ensures Same(GoalAt(c', id, k), GoalAt(c, id, k))
    {
      SameIsReflexive(GoalAt(c, id, k));
    }
  }

  lemma AdoptingStep(c: Cluster, id: Id, p: Proc, l: Luck)
    requires p.Adopting? && Tracking(c, id, p)
    ensures var (c', p') := Step(c, id, p, l);
            && (c' == c || c' == Put(c, GatewayKey(id), GatewayBody(WithFinalizer(GatewayAt(c, id)))))
            && (p' == Idle(true) || (p' == Rereading && c' != c))
            && (l.fault.Healthy? ==> !p'.Idle?)
  {
    LoadIsDefaulted(c, id);
    var gw := GatewayAt(c, id);
    assert Accepted(GatewayBody(gw), GatewayBody(p.m.gw.(finalizers := p.m.gw.finalizers + {FINALIZER})))
           == GatewayBody(WithFinalizer(gw));
  }

  lemma OwnedGoalFrame(c: Cluster, c': Cluster, id: Id, owner: Gateway, key: Key)
    requires c'.keda == c.keda && (key == GatewayKey(id) || At(c', key) == At(c, key))
    ensures Same(OwnedGoal(c', id, owner, key), OwnedGoal(c, id, owner, key))
  {
    SameIsReflexive(OwnedGoal(c, id, owner, key));
  }

  lemma AdoptingKeepsGoal(c: Cluster, c': Cluster, id: Id)
    requires HasGateway(c, id) && !GatewayAt(c, id).deleting && Live(c, id)
    requires c' == Put(c, GatewayKey(id), GatewayBody(WithFinalizer(GatewayAt(c, id))))
    ensures SameGoal(c, c', id)
  {
    var gw := GatewayAt(c, id);
    assert GatewayAt(c', id) == WithFinalizer(gw);
    assert WithFinalizer(WithFinalizer(gw)) == WithFinalizer(gw);
    forall k
      ensures Same(GoalAt(c', id, k), GoalAt(c, id, k))
    {
      LiveGoal(c, id, k);
      LiveGoal(c', id, k);
      assert k != GatewayKey(id) ==> At(c', k) == At(c, k);
      OwnedGoalFrame(c, c', id, WithFinalizer(gw), k);
    }
  }

  lemma AdoptingNeverPanics(c: Cluster, c': Cluster, id: Id)
    requires HasGateway(c, id) && !GatewayAt(c, id).deleting && Live(c, id)
    requires c' == Put(c, GatewayKey(id), GatewayBody(WithFinalizer(GatewayAt(c, id))))
    ensures Panics(c', id) ==> Panics(c, id)
  {
    var gw := GatewayAt(c, id);
    DefaultsAreStable(id, gw.spec);
    assert GatewayAt(c', id) == WithFinalizer(gw);
    var d, d' := Defaulted(gw), Defaulted(WithFinalizer(gw));
    assert d'.spec == d.spec && d'.labels == d.labels;
    PanicNeedsService(c, c', id, d);
    assert WouldPanic(c', id, d') == WouldPanic(c', id, d);
    LivePanics(c, id);
    LivePanics(c', id);
  }

  lemma AdoptingGoodStep(c: Cluster, id: Id, p: Proc, l: Luck)
    requires Sound(c) && p.Adopting? && Tracking(c, id, p)
    ensures GoodStep(c, id, p, l)
  {
    var c' := Step(c, id, p, l).0;
    AdoptingStep(c, id, p, l);
    LoadIsDefaulted(c, id);
    if c' == c {
      forall k { SameIsReflexive(GoalAt(c, id, k)); }
    } else {
      AdoptingKeepsGoal(c, c', id);
      AdoptingNeverPanics(c, c', id);
    }
  }

  lemma ReadingGoodStep(c: Cluster, id: Id, p: Proc, l: Luck)
    requires Sound(c) && Tracking(c, id, p)
    requires p.Reading? || p.Finalizing? || p.Checking? || p.Rereading?
    ensures GoodStep(c, id, p, l)
  {
    var (c', p') := Step(c, id, p, l);
    assert c' == c;
    forall key { SameIsReflexive(GoalAt(c, id, key)); }
    if GatewayKey(id) in c.store {
      assert Fits(GatewayKind, c.store[GatewayKey(id)].body);
      LoadIsDefaulted(c, id);
      DefaultsAreStable(id, GatewayAt(c, id).spec);
    }
    if p'.Running? {
      StartTracks(c, id, p'.m);
    }
  }

  lemma TrackedStepIsSound(c: Cluster, id: Id, p: Proc, l: Luck)
    requires Sound(c) && Tracking(c, id, p)
    ensures Sound(Step(c, id, p, l).0)
  {
    if !p.Idle? && !p.Reading? && !p.Rereading? {
      TrackingIsObservant(c, id, p);
      RequestIsWellTyped(c, AccountName(id, p.m.gw.spec), id, p, l);
    }
    ServeIsLocal(c, Request(id, p, l), l.fault);
  }

  lemma EveryStepIsGood(c: Cluster, id: Id, p: Proc, l: Luck)
    requires Sound(c) && Tracking(c, id, p) && !p.Idle?
    ensures GoodStep(c, id, p, l) && Sound(Step(c, id, p, l).0)
  {
    TrackedStepIsSound(c, id, p, l);
    match p
    case Unbinding(_, _) => UnbindingGoodStep(c, id, p, l);
    case Releasing(_) => ReleasingGoodStep(c, id, p, l);
    case Adopting(_) => AdoptingGoodStep(c, id, p, l);
    case Running(_, _, _, _) =>
      if p.todo[0] == ReportStatus {
        ReportGoodStep(c, id, p, l);
      } else {
        CommandGoodStep(c, id, p, l);
      }
    case _ => ReadingGoodStep(c, id, p, l);
  }
}
