/** Many gateways reconciled at once, while users, autoscalers and administrators change the
    cluster between any two API calls. */
module Interleavings {
  import opened Values
  import opened GatewaySpec
  import opened Conditions
  import opened Subjects
  import opened Objects
  import opened ApiServer
  import opened Protocol

  /** `accounts` gives each managed gateway the service-account name it keeps for good. */
  datatype System = System(c: Cluster, procs: map<Id, Proc>, accounts: map<Id, string>)

  datatype Event =
    | Begin(id: Id)
    | Act(id: Id, luck: Luck)
    | CreateGateway(id: Id, gw: Gateway)
    | EditGateway(id: Id, labels: Labels, annotations: Labels, spec: Spec)
    | SetFinalizers(id: Id, finalizers: set<string>)
    | DeleteGateway(id: Id)
    | SetKeda(installed: bool)
    | SetNamespace(ns: string, phase: Option<bool>)
    | EditBinding(name: string, role: RoleRef, subjects: seq<Subject>)
    | EditObject(key: Key, body: Body)
    | DeleteObject(key: Key)

  function SubjectsAt(c: Cluster, name: string): seq<Subject> {
    var key := Key(ClusterBindingKind, "", name);
    if key in c.store && c.store[key].body.BindingBody? then c.store[key].body.subjects else []
  }

  /** The gateway's subject is in the cluster role binding of its account. */
  predicate Bound(c: Cluster, account: string, id: Id) {
    AccountSubject(account, id.ns) in SubjectsAt(c, account)
  }

  function HpaKey(id: Id): Key { Key(HpaKind, id.ns, id.name) }
  function ScaledKey(id: Id): Key { Key(ScaledKind, id.ns, id.name) }
  function DeploymentKey(id: Id): Key { Key(DeploymentKind, id.ns, id.name) }

  predicate HasGateway(c: Cluster, id: Id) {
    GatewayKey(id) in c.store && c.store[GatewayKey(id)].body.GatewayBody?
  }

  function GatewayAt(c: Cluster, id: Id): Gateway
    requires HasGateway(c, id)
  {
    c.store[GatewayKey(id)].body.gw
  }

  /** The gateway exists and carries this controller's finalizer. */
  predicate Adopted(c: Cluster, id: Id) {
    HasGateway(c, id) && FINALIZER in GatewayAt(c, id).finalizers
  }

  ghost predicate Unreported(st: Status) {
    UniqueTopics(st.conditions) && forall topic: Topic | !topic.Foreign? :: Find(st.conditions, topic).None?
  }

  /** An event the environment would not produce changes nothing. */
  ghost predicate Possible(s: System, e: Event) {
    match e
    case Begin(id) => id in s.procs && s.procs[id].Idle?
    case Act(id, _) => id in s.procs
    case CreateGateway(id, gw) =>
      && id in s.accounts && GatewayKey(id) !in s.c.store
      && FINALIZER !in gw.finalizers && !gw.deleting && Unreported(gw.status)
      && AccountName(id, gw.spec) == s.accounts[id]
    case EditGateway(id, _, _, spec) =>
      id in s.accounts && HasGateway(s.c, id) && AccountName(id, spec) == s.accounts[id]
    case SetFinalizers(id, finalizers) =>
      && id in s.accounts && HasGateway(s.c, id)
      && (FINALIZER in finalizers <==> FINALIZER in GatewayAt(s.c, id).finalizers)
    case DeleteGateway(id) => id in s.accounts && HasGateway(s.c, id)
    case SetKeda(_) => true
    case SetNamespace(_, _) => true
    case EditBinding(name, _, subjects) =>
      && NoDuplicates(subjects)
      && forall id | id in s.accounts && s.accounts[id] == name ::
           AccountSubject(name, id.ns) in subjects ==> Bound(s.c, name, id)
    case EditObject(key, body) =>
      && Fits(key.kind, body) && !Unmatched(s.c, key)
      && key.kind != GatewayKind && key.kind != ClusterBindingKind
      && (key.kind == HpaKind || key.kind == ScaledKind ==> key in s.c.store)
    case DeleteObject(key) => key.kind != GatewayKind
  }

  function PutGateway(c: Cluster, id: Id, gw: Gateway): Cluster {
    if gw.deleting && gw.finalizers == {} then c.(store := c.store - {GatewayKey(id)})
    else Put(c, GatewayKey(id), GatewayBody(gw))
  }

  /** What a user makes of a gateway. */
  function Edited(gw: Gateway, e: Event): Gateway {
    match e
    case EditGateway(_, labels, annotations, spec) =>
      gw.(labels := labels, annotations := annotations, spec := spec,
          generation := if spec != gw.spec then gw.generation + 1 else gw.generation)
    case SetFinalizers(_, finalizers) => gw.(finalizers := finalizers)
    case DeleteGateway(_) => gw.(deleting := true)
    case _ => gw
  }

  ghost function Do(s: System, e: Event): System {
    if !Possible(s, e) then s
    else
      match e
      case Begin(id) => s.(procs := s.procs[id := Reading])
      case Act(id, l) =>
        var (c', p') := Step(s.c, id, s.procs[id], l);
        s.(c := c', procs := s.procs[id := p'])
      case CreateGateway(id, gw) => s.(c := Put(s.c, GatewayKey(id), GatewayBody(gw)))
      case EditGateway(id, _, _, _) => s.(c := PutGateway(s.c, id, Edited(GatewayAt(s.c, id), e)))
      case SetFinalizers(id, _) => s.(c := PutGateway(s.c, id, Edited(GatewayAt(s.c, id), e)))
      case DeleteGateway(id) => s.(c := PutGateway(s.c, id, Edited(GatewayAt(s.c, id), e)))
      case SetKeda(installed) =>
        s.(c := s.c.(keda := installed,
                     store := if installed then s.c.store
                              else map key | key in s.c.store && key.kind != ScaledKind :: s.c.store[key]))
      case SetNamespace(ns, phase) =>
        s.(c := s.c.(namespaces := if phase.Some? then s.c.namespaces[ns := phase.value] else s.c.namespaces - {ns}))
      case EditBinding(name, role, subjects) =>
        s.(c := Put(s.c, Key(ClusterBindingKind, "", name), BindingBody(role, subjects)))
      case EditObject(key, body) => s.(c := Put(s.c, key, body))
      case DeleteObject(key) => s.(c := s.c.(store := s.c.store - {key}))
  }

  ghost function DoAll(s: System, es: seq<Event>): System
    decreases |es|
  {
    if es == [] then s else DoAll(Do(s, es[0]), es[1..])
  }

  // ----- what holds in every reachable state -----

  /** What may stand in the store when a verdict is written. */
  predicate Allowed(v: Verdict, hpa: bool, scaled: bool) {
    match v
    case HpaReady => !scaled
    case KedaReady => !hpa
    case _ => !hpa && !scaled
  }

  /** From here on, whatever succeeds, the two autoscalers never meet and the verdict fits. */
  predicate SafeAhead(spec: Spec, todo: seq<Cmd>, installed: bool, hpa: bool, scaled: bool)
    decreases |todo|
  {
    && !(hpa && scaled)
    && (todo == [] ||
        match todo[0]
        case Remove(HpaKind) => SafeAhead(spec, todo[1..], installed, false, scaled)
        case Remove(ScaledKind) => SafeAhead(spec, todo[1..], installed, hpa, false)
        case Apply(HpaKind) => SafeAhead(spec, todo[1..], installed, true, scaled)
        case Apply(ScaledKind) => SafeAhead(spec, todo[1..], installed, hpa, true)
        case CheckKeda =>
          !hpa && SafeAhead(spec, todo[1..], true, hpa, true) && SafeAhead(spec, todo[1..], installed, hpa, false)
        case ReportStatus => Allowed(VerdictOf(spec, installed), hpa, scaled)
        case _ => SafeAhead(spec, todo[1..], installed, hpa, scaled))
  }

  ghost predicate Exclusive(c: Cluster, id: Id, p: Proc) {
    && !(HpaKey(id) in c.store && ScaledKey(id) in c.store)
    && (p.Running? ==> SafeAhead(p.m.gw.spec, p.todo, p.installed, HpaKey(id) in c.store, ScaledKey(id) in c.store))
  }

  /** Commands apply only what has a mutation, and only for a valid spec whose mode asks for it;
      they remove only autoscalers. */
  predicate Ordinary(spec: Spec, cmd: Cmd) {
    && (cmd.Apply? ==> cmd.kind != GatewayKind && cmd.kind != AccountKind && Validate(spec).None?)
    && (cmd.Remove? ==> Scales(cmd))
    && (cmd == Apply(HpaKind) ==> EffectiveMode(spec) == NativeHPA)
    && (cmd == Apply(ScaledKind) || cmd == CheckKeda ==> EffectiveMode(spec) == KEDA && Validate(spec).None?)
  }

  predicate Lawful(spec: Spec, todo: seq<Cmd>) {
    forall i | 0 <= i < |todo| :: Ordinary(spec, todo[i])
  }

  ghost predicate Derived(kind: Kind, id: Id, gw: Gateway, from: Body, body: Body) {
    exists order :: body == Mutate(kind, id, gw, order, from)
  }

  ghost predicate Holds(c: Cluster, account: string, id: Id, m: Instance) {
    && AccountName(id, m.gw.spec) == account
    && m.gw.spec == SetDefaults(m.gw.spec)
    && m.version < c.revision
    && (GatewayKey(id) in c.store && c.store[GatewayKey(id)].version == m.version ==>
        Load(c.store[GatewayKey(id)]) == m)
  }

  /** What a reconcile remembers is either still so or betrayed by its version. */
  ghost predicate Observant(c: Cluster, account: string, id: Id, p: Proc) {
    match p
    case Idle(_) => true
    case Reading => true
    case Rereading => true
    case Finalizing(m) => Holds(c, account, id, m)
    case Unbinding(m, seen) => Holds(c, account, id, m) && Current(c, BindingKey(id, m), seen)
    case Releasing(m) => Holds(c, account, id, m)
    case Checking(m) => Holds(c, account, id, m)
    case Adopting(m) => Holds(c, account, id, m)
    case Running(m, todo, pending, _) =>
      && Holds(c, account, id, m)
      && Lawful(m.gw.spec, todo)
      && (pending.Replace? ==>
            && todo != [] && todo[0].Apply?
            && Current(c, KeyOf(todo[0].kind, id, m.gw.spec), pending.seen)
            && Derived(todo[0].kind, id, m.gw, pending.seen.body, pending.body))
      && (pending.Insert? ==>
            && todo != [] && todo[0].Apply?
            && Derived(todo[0].kind, id, m.gw, Initial(todo[0].kind, id, m.gw), pending.body))
  }

  /** A bound subject has an adopted gateway behind it, and a reconcile that may still bind or
      unbind it stands on an adopted gateway too. */
  ghost predicate Guarded(c: Cluster, account: string, id: Id, p: Proc) {
    && (Bound(c, account, id) ==> Adopted(c, id))
    && match p
       case Finalizing(_) => Adopted(c, id)
       case Unbinding(_, _) => Adopted(c, id)
       case Releasing(_) => Adopted(c, id) && !Bound(c, account, id)
       case Checking(m) => FINALIZER in m.gw.finalizers ==> Adopted(c, id) && GatewayAt(c, id).status == m.gw.status
       case Rereading => Adopted(c, id)
       case Running(m, _, _, _) => Adopted(c, id) && GatewayAt(c, id).status == m.gw.status
       case _ => true
  }

  /** The gateway's status is untouched or shows one of the five profiles. */
  ghost predicate Profiled(st: Status) {
    Unreported(st) || (UniqueTopics(st.conditions) && exists v :: Shows(st, v))
  }

  ghost predicate Healthily(c: Cluster, account: string, id: Id) {
    HasGateway(c, id) ==>
      AccountName(id, GatewayAt(c, id).spec) == account && Profiled(GatewayAt(c, id).status)
  }

  ghost predicate Local(c: Cluster, account: string, id: Id, p: Proc) {
    Exclusive(c, id, p) && Observant(c, account, id, p) && Guarded(c, account, id, p) && Healthily(c, account, id)
  }

  ghost predicate Tidy(c: Cluster) {
    forall name :: NoDuplicates(SubjectsAt(c, name))
  }

  /** No two gateways share both service-account name and namespace. */
  ghost predicate Separate(accounts: map<Id, string>) {
    forall i, j | i in accounts && j in accounts && i != j && accounts[i] == accounts[j] :: i.ns != j.ns
  }

  ghost predicate Inv(s: System) {
    && s.procs.Keys == s.accounts.Keys
    && Separate(s.accounts)
    && Sound(s.c)
    && Tidy(s.c)
    && forall id | id in s.procs :: Local(s.c, s.accounts[id], id, s.procs[id])
  }

  // ----- what one party may do to another -----

  /** The change from c to c' leaves everything a reconcile of this gateway relies on: it creates
      no autoscaler, does not bind its subject, and respects its finalizer and status. */
  ghost predicate Tolerable(c: Cluster, c': Cluster, account: string, id: Id) {
    && Sound(c')
    && Grows(c, c')
    && (HpaKey(id) in c'.store ==> HpaKey(id) in c.store)
    && (ScaledKey(id) in c'.store ==> ScaledKey(id) in c.store)
    && (Bound(c', account, id) ==> Bound(c, account, id))
    && (Adopted(c, id) ==> Adopted(c', id) && GatewayAt(c', id).status == GatewayAt(c, id).status)
    && Healthily(c', account, id)
  }

  lemma {:induction false} SafeAheadWithLess(spec: Spec, todo: seq<Cmd>, installed: bool, hpa: bool, scaled: bool,
                                             hpa': bool, scaled': bool)
    requires SafeAhead(spec, todo, installed, hpa, scaled)
    requires (hpa' ==> hpa) && (scaled' ==> scaled)
    ensures SafeAhead(spec, todo, installed, hpa', scaled')
    decreases |todo|
  {
    if todo == [] {
    } else {
      match todo[0]
      case Remove(HpaKind) => SafeAheadWithLess(spec, todo[1..], installed, false, scaled, false, scaled');
      case Remove(ScaledKind) => SafeAheadWithLess(spec, todo[1..], installed, hpa, false, hpa', false);
      case Apply(HpaKind) => SafeAheadWithLess(spec, todo[1..], installed, true, scaled, true, scaled');
      case Apply(ScaledKind) => SafeAheadWithLess(spec, todo[1..], installed, hpa, true, hpa', true);
      case CheckKeda =>
        SafeAheadWithLess(spec, todo[1..], true, hpa, true, hpa', true);
        SafeAheadWithLess(spec, todo[1..], installed, hpa, false, hpa', false);
      case ReportStatus =>
      case _ => SafeAheadWithLess(spec, todo[1..], installed, hpa, scaled, hpa', scaled');
    }
  }

  lemma TolerableKeepsLocal(c: Cluster, c': Cluster, account: string, id: Id, p: Proc)
    requires Sound(c) && Local(c, account, id, p)
    requires Tolerable(c, c', account, id)
    ensures Local(c', account, id, p)
  {
    if p.Running? {
      SafeAheadWithLess(p.m.gw.spec, p.todo, p.installed, HpaKey(id) in c.store, ScaledKey(id) in c.store,
                        HpaKey(id) in c'.store, ScaledKey(id) in c'.store);
    }
  }

  // ----- a reconcile's own step -----

  predicate Neutral(cmd: Cmd) {
    cmd.CreateAccount? || (cmd.Apply? && cmd.kind != HpaKind && cmd.kind != ScaledKind)
  }

  lemma {:induction false} NeutralPrefixIsSafe(spec: Spec, a: seq<Cmd>, b: seq<Cmd>, installed: bool, hpa: bool,
                                               scaled: bool)
    requires forall cmd | cmd in a :: Neutral(cmd)
    requires SafeAhead(spec, b, installed, hpa, scaled)
    ensures SafeAhead(spec, a + b, installed, hpa, scaled)
    decreases |a|
  {
    if a == [] {
      assert a + b == b;
    } else {
      assert (a + b)[1..] == a[1..] + b;
      assert Neutral(a[0]);
      NeutralPrefixIsSafe(spec, a[1..], b, installed, hpa, scaled);
    }
  }

  lemma PlanIsSafe(spec: Spec, hpa: bool, scaled: bool)
    requires !(hpa && scaled)
    ensures SafeAhead(spec, Plan(spec), false, hpa, scaled)
  {
    var end := [Apply(ServiceKind), ReportStatus];
    assert end[1..] == [ReportStatus];
    if Validate(spec).Some? {
      var plan := Plan(spec);
      assert plan[1..] == [Remove(ScaledKind), ReportStatus];
      assert plan[1..][1..] == [ReportStatus];
    } else {
      var front := [CreateAccount] + RbacPlan(spec) + [Apply(ConfigKind), Apply(DeploymentKind)];
      var scale := ScalePlan(EffectiveMode(spec));
      assert |scale| == 2;
      assert (scale + end)[1..] == [scale[1]] + end;
      assert (scale + end)[1..][1..] == end;
      assert SafeAhead(spec, scale + end, false, hpa, scaled);
      NeutralPrefixIsSafe(spec, front, scale + end, false, hpa, scaled);
      assert Plan(spec) == front + (scale + end);
    }
  }

  lemma RequestIsWellTyped(c: Cluster, account: string, id: Id, p: Proc, l: Luck)
    requires Observant(c, account, id, p)
    ensures WellTypedCall(Request(id, p, l))
  {
    if p.Running? && p.todo != [] && p.todo[0].Apply? {
      ApplyRequestIsWellTyped(c, account, id, p, l);
    }
  }

  lemma ApplyRequestIsWellTyped(c: Cluster, account: string, id: Id, p: Proc, l: Luck)
    requires Observant(c, account, id, p) && p.Running? && p.todo != [] && p.todo[0].Apply?
    ensures WellTypedCall(Request(id, p, l))
  {
    var kind := p.todo[0].kind;
    assert Ordinary(p.m.gw.spec, p.todo[0]);
    if p.pending.Insert? {
      InitialFits(kind, id, p.m.gw);
      var order :| p.pending.body == Mutate(kind, id, p.m.gw, order, Initial(kind, id, p.m.gw));
      MutateFits(kind, id, p.m.gw, order, Initial(kind, id, p.m.gw));
    } else if p.pending.Replace? {
      var order :| p.pending.body == Mutate(kind, id, p.m.gw, order, p.pending.seen.body);
      MutateFits(kind, id, p.m.gw, order, p.pending.seen.body);
    }
  }

  lemma PlanIsOrdinary(spec: Spec)
    ensures Lawful(spec, Plan(spec))
  {
  }

  predicate Scales(cmd: Cmd) {
    (cmd.Apply? || cmd.Remove?) && (cmd.kind == HpaKind || cmd.kind == ScaledKind)
  }

  lemma AutoscalersAreNotTargets(id: Id, p: Proc, l: Luck)
    requires !(p.Running? && p.todo != [] && Scales(p.todo[0]))
    ensures Target(Request(id, p, l)) != Some(HpaKey(id)) && Target(Request(id, p, l)) != Some(ScaledKey(id))
  {
  }

  lemma GatewayIsNoTarget(id: Id, p: Proc, l: Luck)
    requires p.Running? && (p.todo != [] ==> p.todo[0] != ReportStatus && Ordinary(p.m.gw.spec, p.todo[0]))
    ensures Target(Request(id, p, l)) != Some(GatewayKey(id))
  {
  }

  lemma OnlyScalingTouchesAutoscalers(c: Cluster, account: string, id: Id, p: Proc, l: Luck)
    requires Sound(c) && Observant(c, account, id, p)
    requires !(p.Running? && p.todo != [] && Scales(p.todo[0]))
    ensures var c' := Step(c, id, p, l).0;
            && (HpaKey(id) in c'.store <==> HpaKey(id) in c.store)
            && (ScaledKey(id) in c'.store <==> ScaledKey(id) in c.store)
  {
    var call := Request(id, p, l);
    RequestIsWellTyped(c, account, id, p, l);
    ServeIsLocal(c, call, l.fault);
    AutoscalersAreNotTargets(id, p, l);
  }

  lemma RemoveStep(c: Cluster, id: Id, p: Proc, l: Luck)
    requires Matched(c) && p.Running? && p.todo != [] && p.todo[0].Remove? && Scales(p.todo[0])
    ensures var (c', p') := Step(c, id, p, l);
            var key := KeyOf(p.todo[0].kind, id, p.m.gw.spec);
            && (c' == c || c' == c.(store := c.store - {key}))
            && (p' == Idle(true) || (p' == Advance(p) && key !in c'.store) || (c' == c && p' == p.(pending := Erase)))
            && (l.fault.Healthy? ==> p' != Idle(true))
  {
  }

  lemma ApplyStep(c: Cluster, id: Id, p: Proc, l: Luck)
    requires p.Running? && p.todo != [] && p.todo[0].Apply? && Scales(p.todo[0])
    ensures var (c', p') := Step(c, id, p, l);
            var key := KeyOf(p.todo[0].kind, id, p.m.gw.spec);
            && (forall k | k != key :: k in c'.store <==> k in c.store)
            && (p'.Idle? || p' == Advance(p) || (p' == p.(pending := p'.pending) && p'.Running? && c'.store == c.store))
  {
  }

  lemma ScalingStepExclusive(c: Cluster, account: string, id: Id, p: Proc, l: Luck)
    requires Sound(c) && Observant(c, account, id, p) && Exclusive(c, id, p)
    requires p.Running? && p.todo != [] && Scales(p.todo[0])
    ensures var (c', p') := Step(c, id, p, l); Exclusive(c', id, p')
  {
    var (c', p') := Step(c, id, p, l);
    var spec, rest, installed := p.m.gw.spec, p.todo[1..], p.installed;
    var hpa, scaled := HpaKey(id) in c.store, ScaledKey(id) in c.store;
    var hpa', scaled' := HpaKey(id) in c'.store, ScaledKey(id) in c'.store;
    if p.todo[0].Remove? {
      RemoveStep(c, id, p, l);
      assert (hpa' ==> hpa) && (scaled' ==> scaled);
      SafeAheadWithLess(spec, p.todo, installed, hpa, scaled, hpa', scaled');
    } else {
      ApplyStep(c, id, p, l);
      if p.todo[0].kind == HpaKind {
        assert scaled' == scaled && SafeAhead(spec, rest, installed, true, scaled);
        SafeAheadWithLess(spec, rest, installed, true, scaled, hpa', scaled');
      } else {
        assert hpa' == hpa && SafeAhead(spec, rest, installed, hpa, true);
        SafeAheadWithLess(spec, rest, installed, hpa, true, hpa', scaled');
      }
    }
  }

  /** A reconcile that looks for the CRD has left no HPA behind; if there is no CRD, there is no
      ScaledObject either. */
  lemma CheckKedaStepExclusive(c: Cluster, id: Id, p: Proc, l: Luck)
    requires Matched(c) && Exclusive(c, id, p)
    requires p.Running? && p.todo != [] && p.todo[0] == CheckKeda
    ensures var (c', p') := Step(c, id, p, l); Exclusive(c', id, p')
  {
  }

  lemma UnscaledStepExclusive(c: Cluster, account: string, id: Id, p: Proc, l: Luck)
    requires Sound(c) && Observant(c, account, id, p) && Exclusive(c, id, p)
    requires p.Running? && (p.todo != [] ==> !Scales(p.todo[0]) && p.todo[0] != CheckKeda)
    ensures var (c', p') := Step(c, id, p, l); Exclusive(c', id, p')
  {
    OnlyScalingTouchesAutoscalers(c, account, id, p, l);
  }

  lemma StartExclusive(c: Cluster, account: string, id: Id, p: Proc, l: Luck)
    requires Sound(c) && Observant(c, account, id, p) && Exclusive(c, id, p) && !p.Running?
    ensures var (c', p') := Step(c, id, p, l); Exclusive(c', id, p')
  {
    var (c', p') := Step(c, id, p, l);
    OnlyScalingTouchesAutoscalers(c, account, id, p, l);
    if p'.Running? {
      PlanIsSafe(p'.m.gw.spec, HpaKey(id) in c'.store, ScaledKey(id) in c'.store);
    }
  }

  lemma OwnStepExclusive(c: Cluster, account: string, id: Id, p: Proc, l: Luck)
    requires Sound(c) && Observant(c, account, id, p) && Exclusive(c, id, p)
    ensures var (c', p') := Step(c, id, p, l); Exclusive(c', id, p')
  {
    if !p.Running? {
      StartExclusive(c, account, id, p, l);
    } else if p.todo != [] && Scales(p.todo[0]) {
      ScalingStepExclusive(c, account, id, p, l);
    } else if p.todo != [] && p.todo[0] == CheckKeda {
      CheckKedaStepExclusive(c, id, p, l);
    } else {
      UnscaledStepExclusive(c, account, id, p, l);
    }
  }

  lemma LoadHolds(c: Cluster, account: string, id: Id)
    requires Sound(c) && GatewayKey(id) in c.store && Healthily(c, account, id)
    ensures Holds(c, account, id, Load(c.store[GatewayKey(id)]))
  {
  }

  /** Whatever its own call does, a reconcile's memory of the gateway stays good. */
  lemma HoldsOn(c: Cluster, account: string, id: Id, p: Proc, l: Luck, m: Instance)
    requires Sound(c) && Observant(c, account, id, p) && Holds(c, account, id, m)
    ensures Sound(Step(c, id, p, l).0) && Holds(Step(c, id, p, l).0, account, id, m)
  {
    RequestIsWellTyped(c, account, id, p, l);
    ServeIsLocal(c, Request(id, p, l), l.fault);
  }

  lemma StartIsObservant(c: Cluster, account: string, id: Id, m: Instance)
    requires Holds(c, account, id, m)
    ensures Observant(c, account, id, Start(m))
  {
    PlanIsOrdinary(m.gw.spec);
  }

  lemma RunningStepLawful(c: Cluster, id: Id, p: Proc, l: Luck)
    requires p.Running? && Lawful(p.m.gw.spec, p.todo)
    ensures var p' := Step(c, id, p, l).1;
            p'.Running? ==> p'.m == p.m && Lawful(p.m.gw.spec, p'.todo)
    ensures var p' := Step(c, id, p, l).1;
            p'.Running? && p'.pending != Nothing ==> p.todo != [] && p'.todo == p.todo
  {
    var spec, p' := p.m.gw.spec, Step(c, id, p, l).1;
    if p.todo != [] {
      assert Ordinary(spec, p.todo[0]);
      assert Lawful(spec, p.todo[1..]);
      if p.todo[0] == CheckKeda {
        assert Ordinary(spec, Apply(ScaledKind));
        assert Lawful(spec, [Apply(ScaledKind)] + p.todo[1..]);
      }
    }
  }

  lemma PendingComesFromTheReply(c: Cluster, id: Id, p: Proc, l: Luck)
    requires p.Running? && p.todo != []
    ensures var (c', p') := Step(c, id, p, l);
            var key := KeyOf(if p.todo[0].Apply? then p.todo[0].kind else GatewayKind, id, p.m.gw.spec);
            && (p'.Running? && p'.pending.Replace? && p'.pending != p.pending ==>
                  && p.todo[0].Apply? && c' == c && key in c.store && c.store[key] == p'.pending.seen
                  && p'.pending.body == Mutate(p.todo[0].kind, id, p.m.gw, l.order, p'.pending.seen.body))
            && (p'.Running? && p'.pending.Insert? && p'.pending != p.pending ==>
                  && p.todo[0].Apply? && c' == c
                  && p'.pending.body == Mutate(p.todo[0].kind, id, p.m.gw, l.order,
                                               Initial(p.todo[0].kind, id, p.m.gw)))
            && (p'.Running? && p'.pending == p.pending ==> p'.pending.Nothing? || p'.pending.Erase?)
  {
  }

  lemma RunningStepObservant(c: Cluster, account: string, id: Id, p: Proc, l: Luck)
    requires Sound(c) && Observant(c, account, id, p) && p.Running?
    ensures var (c', p') := Step(c, id, p, l); Observant(c', account, id, p')
  {
    var (c', p') := Step(c, id, p, l);
    HoldsOn(c, account, id, p, l, p.m);
    RunningStepLawful(c, id, p, l);
    if p'.Running? && p.todo != [] {
      PendingComesFromTheReply(c, id, p, l);
      if p'.pending.Replace? || p'.pending.Insert? {
        var kind := p.todo[0].kind;
        var from := if p'.pending.Replace? then p'.pending.seen.body else Initial(kind, id, p.m.gw);
        assert Derived(kind, id, p.m.gw, from, Mutate(kind, id, p.m.gw, l.order, from));
      }
    }
  }

  lemma OwnStepObservant(c: Cluster, account: string, id: Id, p: Proc, l: Luck)
    requires Sound(c) && Observant(c, account, id, p) && Healthily(c, account, id)
    ensures var (c', p') := Step(c, id, p, l); Observant(c', account, id, p')
  {
    var (c', p') := Step(c, id, p, l);
    if p.Running? {
      RunningStepObservant(c, account, id, p, l);
    } else if p.Reading? || p.Rereading? {
      if GatewayKey(id) in c.store {
        LoadHolds(c, account, id);
        StartIsObservant(c, account, id, Load(c.store[GatewayKey(id)]));
      }
    } else if !p.Idle? {
      HoldsOn(c, account, id, p, l, p.m);
      StartIsObservant(c', account, id, p.m);
    }
  }

  lemma UnbindingStepGuarded(c: Cluster, account: string, id: Id, p: Proc, l: Luck)
    requires Sound(c) && p.Unbinding? && Observant(c, account, id, p) && Guarded(c, account, id, p)
    ensures var (c', p') := Step(c, id, p, l); Guarded(c', account, id, p')
  {
    var subject := AccountSubject(account, id.ns);
    WithoutMember(p.seen.body.subjects, account, id.ns, subject);
  }

  lemma OwnGatewayWriteGuarded(c: Cluster, account: string, id: Id, p: Proc, l: Luck)
    requires Sound(c) && (p.Releasing? || p.Adopting?)
    requires Observant(c, account, id, p) && Healthily(c, account, id) && Guarded(c, account, id, p)
    ensures var (c', p') := Step(c, id, p, l); Guarded(c', account, id, p') && Healthily(c', account, id)
  {
    var call := Request(id, p, l);
    var c' := Step(c, id, p, l).0;
    RequestIsWellTyped(c, account, id, p, l);
    ServeIsLocal(c, call, l.fault);
    assert SubjectsAt(c', account) == SubjectsAt(c, account);
    if c' != c {
      assert Load(c.store[GatewayKey(id)]) == p.m;
      assert Fits(GatewayKind, c.store[GatewayKey(id)].body);
    }
  }

  /** A status write stores the marked status: the base of its patch is what is stored. */
  lemma ReportStep(c: Cluster, account: string, id: Id, p: Proc, l: Luck)
    requires p.Running? && p.todo != [] && p.todo[0] == ReportStatus
    requires Guarded(c, account, id, p)
    ensures var (c', p') := Step(c, id, p, l);
            var marked := Marked(p.m.gw, p.installed, l.now);
            && p'.Idle?
            && (c' == c || c' == Put(c, GatewayKey(id), GatewayBody(GatewayAt(c, id).(status := marked))))
            && (l.fault.Healthy? ==> HasGateway(c', id) && GatewayAt(c', id).status == marked)
  {
  }

  lemma MarkedIsProfiled(gw: Gateway, installed: bool, now: int)
    requires Profiled(gw.status)
    ensures Profiled(Marked(gw, installed, now))
  {
    MarkShows(gw.status, VerdictOf(gw.spec, installed), gw.generation, EffectiveMode(gw.spec), now);
  }

  lemma ReportStepGuarded(c: Cluster, account: string, id: Id, p: Proc, l: Luck)
    requires Sound(c) && p.Running? && p.todo != [] && p.todo[0] == ReportStatus
    requires Healthily(c, account, id) && Guarded(c, account, id, p)
    ensures var (c', p') := Step(c, id, p, l); Guarded(c', account, id, p') && Healthily(c', account, id)
  {
    var (c', p') := Step(c, id, p, l);
    ReportStep(c, account, id, p, l);
    assert p'.Idle?;
    if c' != c {
      MarkedIsProfiled(p.m.gw, p.installed, l.now);
      StatusPutGuarded(c, account, id, Marked(p.m.gw, p.installed, l.now));
    }
  }

  lemma StatusPutGuarded(c: Cluster, account: string, id: Id, st: Status)
    requires Adopted(c, id) && Healthily(c, account, id) && Profiled(st)
    ensures var c' := Put(c, GatewayKey(id), GatewayBody(GatewayAt(c, id).(status := st)));
            && Adopted(c', id) && Healthily(c', account, id)
            && SubjectsAt(c', account) == SubjectsAt(c, account)
  {
  }

  /** A command of the main program other than the status report leaves the gateway alone. */
  lemma CommandSparesGateway(c: Cluster, id: Id, p: Proc, l: Luck)
    requires p.Running? && (p.todo != [] ==> p.todo[0] != ReportStatus && Ordinary(p.m.gw.spec, p.todo[0]))
    ensures var c' := Step(c, id, p, l).0;
            HasGateway(c', id) == HasGateway(c, id) && (HasGateway(c, id) ==> GatewayAt(c', id) == GatewayAt(c, id))
  {
    GatewayIsNoTarget(id, p, l);
    EffectIsLocal(c, Request(id, p, l));
  }

  lemma RunningKeepsInstance(id: Id, p: Proc, r: Reply, l: Luck)
    requires p.Running?
    ensures var p' := Resume(id, p, r, l); p'.Idle? || (p'.Running? && p'.m == p.m)
  {
  }

  lemma CommandStepGuarded(c: Cluster, account: string, id: Id, p: Proc, l: Luck)
    requires Sound(c) && p.Running? && !(p.todo != [] && p.todo[0] == ReportStatus)
    requires Observant(c, account, id, p) && Healthily(c, account, id) && Guarded(c, account, id, p)
    ensures var (c', p') := Step(c, id, p, l); Guarded(c', account, id, p') && Healthily(c', account, id)
  {
    assert p.todo != [] ==> Ordinary(p.m.gw.spec, p.todo[0]);
    CommandSparesGateway(c, id, p, l);
    RunningKeepsInstance(id, p, Serve(c, Request(id, p, l), l.fault).1, l);
  }

  lemma LookupStepGuarded(c: Cluster, account: string, id: Id, p: Proc, l: Luck)
    requires Sound(c) && Observant(c, account, id, p) && Guarded(c, account, id, p)
    requires p.Idle? || p.Reading? || p.Finalizing? || p.Checking? || p.Rereading?
    ensures var (c', p') := Step(c, id, p, l); c' == c && Guarded(c, account, id, p')
  {
  }

  lemma OwnStepGuarded(c: Cluster, account: string, id: Id, p: Proc, l: Luck)
    requires Sound(c) && Observant(c, account, id, p) && Healthily(c, account, id) && Guarded(c, account, id, p)
    ensures var (c', p') := Step(c, id, p, l); Guarded(c', account, id, p') && Healthily(c', account, id)
  {
    if p.Unbinding? {
      UnbindingStepGuarded(c, account, id, p, l);
    } else if p.Releasing? || p.Adopting? {
      OwnGatewayWriteGuarded(c, account, id, p, l);
    } else if p.Running? {
      if p.todo != [] && p.todo[0] == ReportStatus {
        ReportStepGuarded(c, account, id, p, l);
      } else {
        CommandStepGuarded(c, account, id, p, l);
      }
    } else {
      LookupStepGuarded(c, account, id, p, l);
    }
  }

  // ----- a reconcile's step as other gateways see it -----

  /** The main program writes the object its next command is about. */
  lemma RunningTarget(id: Id, p: Proc, l: Luck)
    requires p.Running?
    ensures var target := Target(Request(id, p, l));
            target.Some? ==>
              && p.todo != []
              && match p.todo[0]
                 case CreateAccount => target.value.kind == AccountKind
                 case Apply(kind) =>
                   target.value == KeyOf(kind, id, p.m.gw.spec) && (p.pending.Insert? || p.pending.Replace?)
                 case Remove(kind) => target.value == KeyOf(kind, id, p.m.gw.spec)
                 case CheckKeda => false
                 case ReportStatus => target.value == GatewayKey(id)
  {
  }

  /** Only its own binding is a reconcile's to write, and only when it unbinds or binds. */
  lemma BindingTarget(c: Cluster, account: string, id: Id, p: Proc, l: Luck, name: string)
    requires Observant(c, account, id, p)
    requires Target(Request(id, p, l)) == Some(Key(ClusterBindingKind, "", name))
    ensures name == account
    ensures p.Unbinding? || (p.Running? && p.todo != [] && p.todo[0] == Apply(ClusterBindingKind)
                             && (p.pending.Insert? || p.pending.Replace?))
  {
    if p.Running? {
      RunningTarget(id, p, l);
      assert p.todo != [] ==> Ordinary(p.m.gw.spec, p.todo[0]);
    }
  }

  /** An unbinding that gets through removes exactly the gateway's subjects; any other changes nothing. */
  lemma UnbindingWrite(c: Cluster, account: string, id: Id, p: Proc, l: Luck)
    requires p.Unbinding? && Observant(c, account, id, p)
    ensures var c' := Step(c, id, p, l).0;
            if l.fault.Lost? || !Answer(c, Request(id, p, l)).Done? then c' == c
            else SubjectsAt(c', account) == Without(SubjectsAt(c, account), account, id.ns)
  {
    var call := Request(id, p, l);
    if Answer(c, call).Done? {
      AcceptedMeansUnchanged(c, call.key, p.seen, call.body);
    }
  }

  /** Whatever an Insert does, it creates what was not there. */
  lemma InsertStep(c: Cluster, id: Id, p: Proc, l: Luck)
    requires p.Running? && p.todo != [] && p.todo[0].Apply? && p.pending.Insert?
    ensures var (c', p') := Step(c, id, p, l);
            var key := KeyOf(p.todo[0].kind, id, p.m.gw.spec);
            && (c' == c || (key !in c.store && c' == Put(c, key, p.pending.body)))
            && (p' == Idle(true) || (p' == Advance(p) && c' == Put(c, key, p.pending.body)))
            && (l.fault.Healthy? && key !in c.store && !Unmatched(c, key) ==> p' != Idle(true))
  {
  }

  /** Whatever a Replace does, it replaces what it had seen. */
  lemma ReplaceStep(c: Cluster, id: Id, p: Proc, l: Luck)
    requires p.Running? && p.todo != [] && p.todo[0].Apply? && p.pending.Replace?
    requires !p.pending.seen.body.GatewayBody? && !p.pending.body.GatewayBody?
    requires Current(c, KeyOf(p.todo[0].kind, id, p.m.gw.spec), p.pending.seen)
             || At(c, KeyOf(p.todo[0].kind, id, p.m.gw.spec)) == Some(p.pending.seen.body)
    ensures var (c', p') := Step(c, id, p, l);
            var key := KeyOf(p.todo[0].kind, id, p.m.gw.spec);
            && (c' == c || (At(c, key) == Some(p.pending.seen.body) && c' == Put(c, key, p.pending.body)))
            && (p' == Idle(true) || (p' == Advance(p) && c' == Put(c, key, p.pending.body)))
            && (l.fault.Healthy? && key in c.store && c.store[key] == p.pending.seen && !Unmatched(c, key) ==>
                p' != Idle(true))
  {
    var key := KeyOf(p.todo[0].kind, id, p.m.gw.spec);
    var call := Request(id, p, l);
    if Answer(c, call).Done? && Current(c, key, p.pending.seen) {
      AcceptedMeansUnchanged(c, key, p.pending.seen, p.pending.body);
    }
    assert At(c, key) == Some(p.pending.seen.body) ==> Accepted(c.store[key].body, p.pending.body) == p.pending.body;
  }

  lemma BindingInsert(c: Cluster, account: string, id: Id, p: Proc, l: Luck)
    requires p.Running? && p.pending.Insert? && p.todo != [] && p.todo[0] == Apply(ClusterBindingKind)
    requires Observant(c, account, id, p)
    ensures var c' := Step(c, id, p, l).0;
            c' == c || SubjectsAt(c', account) == AddSubject(SubjectsAt(c, account), AccountSubject(account, id.ns))
  {
    var subject := AccountSubject(account, id.ns);
    assert p.pending.body.BindingBody? && p.pending.body.subjects == [subject];
    assert AddSubject([], subject) == [subject];
    InsertStep(c, id, p, l);
  }

  lemma BindingReplace(c: Cluster, account: string, id: Id, p: Proc, l: Luck)
    requires p.Running? && p.pending.Replace? && p.todo != [] && p.todo[0] == Apply(ClusterBindingKind)
    requires Observant(c, account, id, p)
    ensures var c' := Step(c, id, p, l).0;
            c' == c || SubjectsAt(c', account) == AddSubject(SubjectsAt(c, account), AccountSubject(account, id.ns))
  {
    assert p.pending.body.BindingBody?
           && p.pending.body.subjects == AddSubject(p.pending.seen.body.subjects, AccountSubject(account, id.ns));
    ReplaceStep(c, id, p, l);
  }

  /** A step changes at most one binding, the one of its own account, and there it only adds or
      removes its own subject: a write based on an outdated list is refused. */
  lemma BindingStep(c: Cluster, account: string, id: Id, p: Proc, l: Luck, name: string)
    requires Sound(c) && Observant(c, account, id, p)
    ensures var before, after := SubjectsAt(c, name), SubjectsAt(Step(c, id, p, l).0, name);
            || after == before
            || (name == account && p.Running? && after == AddSubject(before, AccountSubject(account, id.ns)))
            || (name == account && p.Unbinding? && after == Without(before, account, id.ns))
  {
    var call := Request(id, p, l);
    if Target(call) == Some(Key(ClusterBindingKind, "", name)) {
      BindingTarget(c, account, id, p, l, name);
      if p.Unbinding? {
        UnbindingWrite(c, account, id, p, l);
      } else if p.pending.Insert? {
        BindingInsert(c, account, id, p, l);
      } else {
        BindingReplace(c, account, id, p, l);
      }
    } else {
      EffectIsLocal(c, call);
    }
  }

  /** Sharing neither name and namespace, two gateways do not move each other's subjects. */
  lemma OthersStayBound(c: Cluster, account: string, id: Id, p: Proc, l: Luck, account': string, id': Id)
    requires Sound(c) && Observant(c, account, id, p)
    requires account == account' ==> id.ns != id'.ns
    ensures Bound(Step(c, id, p, l).0, account', id') <==> Bound(c, account', id')
  {
    BindingStep(c, account, id, p, l, account');
    WithoutMember(SubjectsAt(c, account'), account, id.ns, AccountSubject(account', id'.ns));
  }

  lemma StepKeepsTidy(c: Cluster, account: string, id: Id, p: Proc, l: Luck)
    requires Sound(c) && Observant(c, account, id, p) && Tidy(c)
    ensures Tidy(Step(c, id, p, l).0)
  {
    forall name
      ensures NoDuplicates(SubjectsAt(Step(c, id, p, l).0, name))
    {
      BindingStep(c, account, id, p, l, name);
      AddKeepsOthers(SubjectsAt(c, name), account, id.ns);
      WithoutDistinct(SubjectsAt(c, name), account, id.ns);
    }
  }

  lemma UntouchedIsTolerable(c: Cluster, c': Cluster, account: string, id: Id)
    requires Sound(c') && Grows(c, c') && Healthily(c, account, id)
    requires forall key | key in {HpaKey(id), ScaledKey(id), GatewayKey(id)} ::
               (key in c'.store <==> key in c.store) && (key in c.store ==> c'.store[key] == c.store[key])
    requires Bound(c', account, id) ==> Bound(c, account, id)
    ensures Tolerable(c, c', account, id)
  {
  }

  lemma OwnKeysOnly(id: Id, p: Proc, l: Luck, id': Id)
    requires id != id'
    ensures var target := Target(Request(id, p, l));
            && target != Some(HpaKey(id')) && target != Some(ScaledKey(id'))
            && target != Some(GatewayKey(id')) && target != Some(DeploymentKey(id'))
  {
  }

  lemma StepIsTolerable(c: Cluster, account: string, id: Id, p: Proc, l: Luck, account': string, id': Id)
    requires Sound(c) && Observant(c, account, id, p)
    requires id != id' && (account == account' ==> id.ns != id'.ns)
    requires Healthily(c, account', id')
    ensures Tolerable(c, Step(c, id, p, l).0, account', id')
  {
    var call := Request(id, p, l);
    var c' := Step(c, id, p, l).0;
    RequestIsWellTyped(c, account, id, p, l);
    ServeIsLocal(c, call, l.fault);
    OwnKeysOnly(id, p, l, id');
    OthersStayBound(c, account, id, p, l, account', id');
    UntouchedIsTolerable(c, c', account', id');
  }

  // ----- the environment -----

  lemma PutBindsNobody(c: Cluster, key: Key, body: Body, account: string, id: Id)
    requires Fits(key.kind, body)
    requires key == Key(ClusterBindingKind, "", account) ==>
               (AccountSubject(account, id.ns) in body.subjects ==> Bound(c, account, id))
    ensures Bound(Put(c, key, body), account, id) ==> Bound(c, account, id)
  {
  }

  lemma PutIsTolerable(c: Cluster, key: Key, body: Body, account: string, id: Id)
    requires Sound(c) && Fits(key.kind, body) && !Unmatched(c, key) && Healthily(c, account, id)
    requires (key == HpaKey(id) || key == ScaledKey(id)) ==> key in c.store
    requires key == Key(ClusterBindingKind, "", account) ==>
               (AccountSubject(account, id.ns) in body.subjects ==> Bound(c, account, id))
    requires key == GatewayKey(id) ==>
               && AccountName(id, body.gw.spec) == account && Profiled(body.gw.status)
               && (Adopted(c, id) ==> FINALIZER in body.gw.finalizers && body.gw.status == GatewayAt(c, id).status)
    ensures Tolerable(c, Put(c, key, body), account, id)
  {
    PutBindsNobody(c, key, body, account, id);
    PutIsSound(c, key, body);
  }

  lemma PutGatewayIsTolerable(c: Cluster, i: Id, gw: Gateway, account: string, id: Id)
    requires Sound(c) && HasGateway(c, i) && Healthily(c, account, id)
    requires gw.status == GatewayAt(c, i).status
    requires FINALIZER in GatewayAt(c, i).finalizers ==> FINALIZER in gw.finalizers
    requires i == id ==> AccountName(id, gw.spec) == account
    ensures Tolerable(c, PutGateway(c, i, gw), account, id)
  {
    if gw.deleting && gw.finalizers == {} {
    } else {
      PutIsTolerable(c, GatewayKey(i), GatewayBody(gw), account, id);
    }
  }

  lemma LessIsTolerable(c: Cluster, c': Cluster, account: string, id: Id)
    requires Sound(c) && Sound(c') && Healthily(c, account, id)
    requires c'.revision == c.revision
    requires forall key | key in c'.store :: key in c.store && c'.store[key] == c.store[key]
    requires forall key | key in c.store && key.kind == GatewayKind :: key in c'.store
    ensures Tolerable(c, c', account, id)
  {
  }

  lemma UserIsTolerable(s: System, e: Event, account: string, id: Id)
    requires e.EditGateway? || e.SetFinalizers? || e.DeleteGateway?
    requires Sound(s.c) && Possible(s, e) && Healthily(s.c, account, id)
    requires id in s.accounts && account == s.accounts[id]
    ensures Tolerable(s.c, Do(s, e).c, account, id)
  {
    PutGatewayIsTolerable(s.c, e.id, Edited(GatewayAt(s.c, e.id), e), account, id);
  }

  lemma WriterIsTolerable(s: System, e: Event, account: string, id: Id)
    requires e.CreateGateway? || e.EditBinding? || e.EditObject?
    requires Sound(s.c) && Possible(s, e) && Healthily(s.c, account, id)
    requires id in s.accounts && account == s.accounts[id]
    ensures Tolerable(s.c, Do(s, e).c, account, id)
  {
    match e
    case CreateGateway(i, gw) => PutIsTolerable(s.c, GatewayKey(i), GatewayBody(gw), account, id);
    case EditBinding(name, role, subjects) =>
      PutIsTolerable(s.c, Key(ClusterBindingKind, "", name), BindingBody(role, subjects), account, id);
    case EditObject(key, body) => PutIsTolerable(s.c, key, body, account, id);
  }

  lemma EnvironmentIsTolerable(s: System, e: Event, id: Id)
    requires Inv(s) && Possible(s, e) && !e.Begin? && !e.Act?
    requires Sound(Do(s, e).c)
    requires id in s.accounts
    ensures Tolerable(s.c, Do(s, e).c, s.accounts[id], id)
  {
    var c, account := s.c, s.accounts[id];
    assert Healthily(c, account, id) by {
      assert Local(c, account, id, s.procs[id]);
    }
    if e.EditGateway? || e.SetFinalizers? || e.DeleteGateway? {
      UserIsTolerable(s, e, account, id);
    } else if e.CreateGateway? || e.EditBinding? || e.EditObject? {
      WriterIsTolerable(s, e, account, id);
    } else {
      LessIsTolerable(c, Do(s, e).c, account, id);
    }
  }

  lemma PutIsSound(c: Cluster, key: Key, body: Body)
    requires Sound(c) && Fits(key.kind, body) && !Unmatched(c, key)
    ensures Sound(Put(c, key, body))
  {
  }

  lemma EnvironmentGrows(s: System, e: Event)
    requires !e.Act?
    ensures Grows(s.c, Do(s, e).c)
  {
  }

  lemma NoNewBindingsIsTidy(c: Cluster, c': Cluster)
    requires Tidy(c)
    requires forall key: Key | key.kind == ClusterBindingKind && key in c'.store ::
               key in c.store && c'.store[key] == c.store[key]
    ensures Tidy(c')
  {
    forall name
      ensures NoDuplicates(SubjectsAt(c', name))
    {
      var key := Key(ClusterBindingKind, "", name);
      assert SubjectsAt(c', name) == SubjectsAt(c, name) || SubjectsAt(c', name) == [];
    }
  }

  lemma PutGatewayIsTidy(c: Cluster, i: Id, gw: Gateway)
    requires Sound(c) && Tidy(c)
    ensures Sound(PutGateway(c, i, gw)) && Tidy(PutGateway(c, i, gw))
  {
    PutIsSound(c, GatewayKey(i), GatewayBody(gw));
    NoNewBindingsIsTidy(c, PutGateway(c, i, gw));
  }

  lemma EnvironmentIsTidy(s: System, e: Event)
    requires Sound(s.c) && Tidy(s.c) && Possible(s, e) && !e.Begin? && !e.Act?
    ensures Sound(Do(s, e).c) && Tidy(Do(s, e).c)
  {
    var c, c' := s.c, Do(s, e).c;
    match e
    case EditGateway(i, _, _, _) => PutGatewayIsTidy(c, i, Edited(GatewayAt(c, i), e));
    case SetFinalizers(i, _) => PutGatewayIsTidy(c, i, Edited(GatewayAt(c, i), e));
    case DeleteGateway(i) => PutGatewayIsTidy(c, i, Edited(GatewayAt(c, i), e));
    case EditBinding(name, role, subjects) =>
      PutIsSound(c, Key(ClusterBindingKind, "", name), BindingBody(role, subjects));
      assert forall n | n != name :: SubjectsAt(c', n) == SubjectsAt(c, n);
    case CreateGateway(i, gw) =>
      PutIsSound(c, GatewayKey(i), GatewayBody(gw));
      NoNewBindingsIsTidy(c, c');
    case EditObject(key, body) =>
      PutIsSound(c, key, body);
      NoNewBindingsIsTidy(c, c');
    case _ => NoNewBindingsIsTidy(c, c');
  }

  // ----- every reachable state -----

  lemma OwnStepLocal(c: Cluster, account: string, id: Id, p: Proc, l: Luck)
    requires Sound(c) && Local(c, account, id, p)
    ensures var (c', p') := Step(c, id, p, l); Sound(c') && Local(c', account, id, p')
  {
    RequestIsWellTyped(c, account, id, p, l);
    ServeIsLocal(c, Request(id, p, l), l.fault);
    OwnStepExclusive(c, account, id, p, l);
    OwnStepObservant(c, account, id, p, l);
    OwnStepGuarded(c, account, id, p, l);
  }

  lemma OthersStayLocal(c: Cluster, account: string, id: Id, p: Proc, l: Luck, account': string, id': Id, p': Proc)
    requires Sound(c) && Observant(c, account, id, p) && Local(c, account', id', p')
    requires id != id' && (account == account' ==> id.ns != id'.ns)
    ensures Local(Step(c, id, p, l).0, account', id', p')
  {
    StepIsTolerable(c, account, id, p, l, account', id');
    TolerableKeepsLocal(c, Step(c, id, p, l).0, account', id', p');
  }

  lemma ActKeepsInv(s: System, i: Id, l: Luck)
    requires Inv(s) && i in s.procs
    ensures Inv(Do(s, Act(i, l)))
  {
    var s' := Do(s, Act(i, l));
    var account, p := s.accounts[i], s.procs[i];
    assert Local(s.c, account, i, p);
    OwnStepLocal(s.c, account, i, p, l);
    StepKeepsTidy(s.c, account, i, p, l);
    forall id | id in s'.procs
      ensures Local(s'.c, s'.accounts[id], id, s'.procs[id])
    {
      if id != i {
        assert Local(s.c, s.accounts[id], id, s.procs[id]);
        OthersStayLocal(s.c, account, i, p, l, s.accounts[id], id, s.procs[id]);
      }
    }
  }

  lemma EnvironmentKeepsInv(s: System, e: Event)
    requires Inv(s) && Possible(s, e) && !e.Begin? && !e.Act?
    ensures Inv(Do(s, e))
  {
    var s' := Do(s, e);
    EnvironmentIsTidy(s, e);
    forall id | id in s'.procs
      ensures Local(s'.c, s'.accounts[id], id, s'.procs[id])
    {
      assert Local(s.c, s.accounts[id], id, s.procs[id]);
      EnvironmentIsTolerable(s, e, id);
      TolerableKeepsLocal(s.c, s'.c, s.accounts[id], id, s.procs[id]);
    }
  }

  lemma DoKeepsInv(s: System, e: Event)
    requires Inv(s)
    ensures Inv(Do(s, e))
  {
    if Possible(s, e) {
      match e
      case Begin(id) => assert Local(s.c, s.accounts[id], id, s.procs[id]);
      case Act(i, l) => ActKeepsInv(s, i, l);
      case _ => EnvironmentKeepsInv(s, e);
    }
  }
}
