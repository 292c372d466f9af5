/** The reconcile loop of one gateway as a program that makes one API call per step. */
module Protocol {
  import opened Values
  import opened GatewaySpec
  import opened Conditions
  import opened Subjects
  import opened Objects
  import opened ApiServer

  /** The gateway held in memory, defaults filled in, and the version it was read at. */
  datatype Instance = Instance(gw: Gateway, version: nat)

  /** The commands of the main program, each one or two calls long. */
  datatype Cmd = CreateAccount | Apply(kind: Kind) | Remove(kind: Kind) | CheckKeda | ReportStatus

  /** What the first call of a command has found out for the second. */
  datatype Pending = Nothing | Insert(body: Body) | Replace(seen: Object, body: Body) | Erase

  /** Where a reconcile stands: the constructor names the call it is about to make. */
  datatype Proc =
    | Idle(error: bool)
    | Reading
    | Finalizing(m: Instance)
    | Unbinding(m: Instance, seen: Object)
    | Releasing(m: Instance)
    | Checking(m: Instance)
    | Adopting(m: Instance)
    | Rereading
    | Running(m: Instance, todo: seq<Cmd>, pending: Pending, installed: bool)

  /** The choices that are not the program's: the fault of the call, the order a map iteration
      takes, and the time. */
  datatype Luck = Luck(fault: Fault, order: seq<EnvVar>, now: int)

  // ----- the program -----

  function ScalePlan(mode: Mode): seq<Cmd> {
    match mode
    case Disabled => [Remove(HpaKind), Remove(ScaledKind)]
    case NativeHPA => [Remove(ScaledKind), Apply(HpaKind)]
    case KEDA => [Remove(HpaKind), CheckKeda]
    case _ => []
  }

  function RbacPlan(spec: Spec): seq<Cmd> {
    if RbacWanted(spec)
    then [Apply(ClusterRoleKind), Apply(ClusterBindingKind), Apply(RoleKind), Apply(RoleBindingKind)]
    else []
  }

  function Plan(spec: Spec): seq<Cmd> {
    if Validate(spec).Some? then [Remove(HpaKind), Remove(ScaledKind), ReportStatus]
    else [CreateAccount] + RbacPlan(spec) + [Apply(ConfigKind), Apply(DeploymentKind)]
         + ScalePlan(EffectiveMode(spec)) + [Apply(ServiceKind), ReportStatus]
  }

  function VerdictOf(spec: Spec, installed: bool): Verdict {
    match Validate(spec)
    case Some(why) => RejectedSpec(why)
    case None =>
      match EffectiveMode(spec)
      case NativeHPA => HpaReady
      case KEDA => if installed then KedaReady else KedaMissing
      case _ => ScalingDisabled
  }

  function Marked(gw: Gateway, installed: bool, now: int): Status {
    Mark(gw.status, VerdictOf(gw.spec, installed), gw.generation, EffectiveMode(gw.spec), now)
  }

  function Load(o: Object): Instance {
    match o.body
    case GatewayBody(gw) => Instance(gw.(spec := SetDefaults(gw.spec)), o.version)
    case _ => Instance(Gateway(map[], map[], 0, {}, false, EMPTY_SPEC, FRESH), o.version)
  }

  const EMPTY_SPEC := Spec(None, map[], None, None, None, false, None, None, [], None, "", "", "", false,
                           MeshConfigMap.MeshSpec(MeshConfigMap.MeshConfig("", [], "", ""), map[], false, false, ""))

  function Start(m: Instance): Proc {
    Running(m, Plan(m.gw.spec), Nothing, false)
  }

  function BindingKey(id: Id, m: Instance): Key {
    KeyOf(ClusterBindingKind, id, m.gw.spec)
  }

  function Unbound(id: Id, m: Instance, body: Body): Body {
    match body
    case BindingBody(role, subjects) => BindingBody(role, Without(subjects, AccountName(id, m.gw.spec), id.ns))
    case _ => body
  }

  /** The call a reconcile makes next. */
  function Request(id: Id, p: Proc, l: Luck): Call {
    match p
    case Idle(_) => Skip
    case Reading => Get(GatewayKey(id))
    case Finalizing(m) => Get(BindingKey(id, m))
    case Unbinding(m, seen) => Update(BindingKey(id, m), Unbound(id, m, seen.body), seen.version)
    case Releasing(m) => Update(GatewayKey(id), GatewayBody(m.gw.(finalizers := m.gw.finalizers - {FINALIZER})),
                                m.version)
    case Checking(m) => GetNamespace(id.ns)
    case Adopting(m) => Update(GatewayKey(id), GatewayBody(m.gw.(finalizers := m.gw.finalizers + {FINALIZER})),
                               m.version)
    case Rereading => Get(GatewayKey(id))
    case Running(m, todo, pending, installed) =>
      if todo == [] then Skip
      else
        match todo[0]
        case CreateAccount => Create(KeyOf(AccountKind, id, m.gw.spec), Initial(AccountKind, id, m.gw))
        case Apply(kind) => (
          match pending
          case Insert(body) => Create(KeyOf(kind, id, m.gw.spec), body)
          case Replace(seen, body) => Update(KeyOf(kind, id, m.gw.spec), body, seen.version)
          case _ => if kind == ServiceKind && ServicePanics(m.gw.spec, m.gw.labels) then Skip
                    else Get(KeyOf(kind, id, m.gw.spec)))
        case Remove(kind) =>
          if pending.Erase? then Delete(KeyOf(kind, id, m.gw.spec)) else Get(KeyOf(kind, id, m.gw.spec))
        case CheckKeda => RestMapping
        case ReportStatus =>
          var status := Marked(m.gw, installed, l.now);
          if status == m.gw.status then Skip else PatchStatus(GatewayKey(id), m.gw.status, status)
  }

  function Advance(p: Proc): Proc
    requires p.Running? && p.todo != []
  {
    p.(todo := p.todo[1..], pending := Nothing)
  }

  /** What the reconcile makes of the reply. */
  function Resume(id: Id, p: Proc, r: Reply, l: Luck): Proc {
    match p
    case Idle(_) => p
    case Reading => (
      match r
      case Found(o) =>
        var m := Load(o);
        if !m.gw.deleting then Checking(m)
        else if FINALIZER in m.gw.finalizers then Finalizing(m)
        else Idle(false)
      case Failed(NotFound) => Idle(false)
      case _ => Idle(true))
    case Finalizing(m) => if r.Found? then Unbinding(m, r.it) else Idle(true)
    case Unbinding(m, _) => if r.Done? then Releasing(m) else Idle(true)
    case Releasing(m) => Idle(!r.Done?)
    case Checking(m) => (
      // a failed lookup ends the reconcile without an error, so it is not retried
      match r
      case Namespace(terminating) =>
        if terminating then Idle(false)
        else if FINALIZER in m.gw.finalizers then Start(m)
        else Adopting(m)
      case _ => Idle(false))
    case Adopting(m) => if r.Done? then Rereading else Idle(true)
    case Rereading => if r.Found? then Start(Load(r.it)) else Idle(true)
    case Running(m, todo, pending, installed) =>
      if todo == [] then Idle(false)
      else
        match todo[0]
        case CreateAccount => if r.Done? || r == Failed(AlreadyExists) then Advance(p) else Idle(true)
        case Apply(kind) =>
          if pending.Insert? || pending.Replace? then (if r.Done? then Advance(p) else Idle(true))
          else (
            match r
            case Found(o) =>
              if kind == ServiceKind && o.body.ServiceBody? && ServicePanics(m.gw.spec, o.body.meta.labels)
              then Idle(true)
              else
                var body := Mutate(kind, id, m.gw, l.order, o.body);
                if body == o.body then Advance(p) else p.(pending := Replace(o, body))
            case Failed(NotFound) => p.(pending := Insert(Mutate(kind, id, m.gw, l.order, Initial(kind, id, m.gw))))
            case _ => Idle(true))
        case Remove(kind) =>
          if r == Failed(NotFound) || (r == Failed(NoMatch) && kind == ScaledKind) then Advance(p)
          else if pending.Erase? then (if r.Done? then Advance(p) else Idle(true))
          else if r.Found? then p.(pending := Erase)
          else Idle(true)
        case CheckKeda =>
          if r.Done? then Running(m, [Apply(ScaledKind)] + todo[1..], Nothing, true)
          else if r == Failed(NoMatch) then Advance(p)
          else Idle(true)
        case ReportStatus => Idle(!r.Done?)
  }

  function Step(c: Cluster, id: Id, p: Proc, l: Luck): (Cluster, Proc) {
    var call := Request(id, p, l);
    var (c', r) := Serve(c, call, l.fault);
    (c', Resume(id, p, r, l))
  }

  /** A reconcile nobody interferes with, for as many calls as there is luck for. */
  function Run(c: Cluster, id: Id, p: Proc, luck: seq<Luck>): (Cluster, Proc)
    decreases |luck|
  {
    if luck == [] then (c, p)
    else
      var (c', p') := Step(c, id, p, luck[0]);
      Run(c', id, p', luck[1..])
  }

  lemma {:induction false} RunConcat(c: Cluster, id: Id, p: Proc, a: seq<Luck>, b: seq<Luck>)
    ensures Run(c, id, p, a + b) == var (c', p') := Run(c, id, p, a); Run(c', id, p', b)
    decreases |a|
  {
    if a == [] {
      assert a + b == b;
    } else {
      assert (a + b)[1..] == a[1..] + b;
      var (c', p') := Step(c, id, p, a[0]);
      RunConcat(c', id, p', a[1..], b);
    }
  }

  // ----- what becomes of errors -----

  /** The errors a reconcile takes for an answer. */
  predicate Tolerated(p: Proc, error: Error) {
    match p
    case Reading => error == NotFound
    case Checking(_) => true
    case Running(_, todo, pending, _) =>
      todo != [] &&
      (match todo[0]
       case CreateAccount => error == AlreadyExists
       case Apply(_) => error == NotFound && !pending.Insert? && !pending.Replace?
       case Remove(kind) => error == NotFound || (error == NoMatch && kind == ScaledKind)
       case CheckKeda => error == NoMatch
       case ReportStatus => false)
    case _ => false
  }

  /** Every other error ends the reconcile with an error. One that is tolerated ends it without an error
      at the first read and at the namespace lookup; in the main program it goes on. */
  lemma ErrorsAreReportedExactly(id: Id, p: Proc, error: Error, l: Luck)
    requires !p.Idle? && (p.Running? ==> p.todo != [])
    ensures var p' := Resume(id, p, Failed(error), l);
            && (p' == Idle(true) <==> !Tolerated(p, error))
            && (p' == Idle(false) <==> Tolerated(p, error) && !p.Running?)
            && (Tolerated(p, error) && p.Running? ==>
                  && p'.Running? && p'.m == p.m && p'.installed == p.installed
                  && p'.todo == if p.todo[0].Apply? then p.todo else p.todo[1..])
  {
  }

  /** A call that is lost, or whose reply is, always ends the reconcile: with an error, so that it is
      retried, except at the namespace lookup. */
  lemma LostCallsAreReported(c: Cluster, id: Id, p: Proc, l: Luck)
    requires !p.Idle? && !Request(id, p, l).Skip? && !l.fault.Healthy?
    ensures Step(c, id, p, l).1 == Idle(!p.Checking?)
  {
    assert Serve(c, Request(id, p, l), l.fault).1 == Failed(Unavailable);
    ErrorsAreReportedExactly(id, p, Unavailable, l);
  }

  /** Where there is no call there is nothing to fail. */
  lemma SkippingIgnoresFaults(c: Cluster, id: Id, p: Proc, l: Luck)
    requires Request(id, p, l).Skip?
    ensures Step(c, id, p, l) == Step(c, id, p, l.(fault := Healthy))
  {
  }

  // ----- every reconcile ends -----

  function Weight(todo: seq<Cmd>): nat {
    if todo == [] then 1 else (if todo[0] == CheckKeda then 3 else 2) + Weight(todo[1..])
  }

  function CallsLeft(p: Proc): nat {
    match p
    case Idle(_) => 0
    case Reading => 40
    case Finalizing(_) => 3
    case Unbinding(_, _) => 2
    case Releasing(_) => 1
    case Checking(_) => 39
    case Adopting(_) => 38
    case Rereading => 37
    case Running(_, todo, pending, _) => Weight(todo) + Opening(todo, pending)
  }

  function Opening(todo: seq<Cmd>, pending: Pending): nat {
    if todo == [] then 1
    else
      match todo[0]
      case Apply(_) => if pending.Insert? || pending.Replace? then 0 else 1
      case Remove(_) => if pending.Erase? then 0 else 1
      case _ => 1
  }

  lemma {:induction false} WeightIsBounded(todo: seq<Cmd>)
    ensures Weight(todo) <= 1 + 3 * |todo|
  {
    if todo != [] {
      WeightIsBounded(todo[1..]);
    }
  }

  lemma RunningGetsCloser(id: Id, p: Proc, r: Reply, l: Luck)
    requires p.Running?
    ensures CallsLeft(Resume(id, p, r, l)) < CallsLeft(p)
  {
  }

  lemma StartIsClose(m: Instance)
    ensures CallsLeft(Start(m)) < 37
  {
    WeightIsBounded(Plan(m.gw.spec));
  }

  lemma StepGetsCloser(c: Cluster, id: Id, p: Proc, l: Luck)
    requires !p.Idle?
    ensures CallsLeft(Step(c, id, p, l).1) < CallsLeft(p)
  {
    var (c', r) := Serve(c, Request(id, p, l), l.fault);
    match p
    case Checking(m) => StartIsClose(m);
    case Rereading =>
      if r.Found? {
        StartIsClose(Load(r.it));
      }
    case Running(_, _, _, _) => RunningGetsCloser(id, p, r, l);
    case _ =>
  }

  /** No reconcile makes more than forty calls, whatever the cluster and the faults. */
  lemma {:induction false} EveryReconcileEnds(c: Cluster, id: Id, p: Proc, luck: seq<Luck>)
    requires |luck| >= CallsLeft(p)
    ensures Run(c, id, p, luck).1.Idle?
    decreases |luck|
  {
    if luck == [] {
    } else if p.Idle? {
      assert Step(c, id, p, luck[0]) == (c, p);
      EveryReconcileEnds(c, id, p, luck[1..]);
    } else {
      StepGetsCloser(c, id, p, luck[0]);
      var (c', p') := Step(c, id, p, luck[0]);
      EveryReconcileEnds(c', id, p', luck[1..]);
    }
  }
}
