/** Gateways of different namespaces reconciled at once. They share the cluster role and, under equal
    account names, a cluster role binding, so one may have its write refused; but each that gets
    through arrives at rest, and no other disturbs it there. */
module Together {
  import opened Values
  import opened GatewaySpec
  import opened Subjects
  import opened Objects
  import opened ApiServer
  import opened Protocol
  import opened Interleavings
  import opened Convergence
  import opened Reconciliation
  import opened Safety
  import opened Success

  predicate ClusterWide(kind: Kind) {
    kind == ClusterRoleKind || kind == ClusterBindingKind
  }

  /** The gateway is there, not being deleted, and so is its namespace. */
  predicate Thriving(c: Cluster, id: Id) {
    HasGateway(c, id) && !GatewayAt(c, id).deleting && Live(c, id)
  }

  // ----- a step seen from another namespace -----

  /** The binding is as the gateway of this account and namespace wants it. */
  predicate BoundProperly(c: Cluster, account: string, ns: string) {
    var key := Key(ClusterBindingKind, "", account);
    && key in c.store && c.store[key].body.BindingBody?
    && c.store[key].body.role == RoleRef("ClusterRole", ROLE)
    && AccountSubject(account, ns) in c.store[key].body.subjects
  }

  predicate RoleIsProper(c: Cluster) {
    var key := Key(ClusterRoleKind, "", ROLE);
    key in c.store && c.store[key].body == RulesBody(DEFAULT_RULES)
  }

  /** What a step elsewhere may do: nothing in this namespace, and to what is cluster-wide only what
      suits this gateway too. */
  ghost predicate Elsewhere(c: Cluster, c': Cluster, account: string, id: Id) {
    && c'.keda == c.keda && c'.namespaces == c.namespaces && Grows(c, c')
    && (forall key: Key | key.ns == id.ns && !ClusterWide(key.kind) ::
          (key in c'.store <==> key in c.store) && (key in c.store ==> c'.store[key] == c.store[key]))
    && (forall key: Key | ClusterWide(key.kind) && key in c.store :: key in c'.store)
    && (RoleIsProper(c) ==> RoleIsProper(c'))
    && (BoundProperly(c, account, id.ns) ==> BoundProperly(c', account, id.ns))
  }

  lemma TargetsStayHome(id: Id, p: Proc, l: Luck)
    ensures var target := Target(Request(id, p, l));
            target.Some? ==> target.value.ns == id.ns || ClusterWide(target.value.kind)
  {
  }

  lemma ClusterWideIsNeverDeleted(c: Cluster, account: string, id: Id, p: Proc, l: Luck, key: Key)
    requires Observant(c, account, id, p) && ClusterWide(key.kind) && key in c.store
    ensures key in Step(c, id, p, l).0.store
  {
    RequestIsWellTyped(c, account, id, p, l);
    DeletionsScale(c, account, id, p, l);
    UpdatesStay(c, Request(id, p, l), l.fault, key);
  }

  lemma DeletionsScale(c: Cluster, account: string, id: Id, p: Proc, l: Luck)
    requires Observant(c, account, id, p)
    ensures var call := Request(id, p, l); call.Delete? ==> call.key.kind == HpaKind || call.key.kind == ScaledKind
  {
    assert p.Running? && p.todo != [] ==> Ordinary(p.m.gw.spec, p.todo[0]);
  }

  lemma UpdatesStay(c: Cluster, call: Call, fault: Fault, key: Key)
    requires WellTypedCall(call) && ClusterWide(key.kind) && key in c.store
    requires call.Delete? ==> call.key != key
    ensures key in Serve(c, call, fault).0.store
  {
  }

  lemma RoleTarget(id: Id, p: Proc, l: Luck)
    requires p.Running? ==> Lawful(p.m.gw.spec, p.todo)
    requires Target(Request(id, p, l)) == Some(Key(ClusterRoleKind, "", ROLE))
    ensures p.Running? && p.todo != [] && p.todo[0] == Apply(ClusterRoleKind)
            && (p.pending.Insert? || p.pending.Replace?)
  {
    assert p.Running? && p.todo != [] ==> Ordinary(p.m.gw.spec, p.todo[0]);
  }

  lemma RoleStaysProper(c: Cluster, account: string, id: Id, p: Proc, l: Luck)
    requires Observant(c, account, id, p) && RoleIsProper(c)
    ensures RoleIsProper(Step(c, id, p, l).0)
  {
    var key := Key(ClusterRoleKind, "", ROLE);
    if Target(Request(id, p, l)) != Some(key) {
      EffectIsLocal(c, Request(id, p, l));
    } else {
      RoleTarget(id, p, l);
      if p.pending.Insert? {
        InsertStep(c, id, p, l);
      } else {
        assert Fits(ClusterRoleKind, p.pending.seen.body);
        assert p.pending.body == RulesBody(DEFAULT_RULES);
        ReplaceStep(c, id, p, l);
      }
    }
  }

  /** The role a binding refers to: kept by an unbinding, set to the one every gateway wants otherwise. */
  lemma BindingRoleStays(c: Cluster, account: string, id: Id, p: Proc, l: Luck, name: string)
    requires Observant(c, account, id, p)
    requires var key := Key(ClusterBindingKind, "", name);
             key in c.store && c.store[key].body.BindingBody? && c.store[key].body.role == RoleRef("ClusterRole", ROLE)
    ensures var c', key := Step(c, id, p, l).0, Key(ClusterBindingKind, "", name);
            && key in c'.store && c'.store[key].body.BindingBody?
            && c'.store[key].body.role == RoleRef("ClusterRole", ROLE)
  {
    var key := Key(ClusterBindingKind, "", name);
    var call := Request(id, p, l);
    if Target(call) != Some(key) {
      EffectIsLocal(c, call);
    } else {
      BindingTarget(c, account, id, p, l, name);
      if p.Unbinding? {
        if Answer(c, call).Done? {
          AcceptedMeansUnchanged(c, key, p.seen, call.body);
        }
      } else if p.pending.Insert? {
        InsertStep(c, id, p, l);
      } else {
        assert Fits(ClusterBindingKind, p.pending.seen.body);
        assert p.pending.body.BindingBody? && p.pending.body.role == RoleRef("ClusterRole", ROLE);
        ReplaceStep(c, id, p, l);
      }
    }
  }

  lemma NamespaceIsSpared(c: Cluster, id: Id, p: Proc, l: Luck, ns: string)
    requires id.ns != ns
    ensures var c' := Step(c, id, p, l).0;
            && c'.keda == c.keda && c'.namespaces == c.namespaces && Grows(c, c')
            && forall key: Key | key.ns == ns && !ClusterWide(key.kind) ::
                 (key in c'.store <==> key in c.store) && (key in c.store ==> c'.store[key] == c.store[key])
  {
    TargetsStayHome(id, p, l);
    EffectIsLocal(c, Request(id, p, l));
  }

  lemma StepIsElsewhere(c: Cluster, account: string, id: Id, p: Proc, l: Luck, account': string, id': Id)
    requires Sound(c) && Observant(c, account, id, p) && id.ns != id'.ns
    ensures Elsewhere(c, Step(c, id, p, l).0, account', id')
  {
    var c' := Step(c, id, p, l).0;
    NamespaceIsSpared(c, id, p, l, id'.ns);
    forall key: Key | ClusterWide(key.kind) && key in c.store
      ensures key in c'.store
    {
      ClusterWideIsNeverDeleted(c, account, id, p, l, key);
    }
    if RoleIsProper(c) {
      RoleStaysProper(c, account, id, p, l);
    }
    if BoundProperly(c, account', id'.ns) {
      BindingRoleStays(c, account, id, p, l, account');
      OthersStayBound(c, account, id, p, l, account', id');
    }
  }

  // ----- what it leaves of the other gateway's work -----

  lemma BindingSettledExactly(c: Cluster, id: Id, gw: Gateway)
    requires Typed(c) && DutyOf(ClusterBindingKind, gw.spec, c.keda) == Maintain
    ensures Settled(c, id, gw, ClusterBindingKind) <==> BoundProperly(c, AccountName(id, gw.spec), id.ns)
  {
    var key := KeyOf(ClusterBindingKind, id, gw.spec);
    if key in c.store {
      assert Fits(ClusterBindingKind, c.store[key].body);
      AddKeepsOthers(c.store[key].body.subjects, AccountName(id, gw.spec), id.ns);
      if BoundProperly(c, AccountName(id, gw.spec), id.ns) {
        assert Mutate(ClusterBindingKind, id, gw, [], c.store[key].body) == c.store[key].body;
      }
    }
  }

  lemma RoleSettledExactly(c: Cluster, id: Id, gw: Gateway)
    requires Typed(c) && DutyOf(ClusterRoleKind, gw.spec, c.keda) == Maintain
    ensures Settled(c, id, gw, ClusterRoleKind) <==> RoleIsProper(c)
  {
    var key := KeyOf(ClusterRoleKind, id, gw.spec);
    assert key in c.store ==> Fits(ClusterRoleKind, c.store[key].body);
    if RoleIsProper(c) {
      assert Mutate(ClusterRoleKind, id, gw, [], RulesBody(DEFAULT_RULES)) == RulesBody(DEFAULT_RULES);
    }
  }

  lemma SettledElsewhere(c: Cluster, c': Cluster, id: Id, gw: Gateway, kind: Kind)
    requires Typed(c) && Typed(c') && kind != GatewayKind
    requires Elsewhere(c, c', AccountName(id, gw.spec), id) && Settled(c, id, gw, kind)
    ensures Settled(c', id, gw, kind)
  {
    if DutyOf(kind, gw.spec, c.keda) != Leave {
      if kind == ClusterRoleKind {
        RoleSettledExactly(c, id, gw);
        RoleSettledExactly(c', id, gw);
      } else if kind == ClusterBindingKind {
        BindingSettledExactly(c, id, gw);
        BindingSettledExactly(c', id, gw);
      } else {
        assert KeyOf(kind, id, gw.spec).ns == id.ns;
        assert At(c', KeyOf(kind, id, gw.spec)) == At(c, KeyOf(kind, id, gw.spec));
        SettledIgnoresStatus(c, c', id, gw, gw, kind);
      }
    }
  }

  lemma ThrivesElsewhere(c: Cluster, c': Cluster, account: string, id: Id)
    requires Elsewhere(c, c', account, id)
    ensures HasGateway(c', id) == HasGateway(c, id)
    ensures HasGateway(c, id) ==> c'.store[GatewayKey(id)] == c.store[GatewayKey(id)]
    ensures Thriving(c', id) == Thriving(c, id)
  {
    assert GatewayKey(id).ns == id.ns && !ClusterWide(GatewayKey(id).kind);
  }

  lemma RestsElsewhere(c: Cluster, c': Cluster, id: Id)
    requires Typed(c) && Typed(c') && Thriving(c, id) && Rest(c, id)
    requires Elsewhere(c, c', AccountName(id, GatewayAt(c, id).spec), id)
    ensures Thriving(c', id) && Rest(c', id)
  {
    var account, gw := AccountName(id, GatewayAt(c, id).spec), Defaulted(GatewayAt(c, id));
    ThrivesElsewhere(c, c', account, id);
    DefaultsAreStable(id, GatewayAt(c, id).spec);
    forall kind | kind != GatewayKind
      ensures Settled(c', id, gw, kind)
    {
      SettledElsewhere(c, c', id, gw, kind);
    }
  }

  // ----- following one's own track -----

  /** The write it is about to make will be refused: somebody else was faster. */
  predicate Overtaken(c: Cluster, id: Id, p: Proc) {
    && p.Running? && p.todo != [] && p.todo[0].Apply?
    && var key := KeyOf(p.todo[0].kind, id, p.m.gw.spec);
       match p.pending
       case Insert(_) => key in c.store
       case Replace(seen, _) => key !in c.store || c.store[key].version != seen.version
       case _ => false
  }

  function Anew(p: Proc): Proc
    requires p.Running?
  {
    p.(pending := Nothing)
  }

  /** In step with the cluster, or about to be refused and in step but for that. */
  ghost predicate Following(c: Cluster, id: Id, p: Proc) {
    Tracking(c, id, p) || (Overtaken(c, id, p) && Tracking(c, id, Anew(p)))
  }

  lemma OvertakenStep(c: Cluster, id: Id, p: Proc, l: Luck)
    requires Overtaken(c, id, p)
    ensures Step(c, id, p, l) == (c, Idle(true))
  {
  }

  lemma OvertakenStays(c: Cluster, c': Cluster, account: string, id: Id, p: Proc)
    requires Observant(c, account, id, p) && Overtaken(c, id, p) && Elsewhere(c, c', account, id)
    ensures Overtaken(c', id, p)
  {
    var key := KeyOf(p.todo[0].kind, id, p.m.gw.spec);
    if p.pending.Insert? && !ClusterWide(key.kind) {
      assert key.ns == id.ns;
    }
  }

  lemma ExecutingElsewhere(c: Cluster, c': Cluster, id: Id, m: Instance, todo: seq<Cmd>, installed: bool)
    requires Typed(c) && Typed(c') && Elsewhere(c, c', AccountName(id, m.gw.spec), id)
    requires Executing(c, id, m, todo, Nothing, installed)
    ensures Executing(c', id, m, todo, Nothing, installed)
  {
    forall kind | kind != GatewayKind && !Pends(todo, kind)
      ensures Settled(c', id, m.gw, kind)
    {
      SettledElsewhere(c, c', id, m.gw, kind);
    }
  }

  lemma PendingElsewhere(c: Cluster, c': Cluster, account: string, id: Id, p: Proc)
    requires p.Running? && Tracking(c, id, p) && Observant(c, account, id, p) && Elsewhere(c, c', account, id)
    requires Tracking(c', id, Anew(p))
    ensures Following(c', id, p)
  {
    if p.pending.Insert? || p.pending.Replace? {
      var key := KeyOf(p.todo[0].kind, id, p.m.gw.spec);
      assert key.ns == id.ns || ClusterWide(key.kind);
    }
  }

  lemma FollowingElsewhere(c: Cluster, c': Cluster, account: string, id: Id, p: Proc)
    requires Typed(c) && Typed(c') && Thriving(c, id) && Following(c, id, p)
    requires Observant(c, account, id, p) && Elsewhere(c, c', account, id)
    ensures Thriving(c', id) && Following(c', id, p)
  {
    ThrivesElsewhere(c, c', account, id);
    if p.Running? {
      assert Executing(c, id, p.m, p.todo, Nothing, p.installed);
      ExecutingElsewhere(c, c', id, p.m, p.todo, p.installed);
      if Tracking(c, id, p) {
        PendingElsewhere(c, c', account, id, p);
      } else {
        OvertakenStays(c, c', account, id, p);
      }
    }
  }

  // ----- its own steps -----

  lemma ThrivingStep(c: Cluster, id: Id, p: Proc, l: Luck)
    requires Sound(c) && Thriving(c, id) && Tracking(c, id, p)
    ensures Thriving(Step(c, id, p, l).0, id)
  {
    match p
    case Adopting(_) => AdoptingStep(c, id, p, l);
    case Running(_, _, _, _) =>
      if p.todo[0] == ReportStatus {
        ReportTrackedStep(c, id, p, l);
      } else {
        TrackedCommandSpares(c, id, p, l);
      }
    case _ =>
  }

  lemma TrackedCommandSpares(c: Cluster, id: Id, p: Proc, l: Luck)
    requires Sound(c) && p.Running? && Tracking(c, id, p) && p.todo[0] != ReportStatus
    ensures var c' := Step(c, id, p, l).0;
            HasGateway(c', id) && GatewayAt(c', id) == GatewayAt(c, id) && c'.namespaces == c.namespaces
  {
    assert Dutiful(p.m.gw.spec, c.keda, p.todo[0]);
    CommandOutcome(c, id, p, l);
    var kind := KindOf(p.todo[0]);
    assert KeyOf(kind, id, p.m.gw.spec) != GatewayKey(id);
    assert Step(c, id, p, l).0 == c || At(Step(c, id, p, l).0, GatewayKey(id)) == At(c, GatewayKey(id));
  }

  /** Only the report ends the main program without an error. */
  lemma CommandsDoNotFinish(c: Cluster, id: Id, p: Proc, l: Luck)
    requires p.Running? && p.todo != [] && p.todo[0] != ReportStatus
    ensures Step(c, id, p, l).1 != Idle(false)
  {
  }

  /** A reconcile of a thriving gateway that returns without an error leaves it at rest, unless it was
      the namespace lookup that failed: that error is swallowed. */
  lemma FinishingRests(c: Cluster, id: Id, p: Proc, l: Luck)
    requires Sound(c) && Thriving(c, id) && Tracking(c, id, p) && !p.Idle?
    requires p.Checking? ==> l.fault.Healthy?
    ensures Step(c, id, p, l).1 == Idle(false) ==> Rest(Step(c, id, p, l).0, id)
  {
    if Request(id, p, l).Skip? {
      SkippingIgnoresFaults(c, id, p, l);
      FinishingAnswered(c, id, p, l.(fault := Healthy));
    } else if l.fault.Healthy? {
      FinishingAnswered(c, id, p, l);
    } else {
      LostCallsAreReported(c, id, p, l);
    }
  }

  lemma FinishingAnswered(c: Cluster, id: Id, p: Proc, l: Luck)
    requires Sound(c) && Thriving(c, id) && Tracking(c, id, p) && !p.Idle? && l.fault.Healthy?
    ensures Step(c, id, p, l).1 == Idle(false) ==> Rest(Step(c, id, p, l).0, id)
  {
    if p.Running? {
      if p.todo[0] == ReportStatus {
        ReportComesLast(p.todo);
        ReportTrackedStep(c, id, p, l);
        LoadIsDefaulted(c, id);
        ReportingRests(c, Step(c, id, p, l).0, id, p, l.now);
      } else {
        CommandsDoNotFinish(c, id, p, l);
      }
    } else if p.Adopting? {
      AdoptingStep(c, id, p, l);
    } else {
      LoadIsDefaulted(c, id);
    }
  }

  lemma RestingCommand(c: Cluster, id: Id, p: Proc, l: Luck)
    requires Sound(c) && Thriving(c, id) && Rest(c, id)
    requires p.Running? && Tracking(c, id, p) && p.todo[0] != ReportStatus
    ensures Rest(Step(c, id, p, l).0, id)
  {
    var c' := Step(c, id, p, l).0;
    var kind := KindOf(p.todo[0]);
    assert Dutiful(p.m.gw.spec, c.keda, p.todo[0]);
    LoadIsDefaulted(c, id);
    TrackedCommandSpares(c, id, p, l);
    CommandOutcome(c, id, p, l);
    if c' != c {
      AchievedKeepsRest(c, c', id, p.m.gw, kind);
    }
  }

  lemma AchievedKeepsRest(c: Cluster, c': Cluster, id: Id, gw: Gateway, kind: Kind)
    requires Thriving(c, id) && Rest(c, id) && gw == Defaulted(GatewayAt(c, id))
    requires HasGateway(c', id) && GatewayAt(c', id) == GatewayAt(c, id)
    requires Achieved(c, c', id, gw, kind)
    ensures Rest(c', id)
  {
    assert OnlyAt(c, c', KeyOf(kind, id, gw.spec));
    forall other | other != GatewayKind
      ensures Settled(c', id, gw, other)
    {
      if other != kind {
        SettledStays(c, c', id, gw, kind, other);
      }
    }
  }

  /** At rest, a gateway is not disturbed by its own reconciles either, whatever fails in them. */
  lemma RestingStep(c: Cluster, id: Id, p: Proc, l: Luck)
    requires Sound(c) && Thriving(c, id) && Rest(c, id) && Tracking(c, id, p)
    ensures Rest(Step(c, id, p, l).0, id)
  {
    if p.Running? && p.todo[0] == ReportStatus {
      QuietReport(c, id, p, l);
    } else if p.Running? {
      RestingCommand(c, id, p, l);
    }
  }

  // ----- whole runs -----

  /** One gateway a namespace. */
  predicate Apart(accounts: map<Id, string>) {
    forall i, j | i in accounts && j in accounts && i != j :: i.ns != j.ns
  }

  predicate OnlyReconciles(es: seq<Event>) {
    forall e | e in es :: e.Begin? || e.Act?
  }

  /** The namespace lookups of this gateway's own reconciles are answered. */
  ghost predicate LookupsAnswered(s: System, es: seq<Event>, id: Id)
    requires id in s.procs
    decreases |es|
  {
    es == [] ||
    (&& (es[0].Act? && es[0].id == id && s.procs[id].Checking? ==> es[0].luck.fault.Healthy?)
     && id in Do(s, es[0]).procs && LookupsAnswered(Do(s, es[0]), es[1..], id))
  }

  /** In step, and at rest whenever its last reconcile has returned without an error. */
  ghost predicate OnCourse(s: System, id: Id)
    requires id in s.procs
  {
    && Thriving(s.c, id)
    && Following(s.c, id, s.procs[id])
    && (s.procs[id] == Idle(false) ==> Rest(s.c, id))
  }

  lemma AccountIsKept(s: System, id: Id)
    requires Inv(s) && id in s.procs && HasGateway(s.c, id)
    ensures AccountName(id, GatewayAt(s.c, id).spec) == s.accounts[id]
            && Observant(s.c, s.accounts[id], id, s.procs[id])
  {
    assert Local(s.c, s.accounts[id], id, s.procs[id]);
  }

  lemma OtherStepKeepsCourse(c: Cluster, account: string, id: Id, p: Proc, l: Luck, account': string, id': Id, p': Proc)
    requires Sound(c) && Observant(c, account, id, p) && id.ns != id'.ns
    requires Sound(Step(c, id, p, l).0)
    requires Thriving(c, id') && Following(c, id', p') && Observant(c, account', id', p')
    requires AccountName(id', GatewayAt(c, id').spec) == account'
    ensures var c' := Step(c, id, p, l).0;
            Thriving(c', id') && Following(c', id', p') && (Rest(c, id') ==> Rest(c', id'))
  {
    StepIsElsewhere(c, account, id, p, l, account', id');
    FollowingElsewhere(c, Step(c, id, p, l).0, account', id', p');
    if Rest(c, id') {
      RestsElsewhere(c, Step(c, id, p, l).0, id');
    }
  }

  lemma OtherKeepsCourse(s: System, e: Event, id: Id)
    requires Inv(s) && Apart(s.accounts) && id in s.procs && OnCourse(s, id)
    requires e.Act? && e.id != id
    ensures id in Do(s, e).procs && OnCourse(Do(s, e), id)
    ensures Rest(s.c, id) ==> Rest(Do(s, e).c, id)
  {
    if e.id in s.procs {
      DoKeepsInv(s, e);
      AccountIsKept(s, id);
      assert Observant(s.c, s.accounts[e.id], e.id, s.procs[e.id]) by {
        assert Local(s.c, s.accounts[e.id], e.id, s.procs[e.id]);
      }
      OtherStepKeepsCourse(s.c, s.accounts[e.id], e.id, s.procs[e.id], e.luck, s.accounts[id], id, s.procs[id]);
    }
  }

  lemma OwnStepKeepsCourse(c: Cluster, id: Id, p: Proc, l: Luck)
    requires Sound(c) && Thriving(c, id) && Following(c, id, p) && !p.Idle?
    ensures var (c', p') := Step(c, id, p, l);
            && Thriving(c', id) && Following(c', id, p')
            && (p' == Idle(false) && (p.Checking? ==> l.fault.Healthy?) ==> Rest(c', id))
            && (Rest(c, id) ==> Rest(c', id))
  {
    if Tracking(c, id, p) {
      StepStaysOnTrack(c, id, p, l);
      ThrivingStep(c, id, p, l);
      if p.Checking? ==> l.fault.Healthy? {
        FinishingRests(c, id, p, l);
      }
      if Rest(c, id) {
        RestingStep(c, id, p, l);
      }
    } else {
      OvertakenStep(c, id, p, l);
    }
  }

  lemma ReconcilingKeepsCourse(s: System, e: Event, id: Id)
    requires Inv(s) && Apart(s.accounts) && id in s.procs && OnCourse(s, id)
    requires e.Begin? || e.Act?
    requires e.Act? && e.id == id && s.procs[id].Checking? ==> e.luck.fault.Healthy? || Rest(s.c, id)
    ensures id in Do(s, e).procs && OnCourse(Do(s, e), id)
    ensures Rest(s.c, id) ==> Rest(Do(s, e).c, id)
  {
    if e.Act? && e.id != id {
      OtherKeepsCourse(s, e, id);
    } else if e.Act? {
      if s.procs[id].Idle? {
        assert Step(s.c, id, s.procs[id], e.luck) == (s.c, s.procs[id]);
      } else {
        OwnStepKeepsCourse(s.c, id, s.procs[id], e.luck);
      }
    }
  }

  lemma {:induction false} CourseOverRuns(s: System, es: seq<Event>, id: Id)
    requires Inv(s) && Apart(s.accounts) && id in s.procs && OnCourse(s, id)
    requires OnlyReconciles(es) && (LookupsAnswered(s, es, id) || Rest(s.c, id))
    ensures var s' := DoAll(s, es);
            id in s'.procs && OnCourse(s', id) && (Rest(s.c, id) ==> Rest(s'.c, id))
    decreases |es|
  {
    if es != [] {
      assert es[0] in es;
      DoKeepsInv(s, es[0]);
      AccountsStay(s, [es[0]]);
      ReconcilingKeepsCourse(s, es[0], id);
      assert forall e | e in es[1..] :: e in es;
      CourseOverRuns(Do(s, es[0]), es[1..], id);
    }
  }

  /** Gateways of pairwise different namespaces, reconciled at once and interleaved call by call:
      whenever a reconcile of one returns without an error, whichever calls have failed but for its own
      namespace lookups, that gateway is at rest, and there it stays through any further reconciles of
      all of them, whatever fails in those. */
  lemma GatewaysSettleTogether(s: System, es: seq<Event>, later: seq<Event>, id: Id)
    requires Inv(s) && Apart(s.accounts) && id in s.procs
    requires Thriving(s.c, id) && s.procs[id] == Reading
    requires OnlyReconciles(es) && LookupsAnswered(s, es, id) && OnlyReconciles(later)
    requires id in DoAll(s, es).procs && DoAll(s, es).procs[id] == Idle(false)
    ensures Rest(DoAll(s, es).c, id)
    ensures Rest(DoAll(DoAll(s, es), later).c, id)
  {
    CourseOverRuns(s, es, id);
    InvAlways(s, es);
    AccountsStay(s, es);
    CourseOverRuns(DoAll(s, es), later, id);
  }

  /** A call that is answered ends such a reconcile with an error only if the write it makes was
      overtaken by another gateway's, or building the service would panic. */
  lemma FailingMeansOvertaken(c: Cluster, id: Id, p: Proc, l: Luck)
    requires Sound(c) && Thriving(c, id) && Following(c, id, p) && !p.Idle? && l.fault.Healthy?
    requires Step(c, id, p, l).1 == Idle(true)
    ensures Overtaken(c, id, p) || Panics(c, id)
  {
    if Tracking(c, id, p) && !Panics(c, id) {
      UnhinderedStep(c, id, p, l);
    }
  }
}
