/** Whole reconciles: retries converge, deletions complete, and a settled cluster is left alone. */
module Reconciliation {
  import opened Values
  import opened GatewaySpec
  import opened Conditions
  import opened Subjects
  import opened Objects
  import opened ApiServer
  import opened Protocol
  import opened Interleavings
  import opened Convergence

  ghost predicate AllHealthy(luck: seq<Luck>) {
    forall i | 0 <= i < |luck| :: luck[i].fault.Healthy?
  }

  /** No call of a reconcile, answered or not, moves the goal. */
  lemma {:induction false} RunKeepsGoal(c: Cluster, id: Id, p: Proc, luck: seq<Luck>)
    requires Sound(c) && Tracking(c, id, p)
    ensures var (c', p') := Run(c, id, p, luck);
            && Sound(c') && Tracking(c', id, p') && SameGoal(c, c', id)
            && (Panics(c', id) ==> Panics(c, id))
    decreases |luck|
  {
    if luck == [] || p.Idle? {
      IdleRun(c, id, p, luck);
      forall key { SameIsReflexive(GoalAt(c, id, key)); }
    } else {
      EveryStepIsGood(c, id, p, luck[0]);
      var (c1, p1) := Step(c, id, p, luck[0]);
      RunKeepsGoal(c1, id, p1, luck[1..]);
      var c' := Run(c1, id, p1, luck[1..]).0;
      forall key
        ensures Same(GoalAt(c', id, key), GoalAt(c, id, key))
      {
        SameIsTransitive(GoalAt(c', id, key), GoalAt(c1, id, key), GoalAt(c, id, key));
      }
    }
  }

  lemma {:induction false} IdleRun(c: Cluster, id: Id, p: Proc, luck: seq<Luck>)
    ensures luck == [] || p.Idle? ==> Run(c, id, p, luck) == (c, p)
    decreases |luck|
  {
    if luck != [] && p.Idle? {
      assert Step(c, id, p, luck[0]) == (c, p);
      IdleRun(c, id, p, luck[1..]);
    }
  }

  /** Without failures a reconcile stops only where nothing is left to do. */
  lemma {:induction false} HealthyRunRests(c: Cluster, id: Id, p: Proc, luck: seq<Luck>)
    requires Sound(c) && Tracking(c, id, p) && !p.Idle? && !Panics(c, id)
    requires AllHealthy(luck) && Run(c, id, p, luck).1.Idle?
    ensures Rest(Run(c, id, p, luck).0, id)
    decreases |luck|
  {
    EveryStepIsGood(c, id, p, luck[0]);
    var (c1, p1) := Step(c, id, p, luck[0]);
    if p1.Idle? {
      IdleRun(c1, id, p1, luck[1..]);
    } else {
      HealthyRunRests(c1, id, p1, luck[1..]);
    }
  }

  /** At rest every object is what its goal says. */
  lemma RestIsTheGoal(c: Cluster, id: Id, key: Key)
    requires Sound(c) && Rest(c, id)
    ensures Same(At(c, key), GoalAt(c, id, key))
  {
    if Inactive(c, id) {
      SameIsReflexive(At(c, key));
    } else {
      var gw := GatewayAt(c, id);
      LoadIsDefaulted(c, id);
      if key == GatewayKey(id) {
        assert Marked(Defaulted(gw), c.keda, 0) == gw.status;
      } else if key == KeyOf(key.kind, id, gw.spec) {
        assert key.kind != GatewayKind;
        assert Settled(c, id, Defaulted(gw), key.kind);
        if DutyOf(key.kind, Defaulted(gw).spec, c.keda) == Maintain {
          var order :| Mutate(key.kind, id, Defaulted(gw), order, c.store[key].body) == c.store[key].body;
          MutateSettles(key.kind, id, Defaulted(gw), order, [], c.store[key].body);
          AlikeIsTransitive(c.store[key].body, Mutate(key.kind, id, Defaulted(gw), [], c.store[key].body),
                            c.store[key].body);
        } else {
          SameIsReflexive(At(c, key));
        }
      } else {
        SameIsReflexive(At(c, key));
      }
    }
  }

  /** The luck of a whole reconcile that meets no failure. */
  ghost predicate Complete(luck: seq<Luck>) {
    AllHealthy(luck) && |luck| >= CallsLeft(Reading)
  }

  function Reconciled(c: Cluster, id: Id, luck: seq<Luck>): Cluster {
    Run(c, id, Reading, luck).0
  }

  /** A reconcile without failures turns every object into what its gateway wants it to be, and
      leaves all others alone. */
  lemma ReconcileReachesTheGoal(c: Cluster, id: Id, luck: seq<Luck>)
    requires Sound(c) && !Panics(c, id) && Complete(luck)
    ensures Rest(Reconciled(c, id, luck), id)
    ensures forall key :: Same(At(Reconciled(c, id, luck), key), GoalAt(c, id, key))
  {
    EveryReconcileEnds(c, id, Reading, luck);
    RunKeepsGoal(c, id, Reading, luck);
    HealthyRunRests(c, id, Reading, luck);
    var c' := Reconciled(c, id, luck);
    forall key
      ensures Same(At(c', key), GoalAt(c, id, key))
    {
      RestIsTheGoal(c', id, key);
      SameIsTransitive(At(c', key), GoalAt(c', id, key), GoalAt(c, id, key));
    }
  }

  /** Any number of reconciles, each cut short wherever its luck runs out: at a failed call, with
      or without effect, or by the operator's own end. */
  function Attempts(c: Cluster, id: Id, attempts: seq<seq<Luck>>): Cluster
    decreases |attempts|
  {
    if attempts == [] then c else Attempts(Reconciled(c, id, attempts[0]), id, attempts[1..])
  }

  lemma {:induction false} AttemptsKeepGoal(c: Cluster, id: Id, attempts: seq<seq<Luck>>)
    requires Sound(c) && !Panics(c, id)
    ensures var c' := Attempts(c, id, attempts); Sound(c') && SameGoal(c, c', id) && !Panics(c', id)
    decreases |attempts|
  {
    if attempts == [] {
      forall key { SameIsReflexive(GoalAt(c, id, key)); }
    } else {
      RunKeepsGoal(c, id, Reading, attempts[0]);
      var c1 := Reconciled(c, id, attempts[0]);
      AttemptsKeepGoal(c1, id, attempts[1..]);
      var c' := Attempts(c, id, attempts);
      forall key
        ensures Same(GoalAt(c', id, key), GoalAt(c, id, key))
      {
        SameIsTransitive(GoalAt(c', id, key), GoalAt(c1, id, key), GoalAt(c, id, key));
      }
    }
  }

  /** Retrying after any number of partial failures ends in the state one uninterrupted reconcile
      would have reached, up to versions, transition times and the order of the environment. */
  lemma RetriesConverge(c: Cluster, id: Id, attempts: seq<seq<Luck>>, last: seq<Luck>, straight: seq<Luck>)
    requires Sound(c) && !Panics(c, id) && Complete(last) && Complete(straight)
    ensures forall key :: Same(At(Reconciled(Attempts(c, id, attempts), id, last), key),
                               At(Reconciled(c, id, straight), key))
  {
    AttemptsKeepGoal(c, id, attempts);
    var c' := Attempts(c, id, attempts);
    ReconcileReachesTheGoal(c', id, last);
    ReconcileReachesTheGoal(c, id, straight);
    forall key
      ensures Same(At(Reconciled(c', id, last), key), At(Reconciled(c, id, straight), key))
    {
      SameIsTransitive(At(Reconciled(c', id, last), key), GoalAt(c', id, key), GoalAt(c, id, key));
      SameIsTransitive(At(Reconciled(c, id, straight), key), GoalAt(c, id, key), GoalAt(c, id, key));
      SameIsTransitive(At(Reconciled(c', id, last), key), GoalAt(c, id, key), At(Reconciled(c, id, straight), key));
    }
  }

  /** Deleting a gateway completes exactly when its cluster role binding exists: then the finalizer
      and the subject are gone, and the gateway too unless others hold it; otherwise the whole
      cluster stays as it is, and so does the finalizer. */
  lemma DeletionCompletesExactly(c: Cluster, id: Id, luck: seq<Luck>)
    requires Sound(c) && HasGateway(c, id) && Complete(luck)
    requires GatewayAt(c, id).deleting && FINALIZER in GatewayAt(c, id).finalizers
    ensures var c' := Reconciled(c, id, luck);
            var account := AccountName(id, GatewayAt(c, id).spec);
            && (BindingOf(id, GatewayAt(c, id)) in c.store <==> !Adopted(c', id))
            && (BindingOf(id, GatewayAt(c, id)) in c.store ==>
                  && SubjectsAt(c', account) == Without(SubjectsAt(c, account), account, id.ns)
                  && (GatewayKey(id) in c'.store <==> GatewayAt(c, id).finalizers != {FINALIZER}))
            && (BindingOf(id, GatewayAt(c, id)) !in c.store ==> forall key :: At(c', key) == At(c, key))
  {
    var c' := Reconciled(c, id, luck);
    var gw := GatewayAt(c, id);
    var binding := BindingOf(id, gw);
    ReconcileReachesTheGoal(c, id, luck);
    assert Same(At(c', GatewayKey(id)), GoalAt(c, id, GatewayKey(id)));
    if binding in c.store {
      assert Fits(ClusterBindingKind, c.store[binding].body);
      assert Same(At(c', binding), GoalAt(c, id, binding));
      assert gw.finalizers - {FINALIZER} == {} <==> gw.finalizers == {FINALIZER};
    } else {
      BlockedDeletion(c, id, luck);
    }
  }

  lemma SameSubjects(c: Cluster, c': Cluster, name: string)
    requires Same(At(c', Key(ClusterBindingKind, "", name)), At(c, Key(ClusterBindingKind, "", name)))
    ensures SubjectsAt(c', name) == SubjectsAt(c, name)
  {
  }

  /** Finalising one gateway takes another's subject away exactly when both share service-account
      name and namespace, and so share the subject. */
  lemma DeletionTakesExactly(c: Cluster, id: Id, luck: seq<Luck>, other: Id, account: string)
    requires Sound(c) && HasGateway(c, id) && Complete(luck)
    requires GatewayAt(c, id).deleting && FINALIZER in GatewayAt(c, id).finalizers
    requires BindingOf(id, GatewayAt(c, id)) in c.store && Bound(c, account, other)
    ensures !Bound(Reconciled(c, id, luck), account, other)
            <==> account == AccountName(id, GatewayAt(c, id).spec) && other.ns == id.ns
  {
    var c' := Reconciled(c, id, luck);
    var mine := AccountName(id, GatewayAt(c, id).spec);
    DeletionCompletesExactly(c, id, luck);
    WithoutMember(SubjectsAt(c, mine), mine, id.ns, AccountSubject(account, other.ns));
    if account != mine {
      var key := Key(ClusterBindingKind, "", account);
      ReconcileReachesTheGoal(c, id, luck);
      assert GoalAt(c, id, key) == At(c, key);
      SameSubjects(c, c', account);
    }
  }

  lemma BlockedDeletion(c: Cluster, id: Id, luck: seq<Luck>)
    requires Sound(c) && HasGateway(c, id) && Complete(luck)
    requires GatewayAt(c, id).deleting && FINALIZER in GatewayAt(c, id).finalizers
    requires BindingOf(id, GatewayAt(c, id)) !in c.store
    ensures Run(c, id, Reading, luck) == (c, Idle(true))
  {
    LoadIsDefaulted(c, id);
    var (c1, p1) := Step(c, id, Reading, luck[0]);
    assert c1 == c && p1 == Finalizing(Load(c.store[GatewayKey(id)]));
    var (c2, p2) := Step(c1, id, p1, luck[1..][0]);
    assert c2 == c && p2 == Idle(true);
    assert Run(c, id, Reading, luck) == Run(c1, id, p1, luck[1..]) == Run(c2, id, p2, luck[1..][1..]);
    IdleRun(c2, id, p2, luck[1..][1..]);
  }

  // ----- what the status says -----

  lemma {:induction false} RunKeepsSurroundings(c: Cluster, id: Id, p: Proc, luck: seq<Luck>)
    ensures var c' := Run(c, id, p, luck).0; c'.namespaces == c.namespaces && c'.keda == c.keda
    decreases |luck|
  {
    if luck != [] {
      var (c1, p1) := Step(c, id, p, luck[0]);
      EffectIsLocal(c, Request(id, p, luck[0]));
      RunKeepsSurroundings(c1, id, p1, luck[1..]);
    }
  }

  /** The status of a gateway at rest, read against the cluster around it. */
  ghost predicate Truthful(c: Cluster, id: Id)
    requires HasGateway(c, id)
  {
    var gw := GatewayAt(c, id);
    var verdict, account := VerdictOf(gw.spec, c.keda), AccountName(id, gw.spec);
    && Shows(gw.status, verdict)
    && gw.status.generation == gw.generation
    && gw.status.mode == EffectiveMode(gw.spec)
    && (HpaKey(id) in c.store <==> verdict == HpaReady)
    && (ScaledKey(id) in c.store <==> verdict == KedaReady)
    && (gw.status.deployed ==>
          && (forall kind | kind in {AccountKind, ConfigKind, DeploymentKind, ServiceKind} ::
              KeyOf(kind, id, gw.spec) in c.store)
          && (RbacWanted(gw.spec) ==> Bound(c, account, id)))
  }

  lemma SettledBindingIsBound(c: Cluster, id: Id, gw: Gateway)
    requires Settled(c, id, gw, ClusterBindingKind) && Validate(gw.spec).None? && RbacWanted(gw.spec) && Typed(c)
    ensures Bound(c, AccountName(id, gw.spec), id)
  {
  }

  lemma RestingStatus(c: Cluster, id: Id)
    requires Rest(c, id) && !Inactive(c, id)
    ensures var gw := GatewayAt(c, id);
            Shows(gw.status, VerdictOf(gw.spec, c.keda)) && gw.status.generation == gw.generation
            && gw.status.mode == EffectiveMode(gw.spec)
  {
    var gw := GatewayAt(c, id);
    DefaultsAreStable(id, gw.spec);
    assert Marked(Defaulted(gw), c.keda, 0) == gw.status;
    MarkNoopExactly(gw.status, VerdictOf(Defaulted(gw).spec, c.keda), gw.generation, EffectiveMode(gw.spec), 0);
  }

  lemma SettledAutoscalers(c: Cluster, id: Id, gw: Gateway)
    requires Settled(c, id, gw, HpaKind) && Settled(c, id, gw, ScaledKind)
    ensures HpaKey(id) in c.store <==> VerdictOf(gw.spec, c.keda) == HpaReady
    ensures ScaledKey(id) in c.store <==> VerdictOf(gw.spec, c.keda) == KedaReady
  {
  }

  lemma RestIsTruthful(c: Cluster, id: Id)
    requires Sound(c) && Rest(c, id) && !Inactive(c, id)
    ensures Truthful(c, id)
  {
    var gw := GatewayAt(c, id);
    var d := Defaulted(gw);
    DefaultsAreStable(id, gw.spec);
    RestingStatus(c, id);
    assert forall kind | kind != GatewayKind :: Settled(c, id, d, kind);
    SettledAutoscalers(c, id, d);
    if gw.status.deployed {
      forall kind | kind in {AccountKind, ConfigKind, DeploymentKind, ServiceKind}
        ensures KeyOf(kind, id, gw.spec) in c.store
      {
        SettledIsThere(c, id, d, kind);
      }
      if RbacWanted(gw.spec) {
        SettledBindingIsBound(c, id, d);
      }
    }
  }

  lemma SettledIsThere(c: Cluster, id: Id, gw: Gateway, kind: Kind)
    requires Settled(c, id, gw, kind) && Validate(gw.spec).None?
    requires kind in {AccountKind, ConfigKind, DeploymentKind, ServiceKind}
    ensures KeyOf(kind, id, gw.spec) in c.store
  {
  }

  /** The gateway survives a reconcile, with the finalizer and the same decisions to make. */
  lemma ReconciledIsActive(c: Cluster, id: Id, luck: seq<Luck>)
    requires Sound(c) && !Panics(c, id) && Complete(luck)
    requires !Inactive(c, id) && !GatewayAt(c, id).deleting
    ensures var c' := Reconciled(c, id, luck);
            && Adopted(c', id) && !Inactive(c', id) && c'.keda == c.keda
            && GatewayAt(c', id).spec in {GatewayAt(c, id).spec, SetDefaults(GatewayAt(c, id).spec)}
  {
    ReconcileReachesTheGoal(c, id, luck);
    RunKeepsSurroundings(c, id, Reading, luck);
    assert Same(At(Reconciled(c, id, luck), GatewayKey(id)), GoalAt(c, id, GatewayKey(id)));
  }

  /** After a reconcile without failures the status tells the truth: which of the five profiles it
      shows says exactly which autoscaler exists, and a gateway called deployed has its objects. */
  lemma StatusTellsTheTruth(c: Cluster, id: Id, luck: seq<Luck>)
    requires Sound(c) && !Panics(c, id) && Complete(luck)
    requires !Inactive(c, id) && !GatewayAt(c, id).deleting
    ensures var c' := Reconciled(c, id, luck);
            && HasGateway(c', id) && Adopted(c', id) && Truthful(c', id)
            && VerdictOf(GatewayAt(c', id).spec, c'.keda) == VerdictOf(GatewayAt(c, id).spec, c.keda)
  {
    var c' := Reconciled(c, id, luck);
    ReconcileReachesTheGoal(c, id, luck);
    RunKeepsGoal(c, id, Reading, luck);
    ReconciledIsActive(c, id, luck);
    DefaultsAreStable(id, GatewayAt(c, id).spec);
    RestIsTruthful(c', id);
  }

  // ----- quiescence -----

  /** A reconcile of a cluster at rest, between two calls that change nothing. */
  ghost predicate Quiet(c: Cluster, id: Id, p: Proc) {
    && Tracking(c, id, p)
    && !p.Unbinding? && !p.Releasing? && !p.Adopting? && !p.Rereading?
    && (p.Running? ==> p.pending.Nothing?)
  }

  /** The call asks for nothing but information, or for an account that is already there. */
  predicate Harmless(c: Cluster, call: Call) {
    Target(call).None? || (call.Create? && call.key.kind == AccountKind && call.key in c.store)
  }

  ghost predicate WritesNothing(c: Cluster, id: Id, p: Proc, luck: seq<Luck>)
    decreases |luck|
  {
    luck == [] ||
    (&& Harmless(c, Request(id, p, luck[0]))
     && var (c', p') := Step(c, id, p, luck[0]);
        WritesNothing(c', id, p', luck[1..]))
  }

  /** A map with at most one entry has only one order. */
  predicate OneEnvAtMost(c: Cluster, id: Id) {
    HasGateway(c, id) ==> |GatewayAt(c, id).spec.env| <= 1
  }

  /** This step does not depend on the order of the environment. */
  predicate Orderless(c: Cluster, id: Id, p: Proc) {
    OneEnvAtMost(c, id) || !p.Running? || p.todo == [] || p.todo[0] != Apply(DeploymentKind)
  }

  /** A lookup that finds the object as it should be is all there is to the command. */
  lemma QuietLookup(c: Cluster, id: Id, p: Proc, l: Luck)
    requires p.Running? && p.todo != [] && p.todo[0].Apply? && p.pending.Nothing?
    requires var key := KeyOf(p.todo[0].kind, id, p.m.gw.spec);
             key in c.store && Mutate(p.todo[0].kind, id, p.m.gw, l.order, c.store[key].body) == c.store[key].body
    ensures var (c', p') := Step(c, id, p, l);
            c' == c && Target(Request(id, p, l)).None? && (p'.Running? ==> p'.pending.Nothing?)
  {
  }

  /** A settled object is left as it is, whatever the order drawn. */
  lemma SettledIsUnmoved(c: Cluster, id: Id, gw: Gateway, kind: Kind, order: seq<EnvVar>)
    requires Typed(c) && DutyOf(kind, gw.spec, c.keda) == Maintain && Settled(c, id, gw, kind)
    requires |gw.spec.env| <= 1 || kind != DeploymentKind
    ensures var body := c.store[KeyOf(kind, id, gw.spec)].body; Mutate(kind, id, gw, order, body) == body
  {
    var key := KeyOf(kind, id, gw.spec);
    var body := c.store[key].body;
    assert key.kind == kind && Fits(kind, body);
    var settled :| Mutate(kind, id, gw, settled, body) == body;
    MutateSettles(kind, id, gw, settled, order, body);
  }

  lemma QuietApply(c: Cluster, id: Id, p: Proc, l: Luck)
    requires Sound(c) && Quiet(c, id, p) && Orderless(c, id, p)
    requires p.Running? && p.todo[0].Apply? && Settled(c, id, p.m.gw, p.todo[0].kind)
    ensures var (c', p') := Step(c, id, p, l);
            c' == c && Target(Request(id, p, l)).None? && (p'.Running? ==> p'.pending.Nothing?)
  {
    assert |p.m.gw.spec.env| <= 1 || p.todo[0].kind != DeploymentKind;
    assert Dutiful(p.m.gw.spec, c.keda, p.todo[0]);
    SettledIsUnmoved(c, id, p.m.gw, p.todo[0].kind, l.order);
    QuietLookup(c, id, p, l);
  }

  lemma QuietCommand(c: Cluster, id: Id, p: Proc, l: Luck)
    requires Sound(c) && Rest(c, id) && Quiet(c, id, p) && Orderless(c, id, p)
    requires p.Running? && p.todo[0] != ReportStatus
    ensures var (c', p') := Step(c, id, p, l);
            c' == c && Harmless(c, Request(id, p, l)) && (p'.Running? ==> p'.pending.Nothing?)
  {
    LoadIsDefaulted(c, id);
    var gw, kind := p.m.gw, KindOf(p.todo[0]);
    assert Dutiful(gw.spec, c.keda, p.todo[0]);
    assert kind != GatewayKind && Settled(c, id, gw, kind);
    if p.todo[0].Apply? {
      QuietApply(c, id, p, l);
    } else {
      QuietOther(c, id, p, l);
    }
  }

  lemma QuietOther(c: Cluster, id: Id, p: Proc, l: Luck)
    requires Sound(c) && Quiet(c, id, p) && p.Running? && !p.todo[0].Apply? && p.todo[0] != ReportStatus
    requires Settled(c, id, p.m.gw, KindOf(p.todo[0])) && Dutiful(p.m.gw.spec, c.keda, p.todo[0])
    ensures var (c', p') := Step(c, id, p, l);
            c' == c && Harmless(c, Request(id, p, l)) && (p'.Running? ==> p'.pending.Nothing?)
  {
  }

  lemma QuietReport(c: Cluster, id: Id, p: Proc, l: Luck)
    requires Rest(c, id) && Tracking(c, id, p) && p.Running? && p.todo[0] == ReportStatus
    ensures Request(id, p, l) == Skip
  {
    ReportComesLast(p.todo);
    EverythingSettledBeforeReport(c, id, p, HpaKind);
    LoadIsDefaulted(c, id);
    assert Marked(p.m.gw, c.keda, l.now) == GatewayAt(c, id).status;
  }

  lemma StepStaysOnTrack(c: Cluster, id: Id, p: Proc, l: Luck)
    requires Sound(c) && Tracking(c, id, p) && !p.Idle?
    ensures Tracking(Step(c, id, p, l).0, id, Step(c, id, p, l).1)
  {
    EveryStepIsGood(c, id, p, l);
  }

  lemma QuietRead(c: Cluster, id: Id, p: Proc, l: Luck)
    requires Sound(c) && Rest(c, id) && Quiet(c, id, p) && !p.Idle? && !p.Running?
    ensures var (c', p') := Step(c, id, p, l);
            c' == c && Target(Request(id, p, l)).None?
            && !p'.Unbinding? && !p'.Releasing? && !p'.Adopting? && !p'.Rereading?
            && (p'.Running? ==> p'.pending.Nothing?)
  {
    if p.Reading? {
      assert GatewayKey(id) in c.store ==> Fits(GatewayKind, c.store[GatewayKey(id)].body);
    } else {
      LoadIsDefaulted(c, id);
      DefaultsAreStable(id, GatewayAt(c, id).spec);
    }
  }

  lemma QuietStep(c: Cluster, id: Id, p: Proc, l: Luck)
    requires Sound(c) && Rest(c, id) && Quiet(c, id, p) && !p.Idle? && Orderless(c, id, p)
    ensures var (c', p') := Step(c, id, p, l);
            c' == c && Harmless(c, Request(id, p, l)) && Quiet(c, id, p')
  {
    StepStaysOnTrack(c, id, p, l);
    if !p.Running? {
      QuietRead(c, id, p, l);
    } else if p.todo[0] == ReportStatus {
      QuietReport(c, id, p, l);
    } else {
      QuietCommand(c, id, p, l);
    }
  }

  lemma {:induction false} QuietRun(c: Cluster, id: Id, p: Proc, luck: seq<Luck>)
    requires Sound(c) && Rest(c, id) && Quiet(c, id, p) && OneEnvAtMost(c, id)
    ensures Run(c, id, p, luck).0 == c && WritesNothing(c, id, p, luck)
    decreases |luck|
  {
    if luck != [] {
      if p.Idle? {
        assert Step(c, id, p, luck[0]) == (c, p);
        QuietRun(c, id, p, luck[1..]);
      } else {
        QuietStep(c, id, p, luck[0]);
        QuietRun(c, id, Step(c, id, p, luck[0]).1, luck[1..]);
      }
    }
  }

  lemma QuietForever(c: Cluster, id: Id, later: seq<seq<Luck>>)
    requires Sound(c) && Rest(c, id) && OneEnvAtMost(c, id)
    ensures Attempts(c, id, later) == c
    ensures forall i | 0 <= i < |later| :: WritesNothing(c, id, Reading, later[i])
  {
    forall luck
      ensures Run(c, id, Reading, luck).0 == c && WritesNothing(c, id, Reading, luck)
    {
      QuietRun(c, id, Reading, luck);
    }
    QuietAttempts(c, id, later);
  }

  /** After one reconcile without failures, further reconciles write nothing at all, with or
      without failures of their own, as long as the user sets at most one environment variable. */
  lemma ReconcilingGoesQuiet(c: Cluster, id: Id, first: seq<Luck>, later: seq<seq<Luck>>)
    requires Sound(c) && !Panics(c, id) && Complete(first) && OneEnvAtMost(c, id)
    ensures var settled := Reconciled(c, id, first);
            && Attempts(settled, id, later) == settled
            && forall i | 0 <= i < |later| :: WritesNothing(settled, id, Reading, later[i])
  {
    ReconcileReachesTheGoal(c, id, first);
    RunKeepsGoal(c, id, Reading, first);
    EnvStays(c, id, first);
    QuietForever(Reconciled(c, id, first), id, later);
  }

  lemma {:induction false} QuietAttempts(c: Cluster, id: Id, later: seq<seq<Luck>>)
    requires forall luck :: Run(c, id, Reading, luck).0 == c
    ensures Attempts(c, id, later) == c
    decreases |later|
  {
    if later != [] {
      assert Run(c, id, Reading, later[0]).0 == c;
      QuietAttempts(c, id, later[1..]);
    }
  }

  lemma EnvStays(c: Cluster, id: Id, luck: seq<Luck>)
    requires Sound(c) && !Panics(c, id) && Complete(luck) && OneEnvAtMost(c, id)
    ensures OneEnvAtMost(Reconciled(c, id, luck), id)
  {
    ReconcileReachesTheGoal(c, id, luck);
    var c' := Reconciled(c, id, luck);
    assert Same(At(c', GatewayKey(id)), GoalAt(c, id, GatewayKey(id)));
  }

  // ----- exactly when it goes quiet -----

  lemma {:induction false} DistinctCountOnce(s: seq<EnvVar>, x: EnvVar)
    requires NoDuplicates(s)
    ensures multiset(s)[x] <= 1
  {
    if s != [] {
      DistinctCountOnce(s[1..], x);
      assert s == [s[0]] + s[1..];
      assert s[0] !in s[1..];
      assert multiset(s[1..])[s[0]] == 0;
    }
  }

  /** Two distinct variables have another order. */
  lemma AnotherOrder(entries: seq<EnvVar>, order: seq<EnvVar>) returns (other: seq<EnvVar>)
    requires NoDuplicates(entries) && |entries| >= 2
    ensures Arrange(entries, other) != Arrange(entries, order)
  {
    var a := Arrange(entries, order);
    assert |a| == |multiset(a)| == |multiset(entries)| == |entries|;
    other := [a[1], a[0]] + a[2..];
    assert a == [a[0], a[1]] + a[2..];
    assert multiset(other) == multiset(a);
    DistinctCountOnce(entries, a[0]);
    assert a[0] != a[1] by {
      assert multiset(a) == multiset{a[0], a[1]} + multiset(a[2..]);
    }
    assert other[0] != a[0];
  }

  lemma LookupDiffers(c: Cluster, id: Id, p: Proc, l: Luck)
    requires p.Running? && p.todo != [] && p.todo[0] == Apply(DeploymentKind) && p.pending.Nothing? && l.fault.Healthy?
    requires var key := DeploymentKey(id);
             key in c.store && Mutate(DeploymentKind, id, p.m.gw, l.order, c.store[key].body) != c.store[key].body
    ensures var (c', p') := Step(c, id, p, l);
            c' == c && p'.Running? && p'.todo == p.todo && p'.pending.Replace?
  {
  }

  lemma ReplacingIsNoLookup(c: Cluster, id: Id, p: Proc, l: Luck)
    requires p.Running? && p.todo != [] && p.todo[0].Apply? && p.pending.Replace?
    ensures !Harmless(c, Request(id, p, l))
  {
  }

  /** The call after the lookup is the write. */
  lemma RestlessWrite(c: Cluster, id: Id, p: Proc, luck: seq<Luck>)
    requires Sound(c) && Quiet(c, id, p) && p.Running? && p.todo[0] == Apply(DeploymentKind)
    requires |luck| >= 2 && luck[0].fault.Healthy?
    requires var key := DeploymentKey(id);
             key in c.store && Mutate(DeploymentKind, id, p.m.gw, luck[0].order, c.store[key].body) != c.store[key].body
    ensures !WritesNothing(c, id, p, luck)
  {
    LookupDiffers(c, id, p, luck[0]);
    var (c1, p1) := Step(c, id, p, luck[0]);
    ReplacingIsNoLookup(c1, id, p1, luck[1..][0]);
    assert !WritesNothing(c1, id, p1, luck[1..]);
  }

  lemma {:induction false} RestlessRun(c: Cluster, id: Id, p: Proc, luck: seq<Luck>)
    requires Sound(c) && Rest(c, id) && Quiet(c, id, p) && !Inactive(c, id) && !Panics(c, id)
    requires Validate(GatewayAt(c, id).spec).None?
    requires p.Running? ==> Apply(DeploymentKind) in p.todo
    requires !p.Idle? && !p.Finalizing? && AllHealthy(luck) && |luck| > CallsLeft(p)
    requires DeploymentKey(id) in c.store
    requires forall i | 0 <= i < |luck| ::
               Mutate(DeploymentKind, id, Defaulted(GatewayAt(c, id)), luck[i].order, c.store[DeploymentKey(id)].body)
               != c.store[DeploymentKey(id)].body
    ensures !WritesNothing(c, id, p, luck)
    decreases |luck|
  {
    var (c1, p1) := Step(c, id, p, luck[0]);
    StepGetsCloser(c, id, p, luck[0]);
    LoadIsDefaulted(c, id);
    DefaultsAreStable(id, GatewayAt(c, id).spec);
    if p.Running? && p.todo[0] == Apply(DeploymentKind) {
      RestlessWrite(c, id, p, luck);
    } else {
      QuietStep(c, id, p, luck[0]);
      RestlessStep(c, id, p, luck[0]);
      RestlessRun(c, id, p1, luck[1..]);
    }
  }

  lemma DeploymentIsPlanned(spec: Spec)
    requires Validate(spec).None?
    ensures Apply(DeploymentKind) in Plan(spec)
  {
  }

  /** A command that is not this one leaves this one to be done. */
  lemma CommandsRemain(c: Cluster, id: Id, p: Proc, l: Luck, kind: Kind)
    requires p.Running? && Apply(kind) in p.todo && p.todo[0] != Apply(kind) && p.todo[0] != ReportStatus
    ensures var p' := Step(c, id, p, l).1;
            p' == Idle(true)
            || (p'.Running? && Apply(kind) in p'.todo && (p'.todo[0] == Apply(kind) ==> p'.pending.Nothing?))
  {
    assert Apply(kind) in p.todo[1..];
    assert p.todo == [p.todo[0]] + p.todo[1..];
  }

  /** Where nothing panics, a command that meets no failure does not end the reconcile. */
  lemma CommandGoesOn(c: Cluster, id: Id, p: Proc, l: Luck)
    requires Sound(c) && Tracking(c, id, p) && p.Running? && p.todo[0] != ReportStatus
    requires !Panics(c, id) && l.fault.Healthy?
    ensures !Step(c, id, p, l).1.Idle?
  {
    CommandOutcome(c, id, p, l);
    if DutyOf(ServiceKind, p.m.gw.spec, c.keda) == Maintain && WouldPanic(c, id, p.m.gw) {
      PanicIsPanic(c, id, p.m);
    }
  }

  lemma RestlessCommand(c: Cluster, id: Id, p: Proc, l: Luck)
    requires Sound(c) && Tracking(c, id, p) && !Panics(c, id) && p.Running? && l.fault.Healthy?
    requires Apply(DeploymentKind) in p.todo && p.todo[0] != Apply(DeploymentKind)
    ensures var p' := Step(c, id, p, l).1;
            p'.Running? && Apply(DeploymentKind) in p'.todo
  {
    ReportComesLast(p.todo);
    assert p.todo[0] != ReportStatus;
    CommandGoesOn(c, id, p, l);
    CommandsRemain(c, id, p, l, DeploymentKind);
  }

  lemma RestlessStep(c: Cluster, id: Id, p: Proc, l: Luck)
    requires Sound(c) && Rest(c, id) && Quiet(c, id, p) && !Inactive(c, id) && !Panics(c, id)
    requires Validate(GatewayAt(c, id).spec).None?
    requires p.Running? ==> Apply(DeploymentKind) in p.todo && p.todo[0] != Apply(DeploymentKind)
    requires !p.Idle? && !p.Finalizing? && l.fault.Healthy?
    ensures var p' := Step(c, id, p, l).1;
            !p'.Idle? && !p'.Finalizing? && (p'.Running? ==> Apply(DeploymentKind) in p'.todo)
  {
    if p.Running? {
      RestlessCommand(c, id, p, l);
    } else {
      LoadIsDefaulted(c, id);
      DefaultsAreStable(id, GatewayAt(c, id).spec);
      DeploymentIsPlanned(Load(c.store[GatewayKey(id)]).gw.spec);
    }
  }

  lemma OrderShows(c: Cluster, id: Id, gw: Gateway) returns (other: seq<EnvVar>)
    requires Sound(c) && Settled(c, id, gw, DeploymentKind) && Validate(gw.spec).None?
    requires NoDuplicates(gw.spec.env) && |gw.spec.env| >= 2
    ensures DeploymentKey(id) in c.store
    ensures Mutate(DeploymentKind, id, gw, other, c.store[DeploymentKey(id)].body) != c.store[DeploymentKey(id)].body
  {
    var body := c.store[DeploymentKey(id)].body;
    assert Fits(DeploymentKind, body);
    var order :| Mutate(DeploymentKind, id, gw, order, body) == body;
    other := AnotherOrder(gw.spec.env, order);
    var n := |FixedEnv(gw.spec)|;
    assert TemplateOf(gw.spec, order).env[n..] == Arrange(gw.spec.env, order);
    assert TemplateOf(gw.spec, other).env[n..] == Arrange(gw.spec.env, other);
  }

  /** A valid gateway at rest is left alone by every later reconcile exactly when it sets at most
      one environment variable: with more, some map order makes a reconcile write the deployment. */
  lemma QuietExactly(c: Cluster, id: Id)
    requires Sound(c) && Rest(c, id) && !Inactive(c, id) && !Panics(c, id)
    requires Validate(GatewayAt(c, id).spec).None? && NoDuplicates(GatewayAt(c, id).spec.env)
    ensures (forall luck :: WritesNothing(c, id, Reading, luck)) <==> |GatewayAt(c, id).spec.env| <= 1
  {
    var gw := Defaulted(GatewayAt(c, id));
    DefaultsAreStable(id, GatewayAt(c, id).spec);
    if |gw.spec.env| <= 1 {
      forall luck
        ensures WritesNothing(c, id, Reading, luck)
      {
        QuietRun(c, id, Reading, luck);
      }
    } else {
      assert Settled(c, id, gw, DeploymentKind);
      var other := OrderShows(c, id, gw);
      var luck := seq(50, i => Luck(Healthy, other, 0));
      RestlessRun(c, id, Reading, luck);
      assert !WritesNothing(c, id, Reading, luck);
    }
  }
}
