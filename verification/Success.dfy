/** When a reconcile that meets no failure succeeds: exactly the two situations in which it does not. */
module Success {
  import opened Values
  import opened GatewaySpec
  import opened Objects
  import opened ApiServer
  import opened Protocol
  import opened Interleavings
  import opened Convergence
  import opened Reconciliation

  /** A deletion that cannot be finalised because the cluster role binding is missing. */
  predicate Blocked(c: Cluster, id: Id) {
    && HasGateway(c, id) && GatewayAt(c, id).deleting && FINALIZER in GatewayAt(c, id).finalizers
    && BindingOf(id, GatewayAt(c, id)) !in c.store
  }

  // ----- nothing in the way -----

  predicate Unhindered(c: Cluster, id: Id, p: Proc) {
    && !Panics(c, id)
    && p != Idle(true)
    && (p.Reading? || p.Finalizing? ==> !Blocked(c, id))
  }

  lemma UnhinderedCommand(c: Cluster, id: Id, p: Proc, l: Luck)
    requires Sound(c) && Tracking(c, id, p) && p.Running? && Unhindered(c, id, p) && l.fault.Healthy?
    ensures Step(c, id, p, l).1 != Idle(true)
  {
    if p.todo[0] == ReportStatus {
      ReportTrackedStep(c, id, p, l);
    } else {
      CommandGoesOn(c, id, p, l);
    }
  }

  lemma UnhinderedStep(c: Cluster, id: Id, p: Proc, l: Luck)
    requires Sound(c) && Tracking(c, id, p) && !p.Idle? && Unhindered(c, id, p) && l.fault.Healthy?
    ensures var (c', p') := Step(c, id, p, l); Sound(c') && Tracking(c', id, p') && Unhindered(c', id, p')
  {
    StepIsClean(c, id, p, l);
    StepNeverRewinds(c, id, p, l);
    match p
    case Running(_, _, _, _) => UnhinderedCommand(c, id, p, l);
    case Unbinding(_, _) => UnbindingStep(c, id, p, l);
    case Releasing(_) => UnhinderedRelease(c, id, p, l);
    case Adopting(_) => AdoptingStep(c, id, p, l);
    case _ => UnhinderedRead(c, id, p, l);
  }

  lemma StepIsClean(c: Cluster, id: Id, p: Proc, l: Luck)
    requires Sound(c) && Tracking(c, id, p) && !p.Idle?
    ensures var (c', p') := Step(c, id, p, l); Sound(c') && Tracking(c', id, p') && (Panics(c', id) ==> Panics(c, id))
  {
    EveryStepIsGood(c, id, p, l);
  }

  /** Only the first read leads to a finalisation. */
  lemma StepNeverRewinds(c: Cluster, id: Id, p: Proc, l: Luck)
    requires !p.Idle?
    ensures var (c', p') := Step(c, id, p, l); !p'.Reading? && (p'.Finalizing? ==> p.Reading? && c' == c)
  {
  }

  lemma UnhinderedRelease(c: Cluster, id: Id, p: Proc, l: Luck)
    requires p.Releasing? && Tracking(c, id, p) && l.fault.Healthy?
    ensures Step(c, id, p, l).1 == Idle(false)
  {
    assert InSync(c, id, p.m);
  }

  lemma UnhinderedRead(c: Cluster, id: Id, p: Proc, l: Luck)
    requires Sound(c) && Tracking(c, id, p) && Unhindered(c, id, p) && l.fault.Healthy?
    requires p.Reading? || p.Finalizing? || p.Checking? || p.Rereading?
    ensures var (c', p') := Step(c, id, p, l); c' == c && p' != Idle(true)
  {
    if HasGateway(c, id) {
      LoadIsDefaulted(c, id);
    }
  }

  lemma {:induction false} UnhinderedRun(c: Cluster, id: Id, p: Proc, luck: seq<Luck>)
    requires Sound(c) && Tracking(c, id, p) && Unhindered(c, id, p) && AllHealthy(luck)
    ensures Run(c, id, p, luck).1 != Idle(true)
    decreases |luck|
  {
    if luck == [] || p.Idle? {
      IdleRun(c, id, p, luck);
    } else {
      UnhinderedStep(c, id, p, luck[0]);
      var (c1, p1) := Step(c, id, p, luck[0]);
      UnhinderedRun(c1, id, p1, luck[1..]);
    }
  }

  // ----- heading for the nil map -----

  /** The service is still to be built, and building it will panic. */
  predicate Doomed(c: Cluster, id: Id, p: Proc) {
    && Panics(c, id)
    && (p.Reading? || p.Checking? || p.Adopting? || p.Rereading?
        || (p.Running? && Apply(ServiceKind) in p.todo && (p.todo[0] == Apply(ServiceKind) ==> p.pending.Nothing?)))
  }

  lemma ServiceIsPlanned(spec: Spec)
    requires Validate(spec).None?
    ensures Apply(ServiceKind) in Plan(spec) && Plan(spec)[0] != Apply(ServiceKind)
  {
    assert Plan(spec)[|Plan(spec)| - 2] == Apply(ServiceKind);
  }

  lemma DoomedCommand(c: Cluster, id: Id, p: Proc, l: Luck)
    requires Sound(c) && Tracking(c, id, p) && p.Running? && Doomed(c, id, p) && p.todo[0] != Apply(ServiceKind)
    ensures var (c', p') := Step(c, id, p, l); p' == Idle(true) || Doomed(c', id, p')
  {
    var (c', p') := Step(c, id, p, l);
    var gw := p.m.gw;
    LoadIsDefaulted(c, id);
    assert Dutiful(gw.spec, c.keda, p.todo[0]);
    ReportComesLast(p.todo);
    assert p.todo[0] != ReportStatus;
    CommandOutcome(c, id, p, l);
    CommandsRemain(c, id, p, l, ServiceKind);
    if c' != c {
      PanicStays(c, c', id, gw, KindOf(p.todo[0]));
    }
  }

  lemma PanicStays(c: Cluster, c': Cluster, id: Id, gw: Gateway, kind: Kind)
    requires HasGateway(c, id) && !gw.deleting && Live(c, id) && gw == Defaulted(GatewayAt(c, id))
    requires Achieved(c, c', id, gw, kind) && kind != ServiceKind && kind != GatewayKind
    ensures Panics(c, id) ==> Panics(c', id)
  {
    assert At(c', GatewayKey(id)) == At(c, GatewayKey(id));
    PanicNeedsService(c, c', id, gw);
    LivePanics(c, id);
    LivePanics(c', id);
  }

  lemma DoomedService(c: Cluster, id: Id, p: Proc, l: Luck)
    requires Sound(c) && Tracking(c, id, p) && p.Running? && Doomed(c, id, p) && p.todo[0] == Apply(ServiceKind)
    ensures Step(c, id, p, l).1 == Idle(true)
  {
    LoadIsDefaulted(c, id);
    LivePanics(c, id);
  }

  lemma DoomedApproach(c: Cluster, id: Id, p: Proc, l: Luck)
    requires Sound(c) && Tracking(c, id, p) && !p.Running? && Doomed(c, id, p) && l.fault.Healthy?
    ensures var (c', p') := Step(c, id, p, l); Doomed(c', id, p')
  {
    var (c', p') := Step(c, id, p, l);
    var gw := GatewayAt(c, id);
    LoadIsDefaulted(c, id);
    DefaultsAreStable(id, gw.spec);
    LivePanics(c, id);
    ServiceIsPlanned(Defaulted(gw).spec);
    if p.Adopting? {
      assert GatewayAt(c', id) == WithFinalizer(gw);
      assert At(c', KeyOf(ServiceKind, id, Defaulted(gw).spec)) == At(c, KeyOf(ServiceKind, id, Defaulted(gw).spec));
      assert WouldPanic(c', id, Defaulted(WithFinalizer(gw))) == WouldPanic(c, id, Defaulted(gw));
      LivePanics(c', id);
    }
  }

  lemma {:induction false} DoomedRun(c: Cluster, id: Id, p: Proc, luck: seq<Luck>)
    requires Sound(c) && Tracking(c, id, p) && Doomed(c, id, p) && AllHealthy(luck)
    ensures Run(c, id, p, luck).1 != Idle(false)
    decreases |luck|
  {
    if luck != [] {
      EveryStepIsGood(c, id, p, luck[0]);
      var (c1, p1) := Step(c, id, p, luck[0]);
      if p.Running? && p.todo[0] == Apply(ServiceKind) {
        DoomedService(c, id, p, luck[0]);
      } else if p.Running? {
        DoomedCommand(c, id, p, luck[0]);
      } else {
        DoomedApproach(c, id, p, luck[0]);
      }
      if p1.Idle? {
        IdleRun(c1, id, p1, luck[1..]);
      } else {
        DoomedRun(c1, id, p1, luck[1..]);
      }
    }
  }

  /** A reconcile whose calls all go through returns without an error exactly when it neither writes
      a label into a nil map nor has to finalise without a binding. */
  lemma ReconcileSucceedsExactly(c: Cluster, id: Id, luck: seq<Luck>)
    requires Sound(c) && Complete(luck)
    ensures Run(c, id, Reading, luck).1 == Idle(false) <==> !Panics(c, id) && !Blocked(c, id)
  {
    EveryReconcileEnds(c, id, Reading, luck);
    if Panics(c, id) {
      DoomedRun(c, id, Reading, luck);
    } else if Blocked(c, id) {
      BlockedDeletion(c, id, luck);
    } else {
      UnhinderedRun(c, id, Reading, luck);
    }
  }
}
