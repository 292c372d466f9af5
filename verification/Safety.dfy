/** What no interleaving of reconciles, failures and outside changes can break. */
module Safety {
  import opened Values
  import opened GatewaySpec
  import opened Conditions
  import opened Autoscalers
  import opened Subjects
  import opened Objects
  import opened ApiServer
  import opened Protocol
  import opened Interleavings

  lemma {:induction false} InvAlways(s: System, es: seq<Event>)
    requires Inv(s)
    ensures Inv(DoAll(s, es))
    decreases |es|
  {
    if es != [] {
      DoKeepsInv(s, es[0]);
      InvAlways(Do(s, es[0]), es[1..]);
    }
  }

  /** A cluster the controller may be started on. */
  ghost predicate Acceptable(c: Cluster, accounts: map<Id, string>) {
    && Sound(c) && Tidy(c) && Separate(accounts)
    && forall id | id in accounts ::
         && !(HpaKey(id) in c.store && ScaledKey(id) in c.store)
         && (Bound(c, accounts[id], id) ==> Adopted(c, id))
         && Healthily(c, accounts[id], id)
  }

  ghost function StartUp(c: Cluster, accounts: map<Id, string>): System {
    System(c, map id | id in accounts :: Idle(false), accounts)
  }

  lemma StartUpIsReachable(c: Cluster, accounts: map<Id, string>)
    requires Acceptable(c, accounts)
    ensures Inv(StartUp(c, accounts))
  {
  }

  /** A native HPA and a ScaledObject of one gateway never exist together, at any point of any run. */
  lemma AutoscalersNeverMeet(c: Cluster, accounts: map<Id, string>, es: seq<Event>, id: Id)
    requires Acceptable(c, accounts) && id in accounts
    ensures var s := DoAll(StartUp(c, accounts), es);
            !(HpaKey(id) in s.c.store && ScaledKey(id) in s.c.store)
  {
    StartUpIsReachable(c, accounts);
    InvAlways(StartUp(c, accounts), es);
    AccountsStay(StartUp(c, accounts), es);
    var s := DoAll(StartUp(c, accounts), es);
    assert Local(s.c, s.accounts[id], id, s.procs[id]);
  }

  /** At any point of any run, a gateway whose subject is in its cluster role binding still exists
      and carries the finalizer; so once it is gone, so is its subject. */
  lemma FinalizerGuardsBinding(c: Cluster, accounts: map<Id, string>, es: seq<Event>, id: Id)
    requires Acceptable(c, accounts) && id in accounts
    ensures var s := DoAll(StartUp(c, accounts), es);
            && (Bound(s.c, accounts[id], id) ==> Adopted(s.c, id))
            && (GatewayKey(id) !in s.c.store ==> AccountSubject(accounts[id], id.ns) !in SubjectsAt(s.c, accounts[id]))
  {
    StartUpIsReachable(c, accounts);
    InvAlways(StartUp(c, accounts), es);
    AccountsStay(StartUp(c, accounts), es);
    var s := DoAll(StartUp(c, accounts), es);
    assert Local(s.c, s.accounts[id], id, s.procs[id]);
  }

  lemma {:induction false} AccountsStay(s: System, es: seq<Event>)
    ensures DoAll(s, es).accounts == s.accounts
    decreases |es|
  {
    if es != [] {
      AccountsStay(Do(s, es[0]), es[1..]);
    }
  }

  // ----- deletions -----

  /** A reconcile on its way through a deletion, or done: without an error only if the finalizer is off. */
  ghost predicate Deleting(s: System, id: Id) {
    && id in s.procs
    && match s.procs[id]
       case Reading => HasGateway(s.c, id) ==> GatewayAt(s.c, id).deleting
       case Finalizing(_) => true
       case Unbinding(_, _) => true
       case Releasing(_) => true
       case Idle(error) => error || !Adopted(s.c, id)
       case _ => false
  }

  /** No other reconcile of the gateway begins, and no gateway of its name is created before it is read. */
  ghost predicate SingleDeletion(s: System, es: seq<Event>, id: Id)
    requires id in s.procs
    decreases |es|
  {
    es == [] ||
    (&& es[0] != Begin(id)
     && (s.procs[id].Reading? && es[0].CreateGateway? ==> es[0].id != id)
     && id in Do(s, es[0]).procs && SingleDeletion(Do(s, es[0]), es[1..], id))
  }

  lemma OwnDeletionStep(s: System, l: Luck, id: Id)
    requires Typed(s.c) && Deleting(s, id)
    ensures Deleting(Do(s, Act(id, l)), id)
  {
    var p := s.procs[id];
    assert GatewayKey(id) in s.c.store ==> Fits(GatewayKind, s.c.store[GatewayKey(id)].body);
    if p.Unbinding? {
      EffectIsLocal(s.c, Request(id, p, l));
    }
  }

  lemma GatewaysAreSpared(c: Cluster, i: Id, p: Proc, l: Luck, id: Id)
    requires i != id
    ensures At(Step(c, i, p, l).0, GatewayKey(id)) == At(c, GatewayKey(id))
  {
    EffectIsLocal(c, Request(i, p, l));
  }

  lemma OutsidersKeepDeletion(s: System, e: Event, id: Id)
    requires Deleting(s, id) && e != Begin(id) && !e.Act?
    requires s.procs[id].Reading? && e.CreateGateway? ==> e.id != id
    ensures Deleting(Do(s, e), id)
  {
  }

  lemma DeletionStep(s: System, e: Event, id: Id)
    requires Typed(s.c) && Deleting(s, id) && e != Begin(id)
    requires s.procs[id].Reading? && e.CreateGateway? ==> e.id != id
    ensures Deleting(Do(s, e), id)
  {
    if !e.Act? {
      OutsidersKeepDeletion(s, e, id);
    } else if e.id == id {
      OwnDeletionStep(s, e.luck, id);
    } else if e.id in s.procs {
      GatewaysAreSpared(s.c, e.id, s.procs[e.id], e.luck, id);
    }
  }

  lemma {:induction false} DeletionGoesOn(s: System, es: seq<Event>, id: Id)
    requires Inv(s) && Deleting(s, id) && SingleDeletion(s, es, id)
    ensures Deleting(DoAll(s, es), id)
    decreases |es|
  {
    if es != [] {
      DeletionStep(s, es[0], id);
      DoKeepsInv(s, es[0]);
      DeletionGoesOn(Do(s, es[0]), es[1..], id);
    }
  }

  /** Whatever calls fail and whatever happens outside, the reconcile of a deletion that returns without
      an error leaves no finalizer and no subject behind; as long as either is there, it returns an error
      and is retried. */
  lemma DeletionsEndClean(s: System, es: seq<Event>, id: Id)
    requires Inv(s) && Deleting(s, id) && SingleDeletion(s, es, id)
    ensures var s' := DoAll(s, es);
            && Deleting(s', id)
            && (s'.procs[id] == Idle(false) ==> !Adopted(s'.c, id) && !Bound(s'.c, s.accounts[id], id))
            && (s'.procs[id].Idle? && Adopted(s'.c, id) ==> s'.procs[id] == Idle(true))
  {
    DeletionGoesOn(s, es, id);
    InvAlways(s, es);
    AccountsStay(s, es);
    assert Local(DoAll(s, es).c, s.accounts[id], id, DoAll(s, es).procs[id]);
  }

  // ----- the shared binding -----

  /** What one reconcile does to a shared binding never reorders, loses or duplicates the
      subjects of others, however the list changed since it was read. */
  lemma OthersKeepTheirPlaces(s: System, i: Id, l: Luck, name: string)
    requires Inv(s) && i in s.procs
    ensures var before, after := SubjectsAt(s.c, name), SubjectsAt(Do(s, Act(i, l)).c, name);
            && Without(after, s.accounts[i], i.ns) == Without(before, s.accounts[i], i.ns)
            && (name != s.accounts[i] ==> after == before)
            && NoDuplicates(after)
  {
    assert Local(s.c, s.accounts[i], i, s.procs[i]);
    BindingStep(s.c, s.accounts[i], i, s.procs[i], l, name);
    AddKeepsOthers(SubjectsAt(s.c, name), s.accounts[i], i.ns);
    WithoutTwice(SubjectsAt(s.c, name), s.accounts[i], i.ns);
    ActKeepsInv(s, i, l);
  }

  /** The gateway's own reconcile takes its subject out of the binding at this event: the update is
      based on the list as it is, and it gets through. */
  ghost predicate Unbinds(s: System, e: Event, id: Id) {
    && e.Act? && e.id == id && id in s.procs && s.procs[id].Unbinding?
    && !e.luck.fault.Lost? && Answer(s.c, Request(id, s.procs[id], e.luck)).Done?
  }

  /** Somebody else takes it out, or deletes the binding. */
  ghost predicate Dropped(s: System, e: Event, id: Id)
    requires id in s.accounts
  {
    var key := Key(ClusterBindingKind, "", s.accounts[id]);
    && Possible(s, e)
    && ((e.EditBinding? && e.name == s.accounts[id] && AccountSubject(s.accounts[id], id.ns) !in e.subjects)
        || (e.DeleteObject? && e.key == key))
  }

  ghost predicate StaysBound(s: System, es: seq<Event>, id: Id)
    requires id in s.accounts
    decreases |es|
  {
    es == [] || (!Unbinds(s, es[0], id) && !Dropped(s, es[0], id) && StaysBound(Do(s, es[0]), es[1..], id))
  }

  lemma OwnerMovesItsSubject(s: System, l: Luck, id: Id)
    requires Inv(s) && id in s.procs
    ensures var e, account := Act(id, l), s.accounts[id];
            && (Bound(s.c, account, id) ==> (!Bound(Do(s, e).c, account, id) <==> Unbinds(s, e, id)))
            && (!Bound(s.c, account, id) && Bound(Do(s, e).c, account, id) ==> s.procs[id].Running? && Adopted(s.c, id))
  {
    var c, account, p := s.c, s.accounts[id], s.procs[id];
    assert Local(c, account, id, p);
    WithoutMember(SubjectsAt(c, account), account, id.ns, AccountSubject(account, id.ns));
    if p.Unbinding? {
      UnbindingWrite(c, account, id, p, l);
    } else {
      BindingStep(c, account, id, p, l, account);
    }
  }

  lemma OtherEventsSpareBindings(s: System, e: Event, name: string)
    requires !e.Act? && !e.EditBinding? && !(e.DeleteObject? && e.key == Key(ClusterBindingKind, "", name))
    ensures SubjectsAt(Do(s, e).c, name) == SubjectsAt(s.c, name)
  {
  }

  lemma EditedBinding(s: System, e: Event, name: string)
    requires e.EditBinding? && Possible(s, e)
    ensures SubjectsAt(Do(s, e).c, name) == if e.name == name then e.subjects else SubjectsAt(s.c, name)
  {
  }

  lemma OutsidersOnlyDropSubjects(s: System, e: Event, id: Id)
    requires id in s.accounts && !e.Act?
    ensures Bound(Do(s, e).c, s.accounts[id], id) <==> Bound(s.c, s.accounts[id], id) && !Dropped(s, e, id)
  {
    if e.EditBinding? && Possible(s, e) {
      EditedBinding(s, e, s.accounts[id]);
    } else if !e.EditBinding? && !(e.DeleteObject? && e.key == Key(ClusterBindingKind, "", s.accounts[id])) {
      OtherEventsSpareBindings(s, e, s.accounts[id]);
    }
  }

  /** A bound subject leaves the binding exactly when its own gateway's unbinding gets through or
      somebody outside drops it; it enters only by its own running reconcile, with the finalizer
      on the gateway. No other gateway moves it. */
  lemma OnlyItsOwnerMovesASubject(s: System, e: Event, id: Id)
    requires Inv(s) && id in s.accounts
    ensures Bound(s.c, s.accounts[id], id) ==>
              (!Bound(Do(s, e).c, s.accounts[id], id) <==> Unbinds(s, e, id) || Dropped(s, e, id))
    ensures !Bound(s.c, s.accounts[id], id) && Bound(Do(s, e).c, s.accounts[id], id)
            ==> e.Act? && e.id == id && s.procs[id].Running? && Adopted(s.c, id)
  {
    if !e.Act? {
      OutsidersOnlyDropSubjects(s, e, id);
    } else if e.id == id {
      OwnerMovesItsSubject(s, e.luck, id);
    } else if e.id in s.procs {
      assert Local(s.c, s.accounts[e.id], e.id, s.procs[e.id]);
      OthersStayBound(s.c, s.accounts[e.id], e.id, s.procs[e.id], e.luck, s.accounts[id], id);
    }
  }

  /** Once bound, a subject stays bound, through attempts to unbind it that are lost or refused,
      until it is removed: by its own gateway's finalisation or by an outsider. */
  lemma {:induction false} NoSubjectIsLost(s: System, es: seq<Event>, id: Id)
    requires Inv(s) && id in s.accounts
    requires Bound(s.c, s.accounts[id], id) && StaysBound(s, es, id)
    ensures Bound(DoAll(s, es).c, s.accounts[id], id)
    decreases |es|
  {
    if es != [] {
      AccountsStay(s, [es[0]]);
      DoKeepsInv(s, es[0]);
      OnlyItsOwnerMovesASubject(s, es[0], id);
      NoSubjectIsLost(Do(s, es[0]), es[1..], id);
    }
  }

  // ----- concurrent writers -----

  /** What was observed of an object is still so or betrayed by its version, whatever happens. */
  lemma CurrentStays(s: System, e: Event, key: Key, seen: Object)
    requires Current(s.c, key, seen)
    ensures Current(Do(s, e).c, key, seen)
  {
    if !e.Act? {
      EnvironmentGrows(s, e);
      GrowingKeepsCurrent(s.c, Do(s, e).c, key, seen);
    } else if e.id in s.procs {
      EffectIsLocal(s.c, Request(e.id, s.procs[e.id], e.luck));
      GrowingKeepsCurrent(s.c, Do(s, e).c, key, seen);
    }
  }

  lemma {:induction false} CurrentStaysOverRuns(s: System, es: seq<Event>, key: Key, seen: Object)
    requires Current(s.c, key, seen)
    ensures Current(DoAll(s, es).c, key, seen)
    decreases |es|
  {
    if es != [] {
      CurrentStays(s, es[0], key, seen);
      CurrentStaysOverRuns(Do(s, es[0]), es[1..], key, seen);
    }
  }

  /** An object read at one point of a run and written back at a later one: the write is accepted
      if and only if the object is still the one read, version and all. */
  lemma StaleWritesAreRefused(s: System, es: seq<Event>, key: Key, body: Body)
    requires Inv(s) && key in s.c.store
    ensures var seen, c := s.c.store[key], DoAll(s, es).c;
            Answer(c, Update(key, body, seen.version)).Done? <==> key in c.store && c.store[key] == seen
  {
    var seen, c := s.c.store[key], DoAll(s, es).c;
    CurrentStaysOverRuns(s, es, key, seen);
    InvAlways(s, es);
    if Answer(c, Update(key, body, seen.version)).Done? {
      AcceptedMeansUnchanged(c, key, seen, body);
    }
  }

  // ----- replicas -----

  function ReplicasAt(c: Cluster, id: Id): Option<int> {
    var key := DeploymentKey(id);
    if key in c.store && c.store[key].body.DeploymentBody? then c.store[key].body.replicas else None
  }

  lemma OnlyApplyTargetsDeployments(id: Id, p: Proc, l: Luck, id': Id)
    requires p.Running? ==> Lawful(p.m.gw.spec, p.todo)
    requires Target(Request(id, p, l)) == Some(DeploymentKey(id'))
    ensures id' == id && p.Running? && p.todo != [] && p.todo[0] == Apply(DeploymentKind)
            && Ordinary(p.m.gw.spec, p.todo[0])
    ensures p.pending.Insert? || p.pending.Replace?
  {
  }

  lemma DeploymentInsert(c: Cluster, account: string, id: Id, p: Proc, l: Luck)
    requires Observant(c, account, id, p)
    requires p.Running? && p.todo != [] && p.todo[0] == Apply(DeploymentKind) && p.pending.Insert?
    ensures var c' := Step(c, id, p, l).0;
            c' == c || (DeploymentKey(id) !in c.store && DeploymentKey(id) in c'.store
                        && ReplicasAt(c', id) == p.m.gw.spec.replicas)
  {
    assert p.pending.body.DeploymentBody? && p.pending.body.replicas == p.m.gw.spec.replicas;
    InsertStep(c, id, p, l);
  }

  lemma DeploymentReplace(c: Cluster, account: string, id: Id, p: Proc, l: Luck)
    requires Observant(c, account, id, p)
    requires p.Running? && p.todo != [] && p.todo[0] == Apply(DeploymentKind) && p.pending.Replace?
    ensures var c' := Step(c, id, p, l).0;
            c' == c || (DeploymentKey(id) in c'.store
                        && ReplicasAt(c', id) == ReplicasOf(p.m.gw.spec, ReplicasAt(c, id)))
  {
    var seen, body := p.pending.seen, p.pending.body;
    assert seen.body.DeploymentBody? && body.DeploymentBody?;
    assert body.replicas == ReplicasOf(p.m.gw.spec, seen.body.replicas);
    ReplaceStep(c, id, p, l);
  }

  lemma ReplicasElsewhere(c: Cluster, id: Id, p: Proc, l: Luck, other: Id)
    requires Target(Request(id, p, l)) != Some(DeploymentKey(other))
    ensures var c' := Step(c, id, p, l).0;
            && (DeploymentKey(other) in c.store ==> DeploymentKey(other) in c'.store)
            && ReplicasAt(c', other) == ReplicasAt(c, other)
  {
    EffectIsLocal(c, Request(id, p, l));
  }

  /** A reconcile changes a replica count that is set only for a valid gateway it found with
      autoscaling disabled, and then to what the spec says; a new deployment starts from the spec.
      The count it decides on is the one in the store at the moment of the write. */
  lemma ReplicasHaveOneOwner(s: System, i: Id, l: Luck, id: Id)
    requires Inv(s) && i in s.procs
    ensures var c, c', p := s.c, Do(s, Act(i, l)).c, s.procs[i];
            && (DeploymentKey(id) in c.store ==> DeploymentKey(id) in c'.store)
            && (ReplicasAt(c', id) != ReplicasAt(c, id) ==>
                  && i == id && p.Running? && Validate(p.m.gw.spec).None?
                  && ReplicasAt(c', id) == p.m.gw.spec.replicas
                  && (ReplicasAt(c, id).Some? ==> EffectiveMode(p.m.gw.spec) == Disabled))
  {
    var c, p, account := s.c, s.procs[i], s.accounts[i];
    assert Observant(c, account, i, p) by {
      assert Local(c, account, i, p);
    }
    if Target(Request(i, p, l)) != Some(DeploymentKey(id)) {
      ReplicasElsewhere(c, i, p, l, id);
    } else {
      OnlyApplyTargetsDeployments(i, p, l, id);
      if p.pending.Insert? {
        DeploymentInsert(c, account, i, p, l);
      } else {
        DeploymentReplace(c, account, i, p, l);
      }
    }
  }

  /** Nobody outside writes this deployment, and no reconcile of its gateway found autoscaling disabled. */
  ghost predicate AutoscalerKeepsStill(s: System, es: seq<Event>, id: Id)
    decreases |es|
  {
    es == [] ||
    (&& (es[0].EditObject? || es[0].DeleteObject? ==> es[0].key != DeploymentKey(id))
     && (es[0].Act? && es[0].id == id && id in s.procs && s.procs[id].Running? ==>
         EffectiveMode(s.procs[id].m.gw.spec) != Disabled)
     && AutoscalerKeepsStill(Do(s, es[0]), es[1..], id))
  }

  lemma OutsidersKeepDeployments(s: System, e: Event, id: Id)
    requires !e.Act?
    requires e.EditObject? || e.DeleteObject? ==> e.key != DeploymentKey(id)
    ensures ReplicasAt(Do(s, e).c, id) == ReplicasAt(s.c, id)
  {
  }

  /** Over whole runs: a count that is set stays what it is unless its autoscaler changes it. */
  lemma {:induction false} ReplicasStayOverRuns(s: System, es: seq<Event>, id: Id)
    requires Inv(s) && id in s.accounts
    requires ReplicasAt(s.c, id).Some? && AutoscalerKeepsStill(s, es, id)
    ensures ReplicasAt(DoAll(s, es).c, id) == ReplicasAt(s.c, id)
    decreases |es|
  {
    if es != [] {
      DoKeepsInv(s, es[0]);
      if es[0].Act? && es[0].id in s.procs {
        ReplicasHaveOneOwner(s, es[0].id, es[0].luck, id);
      } else if !es[0].Act? {
        OutsidersKeepDeployments(s, es[0], id);
      }
      AccountsStay(s, [es[0]]);
      ReplicasStayOverRuns(Do(s, es[0]), es[1..], id);
    }
  }

  // ----- status and autoscaler writes -----

  /** Every status a reconcile stores shows the verdict it reached, for the generation it read,
      keeps the conditions of other types, and fits the autoscalers then in the store; every
      stored status is untouched or shows one of the five profiles. */
  lemma StatusWritesAgree(s: System, i: Id, l: Luck)
    requires Inv(s) && i in s.procs && HasGateway(s.c, i) && HasGateway(Do(s, Act(i, l)).c, i)
    ensures var before, after, p := GatewayAt(s.c, i).status, GatewayAt(Do(s, Act(i, l)).c, i).status, s.procs[i];
            && Profiled(after)
            && Others(after.conditions) == Others(before.conditions)
            && (after != before ==>
                  && p.Running?
                  && Shows(after, VerdictOf(p.m.gw.spec, p.installed))
                  && after.generation == p.m.gw.generation && after.mode == EffectiveMode(p.m.gw.spec)
                  && Allowed(VerdictOf(p.m.gw.spec, p.installed), HpaKey(i) in s.c.store, ScaledKey(i) in s.c.store))
  {
    var c, p, account := s.c, s.procs[i], s.accounts[i];
    assert Local(c, account, i, p);
    OwnStepGuarded(c, account, i, p, l);
    if p.Running? && p.todo != [] && p.todo[0] == ReportStatus {
      ReportStep(c, account, i, p, l);
      MarkShows(p.m.gw.status, VerdictOf(p.m.gw.spec, p.installed), p.m.gw.generation, EffectiveMode(p.m.gw.spec),
                l.now);
    } else {
      StatusStays(c, account, i, p, l);
    }
  }

  lemma StatusStays(c: Cluster, account: string, id: Id, p: Proc, l: Luck)
    requires Sound(c) && Observant(c, account, id, p)
    requires !(p.Running? && p.todo != [] && p.todo[0] == ReportStatus)
    requires HasGateway(c, id) && HasGateway(Step(c, id, p, l).0, id)
    ensures GatewayAt(Step(c, id, p, l).0, id).status == GatewayAt(c, id).status
  {
    RequestIsWellTyped(c, account, id, p, l);
    ServeIsLocal(c, Request(id, p, l), l.fault);
  }

  /** Every HPA and every ScaledObject a reconcile sends to the server is its own gateway's, is well
      formed, and has the bounds, targets and settings that the gateway it has read asks for. */
  lemma AutoscalerWritesAreWellFormed(s: System, i: Id, l: Luck)
    requires Inv(s) && i in s.procs
    ensures var call := Request(i, s.procs[i], l);
            (call.Create? || call.Update?) ==>
              && (call.key.kind == HpaKind ==>
                    && call.key.ns == i.ns && call.key.name == i.name && call.body.HpaBody?
                    && WellFormedHpa(i.name, call.body.hpa)
                    && s.procs[i].Running? && s.procs[i].m.gw.spec.autoscaling.Some?
                    && HpaMatches(i.name, s.procs[i].m.gw.spec.autoscaling.value, call.body.hpa))
              && (call.key.kind == ScaledKind ==>
                    && call.key.ns == i.ns && call.key.name == i.name && call.body.ScaledBody?
                    && WellFormedScaled(i.name, call.body.scaled)
                    && s.procs[i].Running? && s.procs[i].m.gw.spec.autoscaling.Some?
                    && ScaledMatches(i.name, s.procs[i].m.gw.spec.autoscaling.value, call.body.scaled))
  {
    var p := s.procs[i];
    assert Local(s.c, s.accounts[i], i, p);
    var call := Request(i, p, l);
    if (call.Create? || call.Update?) && (call.key.kind == HpaKind || call.key.kind == ScaledKind) {
      AutoscalerWrite(s.c, s.accounts[i], i, p, l);
      assert Ordinary(p.m.gw.spec, p.todo[0]);
      ValidationMeansWellFormed(i.name, p.m.gw.spec);
      AutoscalersByField(i.name, p.m.gw.spec.autoscaling.value);
    }
  }

  lemma AutoscalerWrite(c: Cluster, account: string, id: Id, p: Proc, l: Luck)
    requires Observant(c, account, id, p)
    requires var call := Request(id, p, l);
             (call.Create? || call.Update?) && (call.key.kind == HpaKind || call.key.kind == ScaledKind)
    ensures p.Running? && p.todo != [] && p.todo[0].Apply? && Scales(p.todo[0]) && Ordinary(p.m.gw.spec, p.todo[0])
    ensures var call := Request(id, p, l);
            && call.key == KeyOf(p.todo[0].kind, id, p.m.gw.spec)
            && p.m.gw.spec.autoscaling.Some?
            && (call.key.kind == HpaKind ==>
                  call.body.HpaBody? && call.body.hpa == HpaSpecOf(id.name, p.m.gw.spec.autoscaling.value))
            && (call.key.kind == ScaledKind ==>
                  call.body.ScaledBody? && call.body.scaled == ScaledSpecOf(id.name, p.m.gw.spec.autoscaling.value))
  {
    assert p.Running? && p.todo != [] && p.todo[0].Apply? && Ordinary(p.m.gw.spec, p.todo[0]);
    var kind := p.todo[0].kind;
    if p.pending.Insert? {
      InitialFits(kind, id, p.m.gw);
    }
  }
}
