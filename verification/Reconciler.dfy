/** The reconcile loop in the form of its source: straight-line code that calls the API server and
    returns at the first error. Each method is proved to be a run of the step-by-step protocol. */
module Reconciler {
  import opened Values
  import opened GatewaySpec
  import opened Conditions
  import opened Objects
  import opened ApiServer
  import opened Protocol

  /** The luck of the steps from `i` up to `j`. */
  ghost function Lucks(luck: nat -> Luck, i: nat, j: nat): seq<Luck>
    requires i <= j
  {
    seq(j - i, k requires 0 <= k < j - i => luck(i + k))
  }

  /** Nobody interfering, the protocol goes from one point to the other with this luck. */
  ghost predicate Ran(luck: nat -> Luck, id: Id, c: Cluster, p: Proc, i: nat, c': Cluster, p': Proc, j: nat) {
    i <= j && Run(c, id, p, Lucks(luck, i, j)) == (c', p')
  }

  lemma RanOn(luck: nat -> Luck, id: Id, c: Cluster, p: Proc, i: nat, c1: Cluster, p1: Proc, j: nat, c2: Cluster,
              p2: Proc, k: nat)
    requires Ran(luck, id, c, p, i, c1, p1, j) && Ran(luck, id, c1, p1, j, c2, p2, k)
    ensures Ran(luck, id, c, p, i, c2, p2, k)
  {
    assert Lucks(luck, i, k) == Lucks(luck, i, j) + Lucks(luck, j, k);
    RunConcat(c, id, p, Lucks(luck, i, j), Lucks(luck, j, k));
  }

  lemma RanStep(luck: nat -> Luck, id: Id, c: Cluster, p: Proc, i: nat)
    ensures var (c', p') := Step(c, id, p, luck(i)); Ran(luck, id, c, p, i, c', p', i + 1)
  {
  }

  lemma RanNowhere(luck: nat -> Luck, id: Id, c: Cluster, p: Proc, i: nat)
    ensures Ran(luck, id, c, p, i, c, p, i)
  {
  }

  lemma RanReport(luck: nat -> Luck, id: Id, c: Cluster, m: Instance, installed: bool, i: nat, status: Status,
                  c': Cluster, r: Reply)
    requires status == Marked(m.gw, installed, luck(i).now)
    requires var call := if status == m.gw.status then Skip else Call.PatchStatus(GatewayKey(id), m.gw.status, status);
             (c', r) == Serve(c, call, luck(i).fault)
    ensures Ran(luck, id, c, Running(m, [ReportStatus], Nothing, installed), i, c', Idle(!r.Done?), i + 1)
  {
  }

  /** No gateway of this name carries the finalizer. */
  predicate Unfinalized(c: Cluster, id: Id) {
    var key := Key(GatewayKind, id.ns, id.name);
    key in c.store && c.store[key].body.GatewayBody?
    ==> "higressgateway.higress.io/finalizer" !in c.store[key].body.gw.finalizers
  }

  lemma ReleaseUnfinalizes(c: Cluster, id: Id, gw: Gateway, version: nat, fault: Fault)
    ensures var (c', r) := Serve(c, Update(GatewayKey(id), GatewayBody(gw.(finalizers := gw.finalizers - {FINALIZER})),
                                           version), fault);
            r.Done? ==> Unfinalized(c', id)
  {
  }

  class Client {
    var c: Cluster
    var steps: nat
    const luck: nat -> Luck

    constructor (c: Cluster, luck: nat -> Luck)
      ensures this.c == c && this.luck == luck && steps == 0
    {
      this.c, this.luck, this.steps := c, luck, 0;
    }

    /** One call to the API server. */
    method Do(call: Call) returns (r: Reply)
      modifies this
      ensures (c, r) == Serve(old(c), call, luck(old(steps)).fault)
      ensures steps == old(steps) + 1
    {
      var (c', reply) := Serve(c, call, luck(steps).fault);
      c, r, steps := c', reply, steps + 1;
    }
  }

  class GatewayReconciler {
    const client: Client
    const id: Id

    constructor (client: Client, id: Id)
      ensures this.client == client && this.id == id
    {
      this.client, this.id := client, id;
    }

    /** The main program went from this list of commands to that one, or ended with an error. */
    twostate predicate Executed(m: Instance, before: seq<Cmd>, after: seq<Cmd>, installed: bool, installed': bool,
                                err: bool)
      reads client
    {
      Ran(client.luck, id,
          old(client.c), Running(m, before, Nothing, installed), old(client.steps),
          client.c, if err then Idle(true) else Running(m, after, Nothing, installed'), client.steps)
    }

    /** A command of the main program went from the one stage to the next, or ended with an error. */
    twostate predicate Moved(m: Instance, todo: seq<Cmd>, from: Pending, todo': seq<Cmd>, to: Pending,
                             installed: bool, err: bool)
      reads client
    {
      Ran(client.luck, id,
          old(client.c), Running(m, todo, from, installed), old(client.steps),
          client.c, if err then Idle(true) else Running(m, todo', to, installed), client.steps)
    }

    /** Looks the object up and lets the callback at it or at a new one; Nothing is to be done if that
        makes no difference. Building the service of a networked gateway panics where a label map is
        nil; that ends the reconcile like an error. */
    method Lookup(kind: Kind, m: Instance, ghost rest: seq<Cmd>, ghost installed: bool)
      returns (err: bool, next: Pending)
      modifies client
      ensures !next.Erase?
      ensures Moved(m, [Apply(kind)] + rest, Nothing, if next.Nothing? then rest else [Apply(kind)] + rest, next,
                    installed, err)
    {
      ghost var p := Running(m, [Apply(kind)] + rest, Nothing, installed);
      assert p.todo[1..] == rest;
      RanStep(client.luck, id, client.c, p, client.steps);
      var order := client.luck(client.steps).order;
      if kind == ServiceKind && ServicePanics(m.gw.spec, m.gw.labels) {
        var _ := client.Do(Skip);
        return true, Nothing;
      }
      var r := client.Do(Get(KeyOf(kind, id, m.gw.spec)));
      match r
      case Found(existing) =>
        if kind == ServiceKind && existing.body.ServiceBody? && ServicePanics(m.gw.spec, existing.body.meta.labels) {
          return true, Nothing;
        }
        var body := Mutate(kind, id, m.gw, order, existing.body);
        return false, if body == existing.body then Nothing else Replace(existing, body);
      case Failed(NotFound) => return false, Insert(Mutate(kind, id, m.gw, order, Initial(kind, id, m.gw)));
      case _ => return true, Nothing;
    }

    method InsertObject(kind: Kind, m: Instance, body: Body, ghost rest: seq<Cmd>, ghost installed: bool)
      returns (err: bool)
      modifies client
      ensures Moved(m, [Apply(kind)] + rest, Insert(body), rest, Nothing, installed, err)
    {
      ghost var p := Running(m, [Apply(kind)] + rest, Insert(body), installed);
      assert p.todo[1..] == rest;
      RanStep(client.luck, id, client.c, p, client.steps);
      var r := client.Do(Create(KeyOf(kind, id, m.gw.spec), body));
      err := !r.Done?;
    }

    method ReplaceObject(kind: Kind, m: Instance, seen: Object, body: Body, ghost rest: seq<Cmd>, ghost installed: bool)
      returns (err: bool)
      modifies client
      ensures Moved(m, [Apply(kind)] + rest, Replace(seen, body), rest, Nothing, installed, err)
    {
      ghost var p := Running(m, [Apply(kind)] + rest, Replace(seen, body), installed);
      assert p.todo[1..] == rest;
      RanStep(client.luck, id, client.c, p, client.steps);
      var r := client.Do(Update(KeyOf(kind, id, m.gw.spec), body, seen.version));
      err := !r.Done?;
    }

    /** Get, mutate, compare, and create or update. */
    method CreateOrUpdate(kind: Kind, m: Instance, ghost rest: seq<Cmd>, ghost installed: bool) returns (err: bool)
      modifies client
      ensures Executed(m, [Apply(kind)] + rest, rest, installed, installed, err)
    {
      ghost var p := Running(m, [Apply(kind)] + rest, Nothing, installed);
      var next;
      err, next := Lookup(kind, m, rest, installed);
      if err || next.Nothing? {
        return;
      }
      ghost var c1, s1 := client.c, client.steps;
      if next.Insert? {
        err := InsertObject(kind, m, next.body, rest, installed);
      } else {
        err := ReplaceObject(kind, m, next.seen, next.body, rest, installed);
      }
      RanOn(client.luck, id, old(client.c), p, old(client.steps), c1, p.(pending := next), s1,
            client.c, if err then Idle(true) else Running(m, rest, Nothing, installed), client.steps);
    }

    /** Looks for an object to delete. A missing object is fine, and so is a missing ScaledObject kind. */
    method LookFor(kind: Kind, m: Instance, ghost rest: seq<Cmd>, ghost installed: bool)
      returns (err: bool, found: bool)
      modifies client
      ensures Moved(m, [Remove(kind)] + rest, Nothing,
                    if found then [Remove(kind)] + rest else rest, if found then Erase else Nothing, installed, err)
    {
      ghost var p := Running(m, [Remove(kind)] + rest, Nothing, installed);
      assert p.todo[1..] == rest;
      RanStep(client.luck, id, client.c, p, client.steps);
      var r := client.Do(Get(KeyOf(kind, id, m.gw.spec)));
      if r.Failed? {
        return !(r.error == NotFound || (r.error == NoMatch && kind == ScaledKind)), false;
      }
      return !r.Found?, r.Found?;
    }

    method DeleteObject(kind: Kind, m: Instance, ghost rest: seq<Cmd>, ghost installed: bool) returns (err: bool)
      modifies client
      ensures Moved(m, [Remove(kind)] + rest, Erase, rest, Nothing, installed, err)
    {
      ghost var p := Running(m, [Remove(kind)] + rest, Erase, installed);
      assert p.todo[1..] == rest;
      RanStep(client.luck, id, client.c, p, client.steps);
      var r := client.Do(Delete(KeyOf(kind, id, m.gw.spec)));
      err := r.Failed? && r.error != NotFound && !(r.error == NoMatch && kind == ScaledKind);
      assert !r.Failed? ==> r.Done?;
    }

    method DeleteIfExists(kind: Kind, m: Instance, ghost rest: seq<Cmd>, ghost installed: bool) returns (err: bool)
      modifies client
      ensures Executed(m, [Remove(kind)] + rest, rest, installed, installed, err)
    {
      ghost var p := Running(m, [Remove(kind)] + rest, Nothing, installed);
      var found;
      err, found := LookFor(kind, m, rest, installed);
      if err || !found {
        return;
      }
      ghost var c1, s1 := client.c, client.steps;
      err := DeleteObject(kind, m, rest, installed);
      RanOn(client.luck, id, old(client.c), p, old(client.steps), c1, p.(pending := Erase), s1,
            client.c, if err then Idle(true) else Running(m, rest, Nothing, installed), client.steps);
    }

    method CreateServiceAccount(m: Instance, ghost rest: seq<Cmd>, ghost installed: bool) returns (err: bool)
      modifies client
      ensures Executed(m, [CreateAccount] + rest, rest, installed, installed, err)
    {
      assert ([CreateAccount] + rest)[1..] == rest;
      RanStep(client.luck, id, client.c, Running(m, [CreateAccount] + rest, Nothing, installed), client.steps);
      var r := client.Do(Create(KeyOf(AccountKind, id, m.gw.spec), Initial(AccountKind, id, m.gw)));
      err := r.Failed? && r.error != AlreadyExists;
    }

    method CreateRBAC(m: Instance, ghost rest: seq<Cmd>) returns (err: bool)
      modifies client
      ensures Executed(m, RbacPlan(m.gw.spec) + rest, rest, false, false, err)
    {
      ghost var rest3 := [Apply(RoleBindingKind)] + rest;
      ghost var rest2 := [Apply(RoleKind)] + rest3;
      ghost var rest1 := [Apply(ClusterBindingKind)] + rest2;
      ghost var todo := RbacPlan(m.gw.spec) + rest;
      if !RbacWanted(m.gw.spec) {
        assert todo == rest;
        RanNowhere(client.luck, id, client.c, Running(m, rest, Nothing, false), client.steps);
        return false;
      }
      assert todo == [Apply(ClusterRoleKind)] + rest1;
      ghost var p := Running(m, todo, Nothing, false);
      err := CreateOrUpdate(ClusterRoleKind, m, rest1, false);
      if err {
        return;
      }
      ghost var c1, s1 := client.c, client.steps;
      err := CreateOrUpdate(ClusterBindingKind, m, rest2, false);
      RanOn(client.luck, id, old(client.c), p, old(client.steps), c1, Running(m, rest1, Nothing, false), s1,
            client.c, if err then Idle(true) else Running(m, rest2, Nothing, false), client.steps);
      if err {
        return;
      }
      ghost var c2, s2 := client.c, client.steps;
      err := CreateOrUpdate(RoleKind, m, rest3, false);
      RanOn(client.luck, id, old(client.c), p, old(client.steps), c2, Running(m, rest2, Nothing, false), s2,
            client.c, if err then Idle(true) else Running(m, rest3, Nothing, false), client.steps);
      if err {
        return;
      }
      ghost var c3, s3 := client.c, client.steps;
      err := CreateOrUpdate(RoleBindingKind, m, rest, false);
      RanOn(client.luck, id, old(client.c), p, old(client.steps), c3, Running(m, rest3, Nothing, false), s3,
            client.c, if err then Idle(true) else Running(m, rest, Nothing, false), client.steps);
    }

    /** The switch over the scale mode: every branch clears the other autoscaler first. */
    method Autoscale(m: Instance, ghost rest: seq<Cmd>) returns (err: bool, installed: bool)
      modifies client
      ensures Executed(m, ScalePlan(EffectiveMode(m.gw.spec)) + rest, rest, false, installed, err)
    {
      installed := false;
      ghost var todo := ScalePlan(EffectiveMode(m.gw.spec)) + rest;
      match EffectiveMode(m.gw.spec)
      case Disabled =>
        assert todo == [Remove(HpaKind)] + todo[1..] && todo[1..] == [Remove(ScaledKind)] + rest;
        err := DeleteIfExists(HpaKind, m, todo[1..], false);
        if err {
          return;
        }
        ghost var c1, s1 := client.c, client.steps;
        err := DeleteIfExists(ScaledKind, m, rest, false);
        RanOn(client.luck, id, old(client.c), Running(m, todo, Nothing, false), old(client.steps),
              c1, Running(m, todo[1..], Nothing, false), s1,
              client.c, if err then Idle(true) else Running(m, rest, Nothing, false), client.steps);
      case NativeHPA =>
        assert todo == [Remove(ScaledKind)] + todo[1..] && todo[1..] == [Apply(HpaKind)] + rest;
        err := DeleteIfExists(ScaledKind, m, todo[1..], false);
        if err {
          return;
        }
        ghost var c1, s1 := client.c, client.steps;
        err := CreateOrUpdate(HpaKind, m, rest, false);
        RanOn(client.luck, id, old(client.c), Running(m, todo, Nothing, false), old(client.steps),
              c1, Running(m, todo[1..], Nothing, false), s1,
              client.c, if err then Idle(true) else Running(m, rest, Nothing, false), client.steps);
      case KEDA =>
        assert todo == [Remove(HpaKind)] + todo[1..] && todo[1..] == [CheckKeda] + rest;
        err := DeleteIfExists(HpaKind, m, todo[1..], false);
        if err {
          return;
        }
        ghost var c1, s1 := client.c, client.steps;
        err, installed := AutoscaleWithKeda(m, rest);
        RanOn(client.luck, id, old(client.c), Running(m, todo, Nothing, false), old(client.steps),
              c1, Running(m, todo[1..], Nothing, false), s1,
              client.c, if err then Idle(true) else Running(m, rest, Nothing, installed), client.steps);
      case _ =>
        assert todo == rest;
        RanNowhere(client.luck, id, client.c, Running(m, rest, Nothing, false), client.steps);
        err := false;
    }

    method AutoscaleWithKeda(m: Instance, ghost rest: seq<Cmd>) returns (err: bool, installed: bool)
      modifies client
      ensures Executed(m, [CheckKeda] + rest, rest, false, installed, err)
    {
      ghost var p := Running(m, [CheckKeda] + rest, Nothing, false);
      assert p.todo[1..] == rest;
      RanStep(client.luck, id, client.c, p, client.steps);
      var r := client.Do(RestMapping);
      if r.Failed? {
        return r.error != NoMatch, false;
      }
      if !r.Done? {
        return true, false;
      }
      installed := true;
      ghost var c1, s1 := client.c, client.steps;
      err := CreateOrUpdate(ScaledKind, m, rest, true);
      RanOn(client.luck, id, old(client.c), p, old(client.steps), c1,
            Running(m, [Apply(ScaledKind)] + rest, Nothing, true), s1,
            client.c, if err then Idle(true) else Running(m, rest, Nothing, true), client.steps);
    }

    /** Writes the status only if it changed. */
    method PatchStatus(m: Instance, installed: bool) returns (err: bool)
      modifies client
      ensures Ran(client.luck, id, old(client.c), Running(m, [ReportStatus], Nothing, installed), old(client.steps),
                  client.c, Idle(err), client.steps)
    {
      var status := Marked(m.gw, installed, client.luck(client.steps).now);
      var changed := status != m.gw.status;
      var r := client.Do(if changed then Call.PatchStatus(GatewayKey(id), m.gw.status, status) else Skip);
      RanReport(client.luck, id, old(client.c), m, installed, old(client.steps), status, client.c, r);
      err := !r.Done?;
    }

    method RejectConfiguration(m: Instance) returns (err: bool)
      requires Validate(m.gw.spec).Some?
      modifies client
      ensures Ran(client.luck, id, old(client.c), Start(m), old(client.steps), client.c, Idle(err), client.steps)
    {
      ghost var todo := Plan(m.gw.spec);
      assert todo == [Remove(HpaKind)] + todo[1..] && todo[1..] == [Remove(ScaledKind)] + [ReportStatus];
      err := DeleteIfExists(HpaKind, m, todo[1..], false);
      if err {
        return;
      }
      ghost var c1, s1 := client.c, client.steps;
      err := DeleteIfExists(ScaledKind, m, [ReportStatus], false);
      RanOn(client.luck, id, old(client.c), Start(m), old(client.steps), c1, Running(m, todo[1..], Nothing, false), s1,
            client.c, if err then Idle(true) else Running(m, [ReportStatus], Nothing, false), client.steps);
      if err {
        return;
      }
      ghost var c2, s2 := client.c, client.steps;
      err := PatchStatus(m, false);
      RanOn(client.luck, id, old(client.c), Start(m), old(client.steps), c2,
            Running(m, [ReportStatus], Nothing, false), s2,
            client.c, Idle(err), client.steps);
    }

    method ReconcileResources(m: Instance) returns (err: bool)
      requires Validate(m.gw.spec).None?
      modifies client
      ensures Ran(client.luck, id, old(client.c), Start(m), old(client.steps), client.c, Idle(err), client.steps)
    {
      ghost var end := [Apply(ServiceKind)] + [ReportStatus];
      ghost var scale := ScalePlan(EffectiveMode(m.gw.spec)) + end;
      ghost var deploy := [Apply(DeploymentKind)] + scale;
      ghost var config := [Apply(ConfigKind)] + deploy;
      ghost var rbac := RbacPlan(m.gw.spec) + config;
      assert Plan(m.gw.spec) == [CreateAccount] + rbac;
      err := CreateServiceAccount(m, rbac, false);
      if err {
        return;
      }
      ghost var c1, s1 := client.c, client.steps;
      err := CreateRBAC(m, config);
      RanOn(client.luck, id, old(client.c), Start(m), old(client.steps), c1, Running(m, rbac, Nothing, false), s1,
            client.c, if err then Idle(true) else Running(m, config, Nothing, false), client.steps);
      if err {
        return;
      }
      ghost var c2, s2 := client.c, client.steps;
      err := CreateOrUpdate(ConfigKind, m, deploy, false);
      RanOn(client.luck, id, old(client.c), Start(m), old(client.steps), c2, Running(m, config, Nothing, false), s2,
            client.c, if err then Idle(true) else Running(m, deploy, Nothing, false), client.steps);
      if err {
        return;
      }
      ghost var c3, s3 := client.c, client.steps;
      err := CreateOrUpdate(DeploymentKind, m, scale, false);
      RanOn(client.luck, id, old(client.c), Start(m), old(client.steps), c3, Running(m, deploy, Nothing, false), s3,
            client.c, if err then Idle(true) else Running(m, scale, Nothing, false), client.steps);
      if err {
        return;
      }
      ghost var c4, s4 := client.c, client.steps;
      var installed;
      err, installed := Autoscale(m, end);
      RanOn(client.luck, id, old(client.c), Start(m), old(client.steps), c4, Running(m, scale, Nothing, false), s4,
            client.c, if err then Idle(true) else Running(m, end, Nothing, installed), client.steps);
      if err {
        return;
      }
      ghost var c5, s5 := client.c, client.steps;
      err := CreateOrUpdate(ServiceKind, m, [ReportStatus], installed);
      RanOn(client.luck, id, old(client.c), Start(m), old(client.steps), c5, Running(m, end, Nothing, installed), s5,
            client.c, if err then Idle(true) else Running(m, [ReportStatus], Nothing, installed), client.steps);
      if err {
        return;
      }
      ghost var c6, s6 := client.c, client.steps;
      err := PatchStatus(m, installed);
      RanOn(client.luck, id, old(client.c), Start(m), old(client.steps), c6,
            Running(m, [ReportStatus], Nothing, installed), s6,
            client.c, Idle(err), client.steps);
    }

    /** Takes the gateway's subject out of the shared binding, then the finalizer off the gateway; without
        an error only if the finalizer is off. */
    method Finalize(m: Instance) returns (err: bool)
      modifies client
      ensures Ran(client.luck, id, old(client.c), Finalizing(m), old(client.steps), client.c, Idle(err), client.steps)
      ensures !err ==> Unfinalized(client.c, id)
    {
      RanStep(client.luck, id, client.c, Finalizing(m), client.steps);
      var r := client.Do(Get(BindingKey(id, m)));
      if !r.Found? {
        return true;
      }
      ghost var c1, s1, p1 := client.c, client.steps, Unbinding(m, r.it);
      RanStep(client.luck, id, c1, p1, s1);
      r := client.Do(Update(BindingKey(id, m), Unbound(id, m, r.it.body), r.it.version));
      RanOn(client.luck, id, old(client.c), Finalizing(m), old(client.steps), c1, p1, s1,
            client.c, if r.Done? then Releasing(m) else Idle(true), client.steps);
      if !r.Done? {
        return true;
      }
      ghost var c2, s2 := client.c, client.steps;
      RanStep(client.luck, id, c2, Releasing(m), s2);
      ReleaseUnfinalizes(c2, id, m.gw, m.version, client.luck(s2).fault);
      r := client.Do(Update(GatewayKey(id), GatewayBody(m.gw.(finalizers := m.gw.finalizers - {FINALIZER})),
                            m.version));
      RanOn(client.luck, id, old(client.c), Finalizing(m), old(client.steps), c2, Releasing(m), s2,
            client.c, Idle(!r.Done?), client.steps);
      err := !r.Done?;
    }

    /** Puts the finalizer on the gateway and reads it again. */
    method Adopt(m: Instance) returns (err: bool, instance: Instance)
      modifies client
      ensures Ran(client.luck, id, old(client.c), Adopting(m), old(client.steps),
                  client.c, if err then Idle(true) else Start(instance), client.steps)
    {
      instance := m;
      RanStep(client.luck, id, client.c, Adopting(m), client.steps);
      var r := client.Do(Update(GatewayKey(id), GatewayBody(m.gw.(finalizers := m.gw.finalizers + {FINALIZER})),
                                m.version));
      if !r.Done? {
        return true, m;
      }
      ghost var c1, s1 := client.c, client.steps;
      RanStep(client.luck, id, c1, Rereading, s1);
      r := client.Do(Get(GatewayKey(id)));
      err := !r.Found?;
      if r.Found? {
        instance := Load(r.it);
      }
      RanOn(client.luck, id, old(client.c), Adopting(m), old(client.steps), c1, Rereading, s1,
            client.c, if err then Idle(true) else Start(instance), client.steps);
    }

    /** The main program for a valid gateway, or what is left of it for an invalid one. */
    method ReconcileInstance(m: Instance) returns (err: bool)
      modifies client
      ensures Ran(client.luck, id, old(client.c), Start(m), old(client.steps), client.c, Idle(err), client.steps)
    {
      if Validate(m.gw.spec).Some? {
        err := RejectConfiguration(m);
      } else {
        err := ReconcileResources(m);
      }
    }

    /** From the namespace check on. */
    method ReconcileLive(m: Instance) returns (err: bool)
      modifies client
      ensures Ran(client.luck, id, old(client.c), Checking(m), old(client.steps), client.c, Idle(err), client.steps)
    {
      RanStep(client.luck, id, client.c, Checking(m), client.steps);
      var r := client.Do(GetNamespace(id.ns));
      if !r.Namespace? || r.terminating {
        return false;
      }
      ghost var c1, s1 := client.c, client.steps;
      if FINALIZER in m.gw.finalizers {
        err := ReconcileInstance(m);
        RanOn(client.luck, id, old(client.c), Checking(m), old(client.steps), c1, Start(m), s1, client.c, Idle(err),
              client.steps);
        return;
      }
      var instance;
      err, instance := Adopt(m);
      RanOn(client.luck, id, old(client.c), Checking(m), old(client.steps), c1, Adopting(m), s1,
            client.c, if err then Idle(true) else Start(instance), client.steps);
      if err {
        return;
      }
      ghost var c2, s2 := client.c, client.steps;
      err := ReconcileInstance(instance);
      RanOn(client.luck, id, old(client.c), Checking(m), old(client.steps), c2, Start(instance), s2,
            client.c, Idle(err), client.steps);
    }

    /** The whole reconcile is a run of the protocol from its first read to its end. */
    method Reconcile() returns (err: bool)
      modifies client
      ensures Ran(client.luck, id, old(client.c), Reading, old(client.steps), client.c, Idle(err), client.steps)
    {
      RanStep(client.luck, id, client.c, Reading, client.steps);
      var r := client.Do(Get(GatewayKey(id)));
      if r.Failed? {
        return r.error != NotFound;
      }
      if !r.Found? {
        return true;
      }
      var m := Load(r.it);
      ghost var c1, s1 := client.c, client.steps;
      if m.gw.deleting {
        if FINALIZER !in m.gw.finalizers {
          return false;
        }
        err := Finalize(m);
        RanOn(client.luck, id, old(client.c), Reading, old(client.steps), c1, Finalizing(m), s1, client.c, Idle(err),
              client.steps);
      } else {
        err := ReconcileLive(m);
        RanOn(client.luck, id, old(client.c), Reading, old(client.steps), c1, Checking(m), s1, client.c, Idle(err),
              client.steps);
      }
    }
  }
}
