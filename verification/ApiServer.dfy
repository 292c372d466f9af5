/** The cluster store as its clients see it: one object per key, a resource version per object,
    and calls that may fail before or after taking effect. */
module ApiServer {
  import opened Values
  import opened Conditions
  import opened Objects

  datatype Object = Object(version: nat, body: Body)

  /** `revision` is larger than every version handed out so far. A namespace maps to whether it
      is terminating. `keda` says whether the ScaledObject CRD is installed. */
  datatype Cluster = Cluster(store: map<Key, Object>, revision: nat, keda: bool, namespaces: map<string, bool>)

  datatype Error = NotFound | AlreadyExists | Conflict | NoMatch | Unavailable

  datatype Call =
    | Skip
    | Get(key: Key)
    | Create(key: Key, body: Body)
    | Update(key: Key, body: Body, version: nat)
    | Delete(key: Key)
    | PatchStatus(key: Key, base: Status, status: Status)
    | GetNamespace(ns: string)
    | RestMapping

  datatype Reply = Done | Found(it: Object) | Namespace(terminating: bool) | Failed(error: Error)

  /** A call is served, lost on the way there, or served with its reply lost on the way back. */
  datatype Fault = Healthy | Lost | Late

  predicate Unmatched(c: Cluster, key: Key) {
    key.kind == ScaledKind && !c.keda
  }

  function Answer(c: Cluster, call: Call): Reply {
    match call
    case Skip => Done
    case Get(key) =>
      if Unmatched(c, key) then Failed(NoMatch)
      else if key in c.store then Found(c.store[key])
      else Failed(NotFound)
    case Create(key, _) =>
      if Unmatched(c, key) then Failed(NoMatch)
      else if key in c.store then Failed(AlreadyExists)
      else Done
    case Update(key, _, version) =>
      if Unmatched(c, key) then Failed(NoMatch)
      else if key !in c.store then Failed(NotFound)
      else if c.store[key].version != version then Failed(Conflict)
      else Done
    case Delete(key) =>
      if Unmatched(c, key) then Failed(NoMatch)
      else if key !in c.store then Failed(NotFound)
      else Done
    case PatchStatus(key, _, _) => if key !in c.store then Failed(NotFound) else Done
    case GetNamespace(ns) => if ns !in c.namespaces then Failed(NotFound) else Namespace(c.namespaces[ns])
    case RestMapping => if c.keda then Done else Failed(NoMatch)
  }

  /** A merge patch carries only the fields in which the new status differs from the base. */
  function MergePatch(current: Status, base: Status, status: Status): Status {
    Status(
      if status.deployed != base.deployed then status.deployed else current.deployed,
      if status.generation != base.generation then status.generation else current.generation,
      if status.mode != base.mode then status.mode else current.mode,
      if status.conditions != base.conditions then status.conditions else current.conditions)
  }

  /** What the server keeps of an update: status and deletion mark are its own, and it counts
      the changes of the spec. */
  function Accepted(current: Body, update: Body): Body {
    match (current, update)
    case (GatewayBody(g), GatewayBody(h)) =>
      GatewayBody(h.(status := g.status, deleting := g.deleting,
                     generation := if h.spec != g.spec then g.generation + 1 else g.generation))
    case _ => update
  }

  /** A marked gateway disappears with its last finalizer. */
  predicate Vanishes(body: Body) {
    body.GatewayBody? && body.gw.deleting && body.gw.finalizers == {}
  }

  function Patched(current: Body, base: Status, status: Status): Body {
    match current
    case GatewayBody(g) => GatewayBody(g.(status := MergePatch(g.status, base, status)))
    case _ => current
  }

  function Put(c: Cluster, key: Key, body: Body): Cluster {
    c.(store := c.store[key := Object(c.revision, body)], revision := c.revision + 1)
  }

  function Effect(c: Cluster, call: Call): Cluster {
    if Answer(c, call).Failed? then c
    else
      match call
      case Create(key, body) => Put(c, key, body)
      case Update(key, body, _) =>
        var accepted := Accepted(c.store[key].body, body);
        if Vanishes(accepted) then c.(store := c.store - {key}) else Put(c, key, accepted)
      case Delete(key) => c.(store := c.store - {key})
      case PatchStatus(key, base, status) => Put(c, key, Patched(c.store[key].body, base, status))
      case _ => c
  }

  function Serve(c: Cluster, call: Call, fault: Fault): (Cluster, Reply) {
    if call.Skip? then (c, Done)
    else
      match fault
      case Healthy => (Effect(c, call), Answer(c, call))
      case Lost => (c, Failed(Unavailable))
      case Late => (Effect(c, call), Failed(Unavailable))
  }

  // ----- facts about every call -----

  ghost predicate Typed(c: Cluster) {
    forall key | key in c.store :: Fits(key.kind, c.store[key].body)
  }

  ghost predicate Versioned(c: Cluster) {
    forall key | key in c.store :: c.store[key].version < c.revision
  }

  ghost predicate Matched(c: Cluster) {
    forall key | key in c.store :: !Unmatched(c, key)
  }

  ghost predicate Sound(c: Cluster) {
    Typed(c) && Versioned(c) && Matched(c)
  }

  function Target(call: Call): Option<Key> {
    match call
    case Create(key, _) => Some(key)
    case Update(key, _, _) => Some(key)
    case Delete(key) => Some(key)
    case PatchStatus(key, _, _) => Some(key)
    case _ => None
  }

  ghost predicate WellTypedCall(call: Call) {
    match call
    case Create(key, body) => Fits(key.kind, body) && key.kind != GatewayKind
    case Update(key, body, _) => Fits(key.kind, body)
    case PatchStatus(key, _, _) => key.kind == GatewayKind
    case _ => true
  }

  function At(c: Cluster, key: Key): Option<Body> {
    if key in c.store then Some(c.store[key].body) else None
  }

  /** Versions are never reused: whatever is not as before has a new one. */
  ghost predicate Grows(c: Cluster, c': Cluster) {
    && c'.revision >= c.revision
    && forall key | key in c'.store ::
         (key in c.store && c'.store[key] == c.store[key]) || c'.store[key].version >= c.revision
  }

  /** What a call may do to a store: at most its target changes, and under a new version. */
  ghost predicate Moves(c: Cluster, c': Cluster, call: Call) {
    && Grows(c, c')
    && c'.keda == c.keda && c'.namespaces == c.namespaces
    && (forall key | Target(call) != Some(key) ::
          (key in c'.store <==> key in c.store) && (key in c.store ==> c'.store[key] == c.store[key]))
  }

  lemma EffectIsLocal(c: Cluster, call: Call)
    ensures Moves(c, Effect(c, call), call)
  {
  }

  lemma EffectIsSound(c: Cluster, call: Call)
    requires Sound(c) && WellTypedCall(call)
    ensures Sound(Effect(c, call))
  {
  }

  /** Served or not, a call touches at most its target and keeps the store sound. */
  lemma ServeIsLocal(c: Cluster, call: Call, fault: Fault)
    requires Sound(c) && WellTypedCall(call)
    ensures var c' := Serve(c, call, fault).0;
            && Sound(c')
            && Moves(c, c', call)
            && (c' == c || c' == Effect(c, call))
  {
    EffectIsLocal(c, call);
    EffectIsSound(c, call);
  }

  /** An observed object is still the stored one as long as its version is. */
  ghost predicate Current(c: Cluster, key: Key, seen: Object) {
    && seen.version < c.revision
    && Fits(key.kind, seen.body)
    && (key in c.store && c.store[key].version == seen.version ==> c.store[key] == seen)
  }

  lemma GrowingKeepsCurrent(c: Cluster, c': Cluster, key: Key, seen: Object)
    requires Grows(c, c') && Current(c, key, seen)
    ensures Current(c', key, seen)
  {
  }

  /** Hence an update based on an observation is accepted only if nothing happened in between. */
  lemma AcceptedMeansUnchanged(c: Cluster, key: Key, seen: Object, body: Body)
    requires Current(c, key, seen)
    requires Answer(c, Update(key, body, seen.version)).Done?
    ensures key in c.store && c.store[key] == seen
  {
  }
}
