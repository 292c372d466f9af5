/** The deployment of a HigressController. Unlike the gateway's it is not rebuilt: every update keeps
    the containers it finds and only adds those it misses, so the list grows from run to run. */
module ControllerDeployment {
  import opened Values
  import opened GatewaySpec

  /** `accountName` is empty where the source falls back on the controller's own name. */
  datatype ControllerSpec = ControllerSpec(
    replicas: Option<int>,
    selector: Labels,
    accountName: string,
    controllerName: string,
    controllerImage: string,
    controllerEnv: map<string, string>,
    pilotName: string,
    pilotImage: string,
    pilotEnv: map<string, string>,
    higressIstio: bool,
    jwtPolicy: string,
    extraRootCA: string)

  /** `mounts` names the volumes a container mounts. */
  datatype Container = Container(name: string, image: string, env: seq<EnvVar>, mounts: seq<string>)

  const CORE_NAME := "higress-core"
  const DISCOVERY_NAME := "discovery"
  const THIRD_PARTY_JWT := "third-party-jwt"
  const BASE_VOLUMES := ["log", "local-certs", "cacerts", "istio-kubeconfig"]

  function ControllerName(s: ControllerSpec): string {
    if s.controllerName != "" then s.controllerName else CORE_NAME
  }

  function PilotName(s: ControllerSpec): string {
    if s.pilotName != "" then s.pilotName else DISCOVERY_NAME
  }

  function AccountOf(name: string, s: ControllerSpec): string {
    if s.accountName != "" then s.accountName else name
  }

  function JwtVolume(s: ControllerSpec): seq<string> {
    if s.jwtPolicy == THIRD_PARTY_JWT then ["istio-token"] else []
  }

  function CaVolume(s: ControllerSpec): seq<string> {
    if s.extraRootCA != "" then ["extracacerts"] else []
  }

  function VolumesOf(s: ControllerSpec): seq<string> {
    BASE_VOLUMES + (if s.higressIstio then [] else ["config"]) + JwtVolume(s) + CaVolume(s)
  }

  function PilotMounts(s: ControllerSpec): seq<string> {
    ["config", "local-certs", "cacerts", "istio-kubeconfig"] + JwtVolume(s) + CaVolume(s)
  }

  /** The user's variables in some order, the one a map iteration happens to take. */
  ghost predicate Lists(env: seq<EnvVar>, entries: map<string, string>) {
    && (forall i, j | 0 <= i < j < |env| :: env[i].name != env[j].name)
    && (forall v | v in env :: v.name in entries && entries[v.name] == v.value)
    && (forall k | k in entries :: EnvVar(k, entries[k]) in env)
  }

  /** The two containers of a spec, with their variables in given orders. */
  function Controller(s: ControllerSpec, env: seq<EnvVar>): Container {
    Container(ControllerName(s), s.controllerImage, env, ["log"])
  }

  function Pilot(s: ControllerSpec, env: seq<EnvVar>): Container {
    Container(PilotName(s), s.pilotImage, env, PilotMounts(s))
  }

  predicate Has(cs: seq<Container>, name: string) {
    exists i | 0 <= i < |cs| :: cs[i].name == name
  }

  function Extended(cs: seq<Container>, c: Container): seq<Container> {
    if Has(cs, c.name) then cs else cs + [c]
  }

  /** The containers after an update that drew these orders. */
  function Containers(cs: seq<Container>, s: ControllerSpec, env: seq<EnvVar>, pilotEnv: seq<EnvVar>): seq<Container> {
    var own := Extended(cs, Controller(s, env));
    if s.higressIstio then own else Extended(own, Pilot(s, pilotEnv))
  }

  // ----- what an update adds, field by field -----

  function NameOr(name: string, fallback: string): string {
    if name == "" then fallback else name
  }

  ghost predicate IsController(s: ControllerSpec, c: Container) {
    && c.name == NameOr(s.controllerName, "higress-core")
    && c.image == s.controllerImage && Lists(c.env, s.controllerEnv) && c.mounts == ["log"]
  }

  ghost predicate IsPilot(s: ControllerSpec, c: Container) {
    && c.name == NameOr(s.pilotName, "discovery")
    && c.image == s.pilotImage && Lists(c.env, s.pilotEnv) && MountsMatch(s, c.mounts)
  }

  ghost predicate MountsMatch(s: ControllerSpec, mounts: seq<string>) {
    forall m :: m in mounts <==>
      || m == "config" || m == "local-certs" || m == "cacerts" || m == "istio-kubeconfig"
      || (m == "istio-token" && s.jwtPolicy == "third-party-jwt")
      || (m == "extracacerts" && s.extraRootCA != "")
  }

  ghost predicate VolumesMatch(s: ControllerSpec, volumes: seq<string>) {
    forall v :: v in volumes <==>
      || v == "log" || v == "local-certs" || v == "cacerts" || v == "istio-kubeconfig"
      || (v == "config" && !s.higressIstio)
      || (v == "istio-token" && s.jwtPolicy == "third-party-jwt")
      || (v == "extracacerts" && s.extraRootCA != "")
  }

  /** One container more, of this name; none if the name is taken. */
  predicate OneMore(cs: seq<Container>, name: string, after: seq<Container>) {
    if exists c | c in cs :: c.name == name then after == cs
    else |after| == |cs| + 1 && cs <= after && after[|cs|].name == name
  }

  ghost predicate ControllerAdded(s: ControllerSpec, before: seq<Container>, after: seq<Container>) {
    && OneMore(before, NameOr(s.controllerName, "higress-core"), after)
    && (after != before ==> IsController(s, after[|before|]))
  }

  ghost predicate PilotAdded(s: ControllerSpec, before: seq<Container>, after: seq<Container>) {
    && OneMore(before, NameOr(s.pilotName, "discovery"), after)
    && (after != before ==> IsPilot(s, after[|before|]))
  }

  /** The controller's container if its name is missing, then without the bundled Istio the pilot's if
      its name is. */
  ghost predicate UpdateMatches(s: ControllerSpec, before: seq<Container>, after: seq<Container>) {
    if s.higressIstio then ControllerAdded(s, before, after)
    else exists mid :: ControllerAdded(s, before, mid) && PilotAdded(s, mid, after)
  }

  lemma ExtendingIsOneMore(cs: seq<Container>, c: Container)
    ensures OneMore(cs, c.name, Extended(cs, c))
    ensures Extended(cs, c) != cs ==> Extended(cs, c)[|cs|] == c
  {
    if Has(cs, c.name) {
      var i :| 0 <= i < |cs| && cs[i].name == c.name;
      assert cs[i] in cs;
    }
  }

  lemma ControllerByField(cs: seq<Container>, s: ControllerSpec, env: seq<EnvVar>)
    requires Lists(env, s.controllerEnv)
    ensures ControllerAdded(s, cs, Extended(cs, Controller(s, env)))
  {
    ExtendingIsOneMore(cs, Controller(s, env));
  }

  lemma MountsByField(s: ControllerSpec)
    ensures MountsMatch(s, PilotMounts(s))
  {
  }

  lemma PilotByField(cs: seq<Container>, s: ControllerSpec, env: seq<EnvVar>)
    requires Lists(env, s.pilotEnv)
    ensures PilotAdded(s, cs, Extended(cs, Pilot(s, env)))
  {
    MountsByField(s);
    ExtendingIsOneMore(cs, Pilot(s, env));
  }

  /** Images, variables and mounts of what an update adds are those of the spec. */
  lemma ContainersByField(cs: seq<Container>, s: ControllerSpec, env: seq<EnvVar>, pilotEnv: seq<EnvVar>)
    requires Lists(env, s.controllerEnv) && Lists(pilotEnv, s.pilotEnv)
    ensures UpdateMatches(s, cs, Containers(cs, s, env, pilotEnv))
  {
    ControllerByField(cs, s, env);
    PilotByField(Extended(cs, Controller(s, env)), s, pilotEnv);
  }

  lemma VolumesByField(s: ControllerSpec)
    ensures VolumesMatch(s, VolumesOf(s))
  {
  }

  class Deployment {
    var replicas: Option<int>
    var selector: Labels
    var templateName: string
    var templateLabels: Labels
    var account: string
    var containers: seq<Container>
    var volumes: seq<string>

    constructor ()
      ensures containers == []
    {
      replicas, selector, containers, volumes := None, map[], [], [];
      templateName, templateLabels, account := "", map[], "";
    }
  }

  method GenEnv(entries: map<string, string>) returns (env: seq<EnvVar>)
    ensures Lists(env, entries)
  {
    env := [];
    var keys := entries.Keys;
    while keys != {}
      invariant keys <= entries.Keys
      invariant Lists(env, map k | k in entries.Keys - keys :: entries[k])
      decreases keys
    {
      var k :| k in keys;
      env := env + [EnvVar(k, entries[k])];
      keys := keys - {k};
    }
    assert (map k | k in entries.Keys - keys :: entries[k]) == entries;
  }

  method FindContainer(cs: seq<Container>, name: string) returns (found: bool)
    ensures found <==> Has(cs, name)
  {
    for i := 0 to |cs|
      invariant !Has(cs[..i], name)
    {
      if cs[i].name == name {
        return true;
      }
      assert cs[..i + 1] == cs[..i] + [cs[i]];
    }
    assert cs[..|cs|] == cs;
    return false;
  }

  method GenVolumes(s: ControllerSpec) returns (volumes: seq<string>)
    ensures volumes == VolumesOf(s) && VolumesMatch(s, volumes)
  {
    VolumesByField(s);
    volumes := BASE_VOLUMES;
    if !s.higressIstio {
      volumes := volumes + ["config"];
    }
    if s.jwtPolicy == THIRD_PARTY_JWT {
      volumes := volumes + ["istio-token"];
    }
    if s.extraRootCA != "" {
      volumes := volumes + ["extracacerts"];
    }
  }

  method UpdateDeploymentSpec(deploy: Deployment, name: string, s: ControllerSpec)
    modifies deploy
    ensures exists env, pilotEnv | Lists(env, s.controllerEnv) && Lists(pilotEnv, s.pilotEnv) ::
              deploy.containers == Containers(old(deploy.containers), s, env, pilotEnv)
    ensures deploy.volumes == VolumesOf(s) && VolumesMatch(s, deploy.volumes)
    ensures deploy.replicas == s.replicas && deploy.selector == s.selector == deploy.templateLabels
    ensures deploy.templateName == name && deploy.account == if s.accountName == "" then name else s.accountName
  {
    deploy.selector := s.selector;
    deploy.replicas := s.replicas;
    deploy.templateName, deploy.templateLabels := name, s.selector;
    deploy.account := AccountOf(name, s);

    var env := GenEnv(s.controllerEnv);
    var exist := FindContainer(deploy.containers, ControllerName(s));
    if !exist {
      deploy.containers := deploy.containers + [Controller(s, env)];
    }
    assert deploy.containers == Extended(old(deploy.containers), Controller(s, env));

    var volumes := GenVolumes(s);
    deploy.volumes := volumes;

    var pilotEnv := GenEnv(s.pilotEnv);
    if !s.higressIstio {
      exist := FindContainer(deploy.containers, PilotName(s));
      if !exist {
        deploy.containers := deploy.containers + [Pilot(s, pilotEnv)];
      }
    }
    assert deploy.containers == Containers(old(deploy.containers), s, env, pilotEnv);
  }

  // ----- one update -----

  ghost predicate DistinctNames(cs: seq<Container>) {
    forall i, j | 0 <= i < j < |cs| :: cs[i].name != cs[j].name
  }

  /** The names an update makes sure of. */
  function Configured(s: ControllerSpec): set<string> {
    if s.higressIstio then {ControllerName(s)} else {ControllerName(s), PilotName(s)}
  }

  ghost function Names(cs: seq<Container>): set<string> {
    set i | 0 <= i < |cs| :: cs[i].name
  }

  lemma ExtendingKeeps(cs: seq<Container>, c: Container)
    ensures cs <= Extended(cs, c) && |Extended(cs, c)| <= |cs| + 1
    ensures DistinctNames(cs) ==> DistinctNames(Extended(cs, c))
    ensures Names(Extended(cs, c)) == Names(cs) + {c.name}
    ensures forall x | x in Extended(cs, c) :: x in cs || x == c
  {
    var out := Extended(cs, c);
    assert forall i | 0 <= i < |cs| :: out[i] == cs[i];
    if !Has(cs, c.name) {
      assert out[|cs|].name == c.name;
    }
  }

  /** The old list stays a prefix, at most two containers are added, names stay distinct, and the
      names present afterwards are the old ones and the configured ones. */
  lemma UpdateAccumulates(cs: seq<Container>, s: ControllerSpec, env: seq<EnvVar>, pilotEnv: seq<EnvVar>)
    ensures var after := Containers(cs, s, env, pilotEnv);
            && cs <= after && |after| <= |cs| + 2
            && (DistinctNames(cs) ==> DistinctNames(after))
            && Names(after) == Names(cs) + Configured(s)
            && forall c | c in after ::
                 c in cs || c == Controller(s, env) || (!s.higressIstio && c == Pilot(s, pilotEnv))
  {
    ExtendingKeeps(cs, Controller(s, env));
    ExtendingKeeps(Extended(cs, Controller(s, env)), Pilot(s, pilotEnv));
  }

  /** An update changes the containers exactly when it misses one of its names, so a second update
      with the same names, whatever the orders drawn and the images asked for, is no change at all. */
  lemma UpdateIsNoopExactly(cs: seq<Container>, s: ControllerSpec, env: seq<EnvVar>, pilotEnv: seq<EnvVar>)
    ensures Containers(cs, s, env, pilotEnv) == cs <==> Configured(s) <= Names(cs)
  {
  }

  /** Initialising a deployment and then mutating it, or reconciling it again, adds nothing more. */
  lemma ReapplyingIsNoop(cs: seq<Container>, s: ControllerSpec, env: seq<EnvVar>, pilotEnv: seq<EnvVar>,
                         env': seq<EnvVar>, pilotEnv': seq<EnvVar>)
    ensures Containers(Containers(cs, s, env, pilotEnv), s, env', pilotEnv') == Containers(cs, s, env, pilotEnv)
  {
    UpdateAccumulates(cs, s, env, pilotEnv);
    UpdateIsNoopExactly(Containers(cs, s, env, pilotEnv), s, env', pilotEnv');
  }

  // ----- sequences of updates -----

  datatype Update = Update(s: ControllerSpec, env: seq<EnvVar>, pilotEnv: seq<EnvVar>)

  function After(cs: seq<Container>, updates: seq<Update>): seq<Container>
    decreases |updates|
  {
    if updates == [] then cs
    else After(Containers(cs, updates[0].s, updates[0].env, updates[0].pilotEnv), updates[1..])
  }

  ghost function EverConfigured(updates: seq<Update>): set<string>
    decreases |updates|
  {
    if updates == [] then {} else Configured(updates[0].s) + EverConfigured(updates[1..])
  }

  /** Over any sequence of specs nothing is removed or replaced: what a name meant when it first
      appeared it means for good, and every name ever configured is there exactly once. */
  lemma {:induction false} UpdatesAccumulate(cs: seq<Container>, updates: seq<Update>)
    ensures var after := After(cs, updates);
            && cs <= after && |after| <= |cs| + 2 * |updates|
            && (DistinctNames(cs) ==> DistinctNames(after))
            && Names(after) == Names(cs) + EverConfigured(updates)
    decreases |updates|
  {
    if updates != [] {
      var u := updates[0];
      UpdateAccumulates(cs, u.s, u.env, u.pilotEnv);
      UpdatesAccumulate(Containers(cs, u.s, u.env, u.pilotEnv), updates[1..]);
    }
  }

  /** Once all names are there the list is final: from then on every update of those specs, in
      whatever order they come, leaves it alone. */
  lemma {:induction false} AccumulationEnds(cs: seq<Container>, updates: seq<Update>)
    requires EverConfigured(updates) <= Names(cs)
    ensures After(cs, updates) == cs
    decreases |updates|
  {
    if updates != [] {
      UpdateIsNoopExactly(cs, updates[0].s, updates[0].env, updates[0].pilotEnv);
      AccumulationEnds(cs, updates[1..]);
    }
  }

  // ----- volumes -----

  /** Every container mounts only volumes the pod has. */
  ghost predicate Mountable(cs: seq<Container>, volumes: seq<string>) {
    forall c | c in cs :: forall m | m in c.mounts :: m in volumes
  }

  /** While the containers accumulate, the volumes are rebuilt from the latest spec alone. The result
      fits together exactly when the containers that were already there fit the new volumes. */
  lemma MountableExactly(cs: seq<Container>, s: ControllerSpec, env: seq<EnvVar>, pilotEnv: seq<EnvVar>)
    ensures Mountable(Containers(cs, s, env, pilotEnv), VolumesOf(s)) <==> Mountable(cs, VolumesOf(s))
  {
  }

  ghost predicate Covers(volumes: seq<string>, volumes': seq<string>) {
    forall v | v in volumes :: v in volumes'
  }

  lemma CoveredStaysMountable(cs: seq<Container>, volumes: seq<string>, volumes': seq<string>)
    requires Mountable(cs, volumes) && Covers(volumes, volumes')
    ensures Mountable(cs, volumes')
  {
  }

  /** As long as no spec takes a volume away, the deployment fits together at the end of any run. */
  lemma {:induction false} GrowingVolumesStayMountable(cs: seq<Container>, updates: seq<Update>)
    requires updates != [] && Mountable(cs, VolumesOf(updates[0].s))
    requires forall i | 0 < i < |updates| :: Covers(VolumesOf(updates[i - 1].s), VolumesOf(updates[i].s))
    ensures Mountable(After(cs, updates), VolumesOf(updates[|updates| - 1].s))
    decreases |updates|
  {
    var u, rest := updates[0], updates[1..];
    var next := Containers(cs, u.s, u.env, u.pilotEnv);
    MountableExactly(cs, u.s, u.env, u.pilotEnv);
    if rest != [] {
      assert updates[1] == rest[0] && Covers(VolumesOf(updates[1 - 1].s), VolumesOf(updates[1].s));
      CoveredStaysMountable(next, VolumesOf(u.s), VolumesOf(rest[0].s));
      assert forall i | 0 < i < |rest| :: rest[i - 1] == updates[i] && rest[i] == updates[i + 1];
      GrowingVolumesStayMountable(next, rest);
      assert rest[|rest| - 1] == updates[|updates| - 1];
    } else {
      assert After(next, rest) == next && updates[|updates| - 1] == u;
    }
  }

  /** Turning the bundled Istio on takes a volume away: the pilot container stays and keeps
      mounting the config volume that the pod no longer has. */
  lemma TurningIstioOnStrandsPilot(s: ControllerSpec, env: seq<EnvVar>, pilotEnv: seq<EnvVar>,
                                   env': seq<EnvVar>, pilotEnv': seq<EnvVar>)
    requires !s.higressIstio && PilotName(s) != ControllerName(s)
    ensures var on := s.(higressIstio := true);
            !Mountable(Containers(Containers([], s, env, pilotEnv), on, env', pilotEnv'), VolumesOf(on))
  {
    var on := s.(higressIstio := true);
    var before := Containers([], s, env, pilotEnv);
    assert before == [Controller(s, env), Pilot(s, pilotEnv)];
    MountableExactly(before, on, env', pilotEnv');
    assert before[1].mounts[0] == "config";
    assert "config" !in VolumesOf(on);
  }
}
