/** The gateway's deployment as its source builds it: fields overwritten in place, maps and lists
    filled by iterating over maps in whatever order comes. */
module GatewayDeployment {
  import opened Values
  import opened GatewaySpec
  import opened Objects

  class Deployment {
    var meta: Meta
    var replicas: Option<int>
    var selector: Labels
    var template: Template

    constructor (meta: Meta)
      ensures this.meta == meta && replicas.None? && fresh(this)
    {
      this.meta, this.replicas, this.selector := meta, None, map[];
      this.template := Template(map[], map[], "", "", "", "", [], None, false);
    }

    /** The stored form of the object. */
    ghost function Body(): Body
      reads this
    {
      DeploymentBody(meta, replicas, selector, template)
    }
  }

  /** Nil for nothing to copy, else the same entries. */
  method CopyStringMap(source: Option<Labels>) returns (result: Option<Labels>)
    ensures result == if source.None? || source.value == map[] then None else source
  {
    if source.None? || source.value == map[] {
      return None;
    }
    var copied: Labels := map[];
    var keys := source.value.Keys;
    while keys != {}
      invariant keys <= source.value.Keys
      invariant copied == map k | k in source.value.Keys - keys :: source.value[k]
      decreases keys
    {
      var k :| k in keys;
      copied := copied[k := source.value[k]];
      keys := keys - {k};
    }
    assert (map k | k in source.value.Keys - keys :: source.value[k]) == source.value;
    result := Some(copied);
  }

  /** To the store a nil map and an empty one are the same. */
  function Stored(labels: Option<Labels>): Labels {
    if labels.None? then map[] else labels.value
  }

  method AddMissing(labels: Labels, extra: Labels) returns (joined: Labels)
    ensures joined == extra + labels
  {
    joined := labels;
    var keys := extra.Keys;
    while keys != {}
      invariant keys <= extra.Keys
      invariant joined == (map k | k in extra.Keys - keys :: extra[k]) + labels
      decreases keys
    {
      var k :| k in keys;
      if k !in joined {
        joined := joined[k := extra[k]];
      }
      keys := keys - {k};
    }
    assert (map k | k in extra.Keys - keys :: extra[k]) == extra;
  }

  /** The scheduling labels join the selector's without replacing any of them. */
  method BuildPodTemplateLabels(spec: Spec) returns (labels: Option<Labels>)
    ensures Stored(labels) == TemplateLabels(spec)
    ensures labels.None? <==> TemplateLabels(spec) == map[]
    ensures LabelsMatch(spec, Stored(labels))
  {
    LabelsByField(spec);
    labels := CopyStringMap(Some(spec.selector));
    if spec.scheduling.None? || spec.scheduling.value.labels == map[] {
      return;
    }
    var joined := AddMissing(Stored(labels), spec.scheduling.value.labels);
    labels := Some(joined);
  }

  /** Appends the user's variables one by one, each time taking any that is left. */
  method GenEnv(spec: Spec) returns (env: seq<EnvVar>, ghost order: seq<EnvVar>)
    ensures multiset(order) == multiset(spec.env)
    ensures env == FixedEnv(spec) + order == FixedEnv(spec) + Arrange(spec.env, order)
  {
    env := [EnvVar("JWT_POLICY", spec.jwtPolicy)];
    if spec.network != "" {
      env := env + [EnvVar("ISTIO_META_REQUESTED_NETWORK_VIEW", spec.network)];
    }
    order := [];
    var left := multiset(spec.env);
    while left != multiset{}
      invariant left <= multiset(spec.env)
      invariant multiset(order) == multiset(spec.env) - left
      invariant env == FixedEnv(spec) + order
      decreases |left|
    {
      var v :| v in left;
      env, order := env + [v], order + [v];
      left := left - multiset{v};
    }
  }

  method GenTemplate(spec: Spec) returns (template: Template, ghost order: seq<EnvVar>)
    ensures template == TemplateOf(spec, order) && multiset(order) == multiset(spec.env)
    ensures TemplateMatches(spec, template)
  {
    var labels := BuildPodTemplateLabels(spec);
    var annotations := None;
    var scheduler, priorityClass := "", "";
    if spec.scheduling.Some? {
      annotations := CopyStringMap(Some(spec.scheduling.value.annotations));
      scheduler, priorityClass := spec.scheduling.value.scheduler, spec.scheduling.value.priorityClass;
    }
    var env;
    env, order := GenEnv(spec);
    template := Template(Stored(labels), Stored(annotations), scheduler, priorityClass, "", spec.image, env, None,
                         false);
    if !spec.local && spec.cpuRequest.Some? {
      template := template.(cpu := spec.cpuRequest);
    }
    if spec.hostNetwork {
      template := template.(hostNetwork := spec.hostNetwork);
    }
    if spec.account.Some? && spec.account.value.enable {
      template := template.(account := spec.account.value.name);
    }
    TemplateByField(spec, order);
  }

  /** Overwrites the whole spec; only the replica count may be carried over. */
  method UpdateDeploymentSpec(deploy: Deployment, spec: Spec, preserveReplicas: bool) returns (ghost order: seq<EnvVar>)
    modifies deploy
    ensures deploy.meta == old(deploy.meta)
    ensures deploy.replicas ==
              if preserveReplicas && old(deploy.replicas).Some? then old(deploy.replicas) else spec.replicas
    ensures deploy.selector == spec.selector && deploy.template == TemplateOf(spec, order)
    ensures multiset(order) == multiset(spec.env) && TemplateMatches(spec, deploy.template)
  {
    var replicas := spec.replicas;
    if preserveReplicas && deploy.replicas.Some? {
      replicas := deploy.replicas;
    }
    var template;
    template, order := GenTemplate(spec);
    deploy.replicas, deploy.selector, deploy.template := replicas, spec.selector, template;
  }

  /** A new deployment starts from the spec's replica count. */
  method InitDeployment(id: Id, gw: Gateway) returns (deploy: Deployment)
    ensures fresh(deploy)
    ensures exists order | multiset(order) == multiset(gw.spec.env) ::
              deploy.Body() == Initial(DeploymentKind, id, gw).(template := TemplateOf(gw.spec, order))
    ensures Alike(deploy.Body(), Initial(DeploymentKind, id, gw))
  {
    deploy := new Deployment(Meta(gw.labels, gw.annotations, Some(id.name)));
    var order := UpdateDeploymentSpec(deploy, gw.spec, EffectiveMode(gw.spec) != Disabled);
    assert Arrange(gw.spec.env, gw.spec.env) == gw.spec.env;
  }

  /** The callback does to the object what the protocol's mutation does to the stored one. */
  method MuteDeployment(deploy: Deployment, id: Id, gw: Gateway)
    modifies deploy
    ensures exists order | multiset(order) == multiset(gw.spec.env) ::
              deploy.Body() == Mutate(DeploymentKind, id, gw, order, old(deploy.Body()))
    ensures old(deploy.replicas).Some? && EffectiveMode(gw.spec) != Disabled ==> deploy.replicas == old(deploy.replicas)
    ensures old(deploy.replicas).None? || EffectiveMode(gw.spec) == Disabled ==> deploy.replicas == gw.spec.replicas
  {
    var order := UpdateDeploymentSpec(deploy, gw.spec, EffectiveMode(gw.spec) != Disabled);
    assert deploy.Body() == Mutate(DeploymentKind, id, gw, order, old(deploy.Body()));
  }

  /** A mutated deployment is left as it is by any later mutation, but for the order drawn. */
  lemma MutatedIsSettled(id: Id, gw: Gateway, drawn: seq<EnvVar>, before: Body, after: Body)
    requires before.DeploymentBody? && after == Mutate(DeploymentKind, id, gw, drawn, before)
    ensures forall order :: Alike(Mutate(DeploymentKind, id, gw, order, after), after)
  {
  }

  /** Initialising and then mutating, as a creation does, gives a deployment that has the spec's
      replica count in every mode and that any later mutation leaves as it is, but for the order
      of the environment. */
  method CreateDeployment(id: Id, gw: Gateway) returns (deploy: Deployment)
    ensures fresh(deploy) && deploy.replicas == gw.spec.replicas
    ensures forall order :: Alike(Mutate(DeploymentKind, id, gw, order, deploy.Body()), deploy.Body())
    ensures forall k | k in deploy.selector ::
              k in deploy.template.labels && deploy.template.labels[k] == deploy.selector[k]
  {
    deploy := InitDeployment(id, gw);
    ghost var before := deploy.Body();
    MuteDeployment(deploy, id, gw);
    ghost var drawn :| multiset(drawn) == multiset(gw.spec.env)
        && deploy.Body() == Mutate(DeploymentKind, id, gw, drawn, before);
    MutatedIsSettled(id, gw, drawn, before, deploy.Body());
  }
}
