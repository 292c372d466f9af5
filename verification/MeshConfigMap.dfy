/** The gateway's config map: a builder that also writes into the instance it reads. */
module MeshConfigMap {
  /** `rest` stands for the settings that the builder copies through untouched. */
  datatype MeshConfig = MeshConfig(rootNamespace: string, sources: seq<string>, discovery: string, rest: string)

  datatype MeshSpec = MeshSpec(
    mesh: MeshConfig,
    networks: map<string, string>,
    higressIstio: bool,
    istioApi: bool,
    istioNamespace: string)

  /** YAML text, kept as the value it was marshalled from. */
  datatype Document = NetworksDocument(networks: map<string, string>) | MeshDocument(mesh: MeshConfig)

  type Data = map<string, Document>

  const ISTIO_SOURCE := "k8s://"

  function DiscoveryAddress(ns: string, spec: MeshSpec): string {
    (if spec.higressIstio then "istiod." else "higress-controller.") + ns + ".svc:15012"
  }

  function RootNamespace(ns: string, spec: MeshSpec): string {
    if !spec.higressIstio then ns
    else if spec.mesh.rootNamespace == "" then spec.istioNamespace
    else spec.mesh.rootNamespace
  }

  function Sources(spec: MeshSpec): seq<string> {
    spec.mesh.sources + if spec.istioApi then [ISTIO_SOURCE] else []
  }

  /** What the config map holds once a reconcile has been through it. */
  function StoredData(ns: string, spec: MeshSpec): Data {
    map["meshNetworks" := NetworksDocument(spec.networks),
        "mesh" := MeshDocument(MeshConfig(RootNamespace(ns, spec), Sources(spec),
                                          DiscoveryAddress(ns, spec), spec.mesh.rest))]
  }

  // ----- the data, field by field -----

  /** Where the gateway's proxies look for the control plane. */
  predicate DiscoversFrom(ns: string, spec: MeshSpec, address: string) {
    if spec.higressIstio then address == "istiod." + ns + ".svc:15012"
    else address == "higress-controller." + ns + ".svc:15012"
  }

  /** Mesh networks as given; of the mesh config the settings the builder decides on, and the rest as
      given. */
  predicate DataMatchesBut(ns: string, spec: MeshSpec, data: Data, discovery: string) {
    && data.Keys == {"meshNetworks", "mesh"}
    && data["meshNetworks"] == NetworksDocument(spec.networks)
    && data["mesh"].MeshDocument?
    && var mesh := data["mesh"].mesh;
       && mesh.discovery == discovery
       && (!spec.higressIstio ==> mesh.rootNamespace == ns)
       && (spec.higressIstio && spec.mesh.rootNamespace != "" ==> mesh.rootNamespace == spec.mesh.rootNamespace)
       && (spec.higressIstio && spec.mesh.rootNamespace == "" ==> mesh.rootNamespace == spec.istioNamespace)
       && (spec.istioApi ==> mesh.sources == spec.mesh.sources + ["k8s://"])
       && (!spec.istioApi ==> mesh.sources == spec.mesh.sources)
       && mesh.rest == spec.mesh.rest
  }

  predicate DataMatches(ns: string, spec: MeshSpec, data: Data) {
    && "mesh" in data && data["mesh"].MeshDocument?
    && DiscoversFrom(ns, spec, data["mesh"].mesh.discovery)
    && DataMatchesBut(ns, spec, data, data["mesh"].mesh.discovery)
  }

  lemma DataByField(ns: string, spec: MeshSpec, data: Data)
    ensures data == StoredData(ns, spec) <==> DataMatches(ns, spec, data)
  {
    var stored := StoredData(ns, spec);
    if DataMatches(ns, spec, data) {
      assert data.Keys == stored.Keys;
      assert data["mesh"] == stored["mesh"];
    }
  }

  class Instance {
    const ns: string
    var spec: MeshSpec

    constructor (ns: string, spec: MeshSpec)
      ensures this.ns == ns && this.spec == spec
    {
      this.ns, this.spec := ns, spec;
    }
  }

  class ConfigMap {
    var data: Data

    constructor ()
      ensures data == map[]
    {
      data := map[];
    }
  }

  /** One pass over the instance. The mesh config is copied before the instance's discovery
      address is replaced, so the document still carries the address found on entry. */
  method UpdateGatewayConfigMapSpec(cm: ConfigMap, instance: Instance)
    modifies cm, instance
    ensures DiscoversFrom(instance.ns, old(instance.spec), instance.spec.mesh.discovery)
    ensures DataMatchesBut(instance.ns, old(instance.spec), cm.data, old(instance.spec).mesh.discovery)
    ensures DataMatches(instance.ns, old(instance.spec), cm.data)
            <==> DiscoversFrom(instance.ns, old(instance.spec), old(instance.spec).mesh.discovery)
    ensures instance.spec == old(instance.spec).(mesh := old(instance.spec).mesh.(
                               discovery := DiscoveryAddress(instance.ns, old(instance.spec))))
    ensures old(instance.spec).mesh.discovery == DiscoveryAddress(instance.ns, old(instance.spec))
            <==> cm.data == StoredData(instance.ns, old(instance.spec))
    ensures cm.data == StoredData(instance.ns, old(instance.spec))["mesh" :=
                         MeshDocument(StoredData(instance.ns, old(instance.spec))["mesh"].mesh.(
                           discovery := old(instance.spec).mesh.discovery))]
  {
    var data: Data := map[];
    data := data["meshNetworks" := NetworksDocument(instance.spec.networks)];

    var mesh := instance.spec.mesh;
    if instance.spec.higressIstio {
      if mesh.rootNamespace == "" {
        mesh := mesh.(rootNamespace := instance.spec.istioNamespace);
      }
    } else {
      mesh := mesh.(rootNamespace := instance.ns);
    }

    if instance.spec.istioApi {
      mesh := mesh.(sources := mesh.sources + [ISTIO_SOURCE]);
    }

    if instance.spec.higressIstio {
      instance.spec := instance.spec.(mesh := instance.spec.mesh.(discovery := "istiod." + instance.ns + ".svc:15012"));
    } else {
      instance.spec := instance.spec.(mesh := instance.spec.mesh.(
        discovery := "higress-controller." + instance.ns + ".svc:15012"));
    }
    data := data["mesh" := MeshDocument(mesh)];
    cm.data := data;
    ghost var stored := StoredData(instance.ns, old(instance.spec));
    assert cm.data["mesh"] == MeshDocument(stored["mesh"].mesh.(discovery := old(instance.spec).mesh.discovery));
    assert stored["mesh"].mesh.discovery == DiscoveryAddress(instance.ns, old(instance.spec));
  }

  /** Initialisation followed by any number of mutations, at least one of which always runs. */
  method CreateConfigMap(instance: Instance, mutations: nat) returns (cm: ConfigMap)
    requires mutations >= 1
    modifies instance
    ensures fresh(cm)
    ensures cm.data == StoredData(instance.ns, old(instance.spec))
    ensures DataMatches(instance.ns, old(instance.spec), cm.data)
    ensures DiscoversFrom(instance.ns, old(instance.spec), instance.spec.mesh.discovery)
    ensures instance.spec == old(instance.spec).(mesh := old(instance.spec).mesh.(
                               discovery := DiscoveryAddress(instance.ns, old(instance.spec))))
  {
    cm := new ConfigMap();
    UpdateGatewayConfigMapSpec(cm, instance);
    for i := 0 to mutations
      invariant instance.spec == old(instance.spec).(mesh := old(instance.spec).mesh.(
                                   discovery := DiscoveryAddress(instance.ns, old(instance.spec))))
      invariant i > 0 ==> cm.data == StoredData(instance.ns, old(instance.spec))
    {
      UpdateGatewayConfigMapSpec(cm, instance);
    }
    DataByField(instance.ns, old(instance.spec), cm.data);
  }
}
