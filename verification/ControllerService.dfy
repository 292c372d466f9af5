/** The service of a HigressController: the user's ports, or those already stored, completed with the
    ports the bundled pilot needs. */
module ControllerService {
  import opened Values
  import opened GatewaySpec

  datatype ServiceInput = ServiceInput(selector: Labels, service: Option<ServiceConfig>, higressIstio: bool)

  const DEFAULT_PORTS := [Port("grpc-xds", TCP, 15010), Port("https-dns", TCP, 15012),
                          Port("https-webhook", TCP, 443), Port("https-monitoring", TCP, 15014)]
  const TCP := "TCP"
  const CLUSTER_IP := "ClusterIP"

  class Service {
    var selector: Labels
    var kind: string
    var ports: seq<Port>

    constructor ()
      ensures ports == []
    {
      selector, kind, ports := map[], "", [];
    }
  }

  ghost function PortNames(ports: seq<Port>): set<string> {
    set i | 0 <= i < |ports| :: ports[i].name
  }

  /** The ports that are there before the defaults come in: a configured service replaces what is
      stored, without one the stored ports are retained. */
  function Given(stored: seq<Port>, s: ServiceInput): seq<Port> {
    if s.service.Some? then s.service.value.ports else stored
  }

  ghost function Missing(ports: seq<Port>, names: set<string>): seq<Port> {
    if ports == [] then []
    else Missing(ports[..|ports| - 1], names) + if ports[|ports| - 1].name in names then [] else [ports[|ports| - 1]]
  }

  /** Completing a list of ports: every default whose name is missing goes to the end. */
  ghost function Completed(given: seq<Port>, defaults: seq<Port>): seq<Port> {
    given + Missing(defaults, PortNames(given))
  }

  ghost function Merged(stored: seq<Port>, s: ServiceInput): seq<Port> {
    if s.higressIstio then Given(stored, s) else Completed(Given(stored, s), DEFAULT_PORTS)
  }

  // ----- the ports, one by one -----

  /** The default port of this name and number, unless the name is given. */
  predicate Named(given: seq<Port>, name: string) {
    exists p | p in given :: p.name == name
  }

  function Default(given: seq<Port>, name: string, number: int): seq<Port> {
    if Named(given, name) then [] else [Port(name, "TCP", number)]
  }

  /** The ports of the configured service, or the stored ones without it; then, without the bundled
      Istio, each of four ports whose name is not among them. */
  predicate PortsMatch(stored: seq<Port>, s: ServiceInput, ports: seq<Port>) {
    var given := if s.service.None? then stored else s.service.value.ports;
    if s.higressIstio then ports == given
    else ports == given + Default(given, "grpc-xds", 15010) + Default(given, "https-dns", 15012)
                  + Default(given, "https-webhook", 443) + Default(given, "https-monitoring", 15014)
  }

  lemma NamedExactly(given: seq<Port>, name: string)
    ensures Named(given, name) <==> name in PortNames(given)
  {
    if Named(given, name) {
      var p :| p in given && p.name == name;
      var i :| 0 <= i < |given| && given[i] == p;
    }
  }

  lemma LastMissing(front: seq<Port>, last: Port, given: seq<Port>)
    requires last.protocol == TCP
    ensures Missing(front + [last], PortNames(given))
            == Missing(front, PortNames(given)) + Default(given, last.name, last.port)
  {
    assert (front + [last])[..|front|] == front;
    NamedExactly(given, last.name);
  }

  lemma FourMissing(a: Port, b: Port, c: Port, d: Port, given: seq<Port>)
    requires a.protocol == b.protocol == c.protocol == d.protocol == TCP
    ensures Missing([a, b, c, d], PortNames(given))
            == Default(given, a.name, a.port) + Default(given, b.name, b.port)
               + Default(given, c.name, c.port) + Default(given, d.name, d.port)
  {
    LastMissing([], a, given);
    LastMissing([a], b, given);
    LastMissing([a, b], c, given);
    LastMissing([a, b, c], d, given);
    assert [a] == [] + [a] && [a, b] == [a] + [b] && [a, b, c] == [a, b] + [c] && [a, b, c, d] == [a, b, c] + [d];
  }

  lemma PortsByField(stored: seq<Port>, s: ServiceInput)
    ensures PortsMatch(stored, s, Merged(stored, s))
  {
    FourMissing(DEFAULT_PORTS[0], DEFAULT_PORTS[1], DEFAULT_PORTS[2], DEFAULT_PORTS[3], Given(stored, s));
  }

  method NamesOf(ports: seq<Port>) returns (names: set<string>)
    ensures names == PortNames(ports)
  {
    names := {};
    for i := 0 to |ports|
      invariant names == PortNames(ports[..i])
    {
      NamesOfSum(ports[..i], [ports[i]]);
      assert ports[..i + 1] == ports[..i] + [ports[i]];
      names := names + {ports[i].name};
    }
    assert ports[..|ports|] == ports;
  }

  method AddMissing(svc: Service, defaults: seq<Port>)
    modifies svc`ports
    ensures svc.ports == Completed(old(svc.ports), defaults)
  {
    var names := NamesOf(svc.ports);
    for i := 0 to |defaults|
      invariant svc.ports == old(svc.ports) + Missing(defaults[..i], names)
    {
      assert defaults[..i + 1][..i] == defaults[..i];
      if defaults[i].name !in names {
        svc.ports := svc.ports + [defaults[i]];
      }
    }
    assert defaults[..|defaults|] == defaults;
  }

  method UpdateServiceSpec(svc: Service, s: ServiceInput)
    modifies svc
    ensures svc.selector == s.selector
    ensures svc.kind == if s.service.Some? && s.service.value.kind != "" then s.service.value.kind else "ClusterIP"
    ensures svc.ports == Merged(old(svc.ports), s) && PortsMatch(old(svc.ports), s, svc.ports)
  {
    PortsByField(svc.ports, s);
    svc.selector := s.selector;
    svc.kind := CLUSTER_IP;
    if s.service.Some? {
      if s.service.value.kind != "" {
        svc.kind := s.service.value.kind;
      }
      svc.ports := s.service.value.ports;
    }
    if !s.higressIstio {
      AddMissing(svc, DEFAULT_PORTS);
    }
  }

  // ----- what the merge promises -----

  ghost predicate DistinctPortNames(ports: seq<Port>) {
    forall i, j | 0 <= i < j < |ports| :: ports[i].name != ports[j].name
  }

  /** Kubernetes tells the ports of a service apart by protocol and number. */
  function Slot(p: Port): (string, int) {
    (if p.protocol == "" then TCP else p.protocol, p.port)
  }

  ghost predicate DistinctSlots(ports: seq<Port>) {
    forall i, j | 0 <= i < j < |ports| :: Slot(ports[i]) != Slot(ports[j])
  }

  lemma DefaultsAreDistinct()
    ensures DistinctPortNames(DEFAULT_PORTS) && DistinctSlots(DEFAULT_PORTS)
  {
  }

  lemma NamesOfSum(a: seq<Port>, b: seq<Port>)
    ensures PortNames(a + b) == PortNames(a) + PortNames(b)
  {
    var sum := a + b;
    assert forall i | 0 <= i < |a| :: sum[i] == a[i];
    assert forall i | 0 <= i < |b| :: sum[|a| + i] == b[i];
  }

  /** Exactly the ports whose names are missing. */
  lemma {:induction false} MissingIs(ports: seq<Port>, names: set<string>, p: Port)
    ensures p in Missing(ports, names) <==> p in ports && p.name !in names
  {
    if ports != [] {
      var front, last := ports[..|ports| - 1], ports[|ports| - 1];
      MissingIs(front, names, p);
      assert ports == front + [last];
    }
  }

  /** In their order, none more often than it is listed. */
  lemma {:induction false} MissingIsDistinct(ports: seq<Port>, names: set<string>)
    requires DistinctPortNames(ports) && DistinctSlots(ports)
    ensures DistinctPortNames(Missing(ports, names)) && DistinctSlots(Missing(ports, names))
  {
    if ports != [] {
      var front, last := ports[..|ports| - 1], ports[|ports| - 1];
      MissingIsDistinct(front, names);
      var out := Missing(front, names);
      forall i | 0 <= i < |out|
        ensures out[i].name != last.name && Slot(out[i]) != Slot(last)
      {
        MissingIs(front, names, out[i]);
        var k :| 0 <= k < |front| && front[k] == out[i];
        assert ports[k] == out[i];
      }
    }
  }

  lemma {:induction false} NothingMissing(ports: seq<Port>, names: set<string>)
    requires forall p | p in ports :: p.name in names
    ensures Missing(ports, names) == []
  {
    if ports != [] {
      NothingMissing(ports[..|ports| - 1], names);
    }
  }

  lemma CompletedHasAll(given: seq<Port>, defaults: seq<Port>)
    ensures forall d | d in defaults :: d.name in PortNames(Completed(given, defaults))
  {
    var added := Missing(defaults, PortNames(given));
    NamesOfSum(given, added);
    forall d | d in defaults
      ensures d.name in PortNames(Completed(given, defaults))
    {
      MissingIs(defaults, PortNames(given), d);
      if d.name !in PortNames(given) {
        var i :| 0 <= i < |added| && added[i] == d;
      }
    }
  }

  lemma CompletedIsDistinct(given: seq<Port>, defaults: seq<Port>)
    requires DistinctPortNames(given) && DistinctPortNames(defaults) && DistinctSlots(defaults)
    ensures DistinctPortNames(Completed(given, defaults))
  {
    var added := Missing(defaults, PortNames(given));
    MissingIsDistinct(defaults, PortNames(given));
    forall i, j | 0 <= i < |given| && 0 <= j < |added|
      ensures given[i].name != added[j].name
    {
      MissingIs(defaults, PortNames(given), added[j]);
    }
  }

  /** The given ports come first and in order; without the bundled Istio all four default names are
      there; what was added are defaults whose names were missing, none of them twice; and names
      stay distinct. */
  lemma MergeCompletes(stored: seq<Port>, s: ServiceInput)
    ensures var given, merged := Given(stored, s), Merged(stored, s);
            var added := merged[|given|..];
            && given <= merged
            && (!s.higressIstio ==> forall d | d in DEFAULT_PORTS :: d.name in PortNames(merged))
            && (forall p | p in added :: p in DEFAULT_PORTS && p.name !in PortNames(given))
            && DistinctPortNames(added)
            && (DistinctPortNames(given) ==> DistinctPortNames(merged))
  {
    var given, merged := Given(stored, s), Merged(stored, s);
    if !s.higressIstio {
      var defaults, added := DEFAULT_PORTS, Missing(DEFAULT_PORTS, PortNames(given));
      assert merged[|given|..] == added;
      DefaultsAreDistinct();
      CompletedHasAll(given, defaults);
      MissingIsDistinct(defaults, PortNames(given));
      forall p
        ensures p in added <==> p in defaults && p.name !in PortNames(given)
      {
        MissingIs(defaults, PortNames(given), p);
      }
      if DistinctPortNames(given) {
        CompletedIsDistinct(given, defaults);
      }
    }
  }

  /** Merging again, as initialisation followed by mutation does and every later reconcile, gives
      the same ports. */
  lemma MergeSettles(stored: seq<Port>, s: ServiceInput)
    ensures Merged(Merged(stored, s), s) == Merged(stored, s)
  {
    if s.service.None? && !s.higressIstio {
      var merged := Merged(stored, s);
      CompletedHasAll(stored, DEFAULT_PORTS);
      NothingMissing(DEFAULT_PORTS, PortNames(merged));
    }
  }

  lemma SharedSlot(a: seq<Port>, b: seq<Port>, p: Port, d: Port)
    requires p in a && d in b && Slot(p) == Slot(d)
    ensures !DistinctSlots(a + b)
  {
    var i :| 0 <= i < |a| && a[i] == p;
    var j :| 0 <= j < |b| && b[j] == d;
    assert (a + b)[i] == p && (a + b)[|a| + j] == d;
  }

  lemma CompletedSlotsExactly(given: seq<Port>, defaults: seq<Port>)
    requires DistinctPortNames(defaults) && DistinctSlots(defaults)
    ensures DistinctSlots(Completed(given, defaults))
            <==> DistinctSlots(given)
                 && forall p, d | p in given && d in defaults && Slot(p) == Slot(d) :: d.name in PortNames(given)
  {
    var merged, added := Completed(given, defaults), Missing(defaults, PortNames(given));
    MissingIsDistinct(defaults, PortNames(given));
    forall p
      ensures p in added <==> p in defaults && p.name !in PortNames(given)
    {
      MissingIs(defaults, PortNames(given), p);
    }
    if DistinctSlots(merged) {
      forall i, j | 0 <= i < j < |given|
        ensures Slot(given[i]) != Slot(given[j])
      {
        assert Slot(merged[i]) != Slot(merged[j]);
      }
      forall p, d | p in given && d in defaults && Slot(p) == Slot(d)
        ensures d.name in PortNames(given)
      {
        if d.name !in PortNames(given) {
          SharedSlot(given, added, p, d);
        }
      }
    }
    if DistinctSlots(given)
       && forall p, d | p in given && d in defaults && Slot(p) == Slot(d) :: d.name in PortNames(given)
    {
      SumIsDistinct(given, added);
    }
  }

  lemma SumIsDistinct(a: seq<Port>, b: seq<Port>)
    requires DistinctSlots(a) && DistinctSlots(b)
    requires forall p, d | p in a && d in b :: Slot(p) != Slot(d)
    ensures DistinctSlots(a + b)
  {
  }

  /** The merge goes by name, but a service must not use a number twice under one protocol. It keeps
      these apart exactly when the given ports do and none of them takes that of a default which
      is not there by name. */
  lemma SlotsStayDistinctExactly(stored: seq<Port>, s: ServiceInput)
    requires !s.higressIstio
    ensures var given := Given(stored, s);
            DistinctSlots(Merged(stored, s))
            <==> DistinctSlots(given)
                 && forall p, d | p in given && d in DEFAULT_PORTS && Slot(p) == Slot(d) :: d.name in PortNames(given)
  {
    DefaultsAreDistinct();
    CompletedSlotsExactly(Given(stored, s), DEFAULT_PORTS);
  }
}
