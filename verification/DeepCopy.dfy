/** Gateways as they lie in memory: pointers to numbers, texts and maps, slices of structs that hold
    more pointers. A deep copy shares none of these cells with its original at any depth, which is
    what lets a status be changed in place and still be compared with what it was. */
module DeepCopy {
  import opened Values
  import opened GatewaySpec
  import opened Conditions

  class Number {
    var value: int
  }

  class Text {
    var value: string
  }

  class StringMap {
    var entries: map<string, string>
  }

  /** A struct is a value; copying it copies its pointers. */
  datatype TriggerRef = TriggerRef(kind: string, metadata: StringMap?, authentication: Text?)

  class KedaRef {
    var polling: Number?
    var cooldown: Number?
    var idle: Number?
    var triggers: array?<TriggerRef>
  }

  class ScalingRef {
    var mode: Mode
    var enable: bool
    var min: Number?
    var max: int
    var cpu: Number?
    var keda: KedaRef?
  }

  datatype StatusRef = StatusRef(deployed: bool, generation: int, mode: Mode, conditions: array?<Condition>)

  class GatewayRef {
    var scaling: ScalingRef?
    var status: StatusRef
  }

  // ----- saying the same: nil where nil, and equal in everything that can be reached -----

  ghost predicate SameNumber(a: Number?, b: Number?)
    reads a, b
  {
    (a == null <==> b == null) && (a != null ==> a.value == b.value)
  }

  ghost predicate SameTrigger(a: TriggerRef, b: TriggerRef)
    reads a.metadata, a.authentication, b.metadata, b.authentication
  {
    && a.kind == b.kind
    && (a.metadata == null <==> b.metadata == null)
    && (a.metadata != null ==> a.metadata.entries == b.metadata.entries)
    && (a.authentication == null <==> b.authentication == null)
    && (a.authentication != null ==> a.authentication.value == b.authentication.value)
  }

  ghost predicate SameKeda(a: KedaRef, b: KedaRef)
    reads *
  {
    && SameNumber(a.polling, b.polling) && SameNumber(a.cooldown, b.cooldown) && SameNumber(a.idle, b.idle)
    && (a.triggers == null <==> b.triggers == null)
    && (a.triggers != null ==>
          && a.triggers.Length == b.triggers.Length
          && forall i | 0 <= i < a.triggers.Length :: SameTrigger(a.triggers[i], b.triggers[i]))
  }

  ghost predicate SameFields(a: ScalingRef, b: ScalingRef)
    reads a, b, a.min, b.min, a.cpu, b.cpu
  {
    && a.mode == b.mode && a.enable == b.enable && a.max == b.max
    && SameNumber(a.min, b.min) && SameNumber(a.cpu, b.cpu)
  }

  ghost predicate SameScaling(a: ScalingRef?, b: ScalingRef?)
    reads *
  {
    && (a == null <==> b == null)
    && (a != null ==>
          && SameFields(a, b)
          && (a.keda == null <==> b.keda == null)
          && (a.keda != null ==> SameKeda(a.keda, b.keda)))
  }

  ghost function ViewConditions(conditions: array?<Condition>): seq<Condition>
    reads conditions
  {
    if conditions == null then [] else conditions[..]
  }

  ghost function ViewStatus(st: StatusRef): Status
    reads st.conditions
  {
    Status(st.deployed, st.generation, st.mode, ViewConditions(st.conditions))
  }

  // ----- sharing nothing: every cell that can be reached is new -----

  twostate predicate NewNumber(new n: Number?) {
    n != null ==> fresh(n)
  }

  twostate predicate NewTrigger(new t: TriggerRef) {
    (t.metadata != null ==> fresh(t.metadata)) && (t.authentication != null ==> fresh(t.authentication))
  }

  twostate predicate NewKeda(new k: KedaRef)
    reads k, k.triggers
  {
    && fresh(k) && NewNumber(k.polling) && NewNumber(k.cooldown) && NewNumber(k.idle)
    && (k.triggers != null ==> fresh(k.triggers) && forall i | 0 <= i < k.triggers.Length :: NewTrigger(k.triggers[i]))
  }

  twostate predicate NewScaling(new s: ScalingRef?)
    reads *
  {
    s != null ==> fresh(s) && NewNumber(s.min) && NewNumber(s.cpu) && (s.keda != null ==> NewKeda(s.keda))
  }

  // ----- copying -----

  method CopyNumber(n: Number?) returns (out: Number?)
    ensures SameNumber(n, out) && NewNumber(out)
  {
    out := null;
    if n != null {
      out := new Number;
      out.value := n.value;
    }
  }

  method CopyMap(m: StringMap) returns (out: StringMap)
    ensures fresh(out) && out.entries == m.entries
  {
    out := new StringMap;
    out.entries := map[];
    var keys := m.entries.Keys;
    while keys != {}
      invariant fresh(out)
      invariant keys <= m.entries.Keys
      invariant out.entries == map key | key in m.entries.Keys - keys :: m.entries[key]
      decreases keys
    {
      var key :| key in keys;
      out.entries := out.entries[key := m.entries[key]];
      keys := keys - {key};
    }
    assert m.entries.Keys - keys == m.entries.Keys;
  }

  method CopyTrigger(t: TriggerRef) returns (out: TriggerRef)
    ensures SameTrigger(t, out) && NewTrigger(out)
  {
    out := t;
    if t.metadata != null {
      var metadata := CopyMap(t.metadata);
      out := out.(metadata := metadata);
    }
    if t.authentication != null {
      var authentication := new Text;
      authentication.value := t.authentication.value;
      out := out.(authentication := authentication);
    }
  }

  method CopyTriggers(triggers: array<TriggerRef>) returns (out: array<TriggerRef>)
    ensures fresh(out) && out.Length == triggers.Length
    ensures forall i | 0 <= i < out.Length :: SameTrigger(triggers[i], out[i]) && NewTrigger(out[i])
  {
    out := new TriggerRef[triggers.Length](_ => TriggerRef("", null, null));
    for i := 0 to triggers.Length
      invariant fresh(out)
      invariant forall j | 0 <= j < i :: SameTrigger(triggers[j], out[j]) && NewTrigger(out[j])
    {
      var trigger := CopyTrigger(triggers[i]);
      out[i] := trigger;
    }
  }

  method CopyKeda(k: KedaRef) returns (out: KedaRef)
    ensures SameKeda(k, out) && NewKeda(out)
  {
    out := new KedaRef;
    out.polling := CopyNumber(k.polling);
    out.cooldown := CopyNumber(k.cooldown);
    out.idle := CopyNumber(k.idle);
    out.triggers := null;
    if k.triggers != null {
      out.triggers := CopyTriggers(k.triggers);
    }
  }

  method CopyOwnFields(s: ScalingRef) returns (out: ScalingRef)
    ensures SameFields(s, out) && fresh(out) && NewNumber(out.min) && NewNumber(out.cpu) && out.keda == null
  {
    out := new ScalingRef;
    out.mode, out.enable, out.max, out.keda := s.mode, s.enable, s.max, null;
    out.min := CopyNumber(s.min);
    out.cpu := CopyNumber(s.cpu);
  }

  method CopyScaling(s: ScalingRef?) returns (out: ScalingRef?)
    ensures SameScaling(s, out) && NewScaling(out)
  {
    if s == null {
      return null;
    }
    out := CopyOwnFields(s);
    if s.keda != null {
      var keda := CopyKeda(s.keda);
      out.keda := keda;
    }
  }

  method CopyStatus(st: StatusRef) returns (out: StatusRef)
    ensures ViewStatus(out) == ViewStatus(st)
    ensures out.conditions == null <==> st.conditions == null
    ensures out.conditions != null ==> fresh(out.conditions)
  {
    out := st;
    if st.conditions != null {
      var blank := Condition(Ready, Unknown, ResourcesReady, AllReconciled, 0, 0);
      var conditions := new Condition[st.conditions.Length](_ => blank);
      for i := 0 to st.conditions.Length
        invariant fresh(conditions)
        invariant conditions[..i] == st.conditions[..i]
      {
        conditions[i] := st.conditions[i];
      }
      assert conditions[..] == st.conditions[..];
      out := out.(conditions := conditions);
    }
  }

  /** The copy says what the original says, and every cell it is made of is new. */
  method CopyGateway(gw: GatewayRef) returns (out: GatewayRef)
    ensures fresh(out)
    ensures SameScaling(gw.scaling, out.scaling) && NewScaling(out.scaling)
    ensures ViewStatus(out.status) == ViewStatus(gw.status)
    ensures out.status.conditions == null <==> gw.status.conditions == null
    ensures out.status.conditions != null ==> fresh(out.status.conditions)
  {
    out := new GatewayRef;
    out.status := CopyStatus(gw.status);
    out.scaling := CopyScaling(gw.scaling);
  }

  // ----- changing a status in place -----

  lemma {:induction false} SetConditionAt(cs: seq<Condition>, c: Condition, now: int, i: nat)
    requires i < |cs| && cs[i].topic == c.topic && forall j | 0 <= j < i :: cs[j].topic != c.topic
    ensures SetCondition(cs, c, now) == cs[i := c.(since := if cs[i].truth != c.truth then now else cs[i].since)]
  {
    if i > 0 {
      SetConditionAt(cs[1..], c, now, i - 1);
    }
  }

  lemma {:induction false} SetConditionAppends(cs: seq<Condition>, c: Condition, now: int)
    requires forall j | 0 <= j < |cs| :: cs[j].topic != c.topic
    ensures SetCondition(cs, c, now) == cs + [c.(since := now)]
  {
    if cs != [] {
      SetConditionAppends(cs[1..], c, now);
    }
  }

  /** A condition of the same type is overwritten where it lies; a new one goes to a longer slice. */
  method SetStatusCondition(gw: GatewayRef, c: Condition, now: int)
    modifies gw`status, gw.status.conditions
    ensures ViewStatus(gw.status) == old(ViewStatus(gw.status)).(
                                       conditions := SetCondition(old(ViewConditions(gw.status.conditions)), c, now))
    ensures gw.status.conditions != null
    ensures gw.status.conditions == old(gw.status.conditions) || fresh(gw.status.conditions)
  {
    ghost var cs := ViewConditions(gw.status.conditions);
    var conditions := gw.status.conditions;
    var n := if conditions == null then 0 else conditions.Length;
    for i := 0 to n
      invariant ViewConditions(conditions) == cs && gw.status == old(gw.status)
      invariant forall j | 0 <= j < i :: cs[j].topic != c.topic
    {
      if conditions[i].topic == c.topic {
        SetConditionAt(cs, c, now, i);
        if conditions[i].truth != c.truth {
          conditions[i] := conditions[i].(truth := c.truth, since := now);
        }
        conditions[i] := conditions[i].(reason := c.reason, message := c.message, generation := c.generation);
        return;
      }
    }
    SetConditionAppends(cs, c, now);
    var longer := new Condition[n + 1](_ => c.(since := now));
    for i := 0 to n
      invariant longer[..i] == cs[..i] && longer[n] == c.(since := now)
      invariant ViewConditions(conditions) == cs && gw.status == old(gw.status)
    {
      longer[i] := conditions[i];
    }
    gw.status := gw.status.(conditions := longer);
    assert longer[..] == cs + [c.(since := now)];
  }

  /** The writes of a status: its own fields, then the four conditions one after the other. */
  method MarkStatus(gw: GatewayRef, v: Verdict, generation: int, mode: Mode, now: int)
    modifies gw`status, gw.status.conditions
    ensures ViewStatus(gw.status) == Mark(old(ViewStatus(gw.status)), v, generation, mode, now)
  {
    ghost var cs0 := ViewConditions(gw.status.conditions);
    gw.status := gw.status.(deployed := !v.RejectedSpec?, generation := generation, mode := mode);
    SetStatusCondition(gw, Report(v, ConfigurationValid, generation), now);
    ghost var cs1 := ViewConditions(gw.status.conditions);
    SetStatusCondition(gw, Report(v, Ready, generation), now);
    ghost var cs2 := ViewConditions(gw.status.conditions);
    SetStatusCondition(gw, Report(v, AutoscalingReady, generation), now);
    ghost var cs3 := ViewConditions(gw.status.conditions);
    SetStatusCondition(gw, Report(v, DependencyReady, generation), now);
    ghost var cs4 := ViewConditions(gw.status.conditions);
    FourReports(cs0, v, generation, now);
  }

  lemma FourReports(cs: seq<Condition>, v: Verdict, generation: int, now: int)
    ensures var cs1 := SetCondition(cs, Report(v, ConfigurationValid, generation), now);
            var cs2 := SetCondition(cs1, Report(v, Ready, generation), now);
            var cs3 := SetCondition(cs2, Report(v, AutoscalingReady, generation), now);
            Reported(cs, v, generation, TOPICS, now) == SetCondition(cs3, Report(v, DependencyReady, generation), now)
  {
    var t := TOPICS;
    var cs1 := SetCondition(cs, Report(v, ConfigurationValid, generation), now);
    var cs2 := SetCondition(cs1, Report(v, Ready, generation), now);
    var cs3 := SetCondition(cs2, Report(v, AutoscalingReady, generation), now);
    assert t[1..] == [Ready, AutoscalingReady, DependencyReady];
    assert t[1..][1..] == [AutoscalingReady, DependencyReady];
    assert t[1..][1..][1..] == [DependencyReady];
    assert t[1..][1..][1..][1..] == [];
    assert Reported(cs, v, generation, t, now) == Reported(cs1, v, generation, t[1..], now);
    assert Reported(cs1, v, generation, t[1..], now) == Reported(cs2, v, generation, t[1..][1..], now);
    assert Reported(cs2, v, generation, t[1..][1..], now) == Reported(cs3, v, generation, t[1..][1..][1..], now);
  }

  /** The copy taken before is compared with the status changed in place: a patch goes out if and
      only if the two differ, it carries exactly the old and the new status, and that is so if and
      only if the status did not already show the verdict. */
  method PatchStatus(gw: GatewayRef, v: Verdict, generation: int, mode: Mode, now: int)
    returns (patch: Option<(Status, Status)>)
    modifies gw`status, gw.status.conditions
    ensures ViewStatus(gw.status) == Mark(old(ViewStatus(gw.status)), v, generation, mode, now)
    ensures patch == if ViewStatus(gw.status) == old(ViewStatus(gw.status)) then None
                     else Some((old(ViewStatus(gw.status)), ViewStatus(gw.status)))
    ensures patch.None? <==> var before := old(ViewStatus(gw.status));
                             Shows(before, v) && before.generation == generation && before.mode == mode
  {
    var base := CopyGateway(gw);
    MarkNoopExactly(ViewStatus(gw.status), v, generation, mode, now);
    MarkStatus(gw, v, generation, mode, now);
    var before := ReadStatus(base);
    var after := ReadStatus(gw);
    patch := if before == after then None else Some((before, after));
  }

  method ReadStatus(gw: GatewayRef) returns (st: Status)
    ensures st == ViewStatus(gw.status)
  {
    var conditions := if gw.status.conditions == null then [] else gw.status.conditions[..];
    st := Status(gw.status.deployed, gw.status.generation, gw.status.mode, conditions);
  }
}
