/** Status conditions: what a status write makes of the conditions it finds. */
module Conditions {
  import opened Values
  import opened GatewaySpec

  datatype Truth = True | False | Unknown

  /** `Foreign` is any condition type this controller does not own. */
  datatype Topic = Ready | ConfigurationValid | AutoscalingReady | DependencyReady | Foreign(name: string)

  datatype Reason =
    | ValidationSucceeded
    | ResourcesReady
    | ConfigurationInvalid
    | AutoscalingDisabled
    | AutoscalerReady
    | DependencyAvailable
    | NoExternalDependency
    | DependencyMissing
    | Rejected(why: Invalid)
    | ForeignReason(name: string)

  datatype Message =
    | SpecIsValid
    | AllReconciled
    | AutoscalingIsDisabled
    | HpaReconciled
    | ScaledObjectReconciled
    | ScaledObjectBlocked
    | KedaIsAvailable
    | KedaIsMissing
    | NothingRequired
    | Complaint(why: Invalid)
    | ForeignText(text: string)

  datatype Condition = Condition(topic: Topic, truth: Truth, reason: Reason, message: Message, generation: int,
                                 since: int)

  datatype Status = Status(deployed: bool, generation: int, mode: Mode, conditions: seq<Condition>)

  const FRESH := Status(false, 0, Unset, [])

  /** What a reconcile has to report. */
  datatype Verdict =
    | RejectedSpec(why: Invalid)
    | ScalingDisabled
    | HpaReady
    | KedaReady
    | KedaMissing

  /** The condition a write with this verdict sets for each of the four topics. */
  function Report(v: Verdict, topic: Topic, generation: int): Condition
    requires !topic.Foreign?
  {
    match topic
    case ConfigurationValid =>
      if v.RejectedSpec? then Condition(topic, False, Rejected(v.why), Complaint(v.why), generation, 0)
      else Condition(topic, True, ValidationSucceeded, SpecIsValid, generation, 0)
    case Ready =>
      if v.RejectedSpec? then Condition(topic, False, ConfigurationInvalid, Complaint(v.why), generation, 0)
      else Condition(topic, True, ResourcesReady, AllReconciled, generation, 0)
    case AutoscalingReady => (
      match v
      case RejectedSpec(why) => Condition(topic, False, ConfigurationInvalid, Complaint(why), generation, 0)
      case ScalingDisabled => Condition(topic, True, AutoscalingDisabled, AutoscalingIsDisabled, generation, 0)
      case HpaReady => Condition(topic, True, AutoscalerReady, HpaReconciled, generation, 0)
      case KedaReady => Condition(topic, True, AutoscalerReady, ScaledObjectReconciled, generation, 0)
      case KedaMissing => Condition(topic, False, DependencyMissing, ScaledObjectBlocked, generation, 0))
    case DependencyReady => (
      match v
      case RejectedSpec(why) => Condition(topic, Unknown, ConfigurationInvalid, Complaint(why), generation, 0)
      case KedaReady => Condition(topic, True, DependencyAvailable, KedaIsAvailable, generation, 0)
      case KedaMissing => Condition(topic, False, DependencyMissing, KedaIsMissing, generation, 0)
      case _ => Condition(topic, True, NoExternalDependency, NothingRequired, generation, 0))
  }

  /** Setting one condition: the first of its topic is overwritten, keeping the time of its last
      transition unless its truth changes; otherwise it is appended. */
  function SetCondition(cs: seq<Condition>, c: Condition, now: int): seq<Condition> {
    if cs == [] then [c.(since := now)]
    else if cs[0].topic == c.topic then
      [c.(since := if cs[0].truth != c.truth then now else cs[0].since)] + cs[1..]
    else [cs[0]] + SetCondition(cs[1..], c, now)
  }

  function Find(cs: seq<Condition>, topic: Topic): Option<Condition> {
    if cs == [] then None
    else if cs[0].topic == topic then Some(cs[0])
    else Find(cs[1..], topic)
  }

  function Others(cs: seq<Condition>): seq<Condition> {
    if cs == [] then []
    else (if cs[0].topic.Foreign? then [cs[0]] else []) + Others(cs[1..])
  }

  function Timeless(cs: seq<Condition>): seq<Condition> {
    if cs == [] then [] else [cs[0].(since := 0)] + Timeless(cs[1..])
  }

  function TimelessStatus(st: Status): Status {
    st.(conditions := Timeless(st.conditions))
  }

  ghost predicate UniqueTopics(cs: seq<Condition>) {
    forall i, j | 0 <= i < j < |cs| :: cs[i].topic != cs[j].topic
  }

  /** The order in which a status write visits the topics. */
  const TOPICS: seq<Topic> := [ConfigurationValid, Ready, AutoscalingReady, DependencyReady]

  function Reported(cs: seq<Condition>, v: Verdict, generation: int, topics: seq<Topic>, now: int): seq<Condition>
    requires forall t | t in topics :: !t.Foreign?
    decreases |topics|, |cs|
  {
    if topics == [] then cs
    else Reported(SetCondition(cs, Report(v, topics[0], generation), now), v, generation, topics[1..], now)
  }

  /** The status after a whole write. */
  function Mark(st: Status, v: Verdict, generation: int, mode: Mode, now: int): Status {
    Status(!v.RejectedSpec?, generation, mode, Reported(st.conditions, v, generation, TOPICS, now))
  }

  /** The four conditions of a status are those of one verdict. */
  ghost predicate Shows(st: Status, v: Verdict) {
    && st.deployed == !v.RejectedSpec?
    && forall topic: Topic | !topic.Foreign? ::
         Find(st.conditions, topic).Some?
         && Find(st.conditions, topic).value.(since := 0) == Report(v, topic, st.generation)
  }

  /** The condition of a topic, field by field; only its time is left open. */
  predicate Says(st: Status, topic: Topic, truth: Truth, reason: Reason, message: Message) {
    Find(st.conditions, topic).Some?
    && var c := Find(st.conditions, topic).value;
       c.truth == truth && c.reason == reason && c.message == message && c.generation == st.generation
  }

  predicate Truthy(st: Status, topic: Topic, truth: Truth) {
    Find(st.conditions, topic).Some? && Find(st.conditions, topic).value.truth == truth
  }

  lemma {:induction false} FindSetCondition(cs: seq<Condition>, c: Condition, now: int, topic: Topic)
    ensures topic != c.topic ==> Find(SetCondition(cs, c, now), topic) == Find(cs, topic)
    ensures Find(SetCondition(cs, c, now), c.topic).Some?
    ensures Find(SetCondition(cs, c, now), c.topic).value.(since := 0) == c.(since := 0)
    ensures Find(cs, c.topic).Some? && Find(cs, c.topic).value.truth == c.truth
            ==> Find(SetCondition(cs, c, now), c.topic).value.since == Find(cs, c.topic).value.since
    ensures Find(cs, c.topic).None? || Find(cs, c.topic).value.truth != c.truth
            ==> Find(SetCondition(cs, c, now), c.topic).value.since == now
  {
    if cs == [] {
    } else if cs[0].topic == c.topic {
    } else {
      FindSetCondition(cs[1..], c, now, topic);
    }
  }

  lemma {:induction false} SetConditionKeepsOthers(cs: seq<Condition>, c: Condition, now: int)
    requires !c.topic.Foreign?
    ensures Others(SetCondition(cs, c, now)) == Others(cs)
  {
    if cs == [] {
    } else if cs[0].topic == c.topic {
      assert SetCondition(cs, c, now)[1..] == cs[1..];
    } else {
      SetConditionKeepsOthers(cs[1..], c, now);
      assert SetCondition(cs, c, now)[1..] == SetCondition(cs[1..], c, now);
    }
  }

  lemma {:induction false} SetConditionTopics(cs: seq<Condition>, c: Condition, now: int)
    ensures |SetCondition(cs, c, now)| >= |cs|
    ensures forall i | 0 <= i < |cs| :: SetCondition(cs, c, now)[i].topic == cs[i].topic
    ensures |SetCondition(cs, c, now)| == |cs| || (|SetCondition(cs, c, now)| == |cs| + 1
              && SetCondition(cs, c, now)[|cs|].topic == c.topic
              && forall i | 0 <= i < |cs| :: cs[i].topic != c.topic)
  {
    if cs == [] {
    } else if cs[0].topic == c.topic {
    } else {
      SetConditionTopics(cs[1..], c, now);
    }
  }

  /** A condition that is already there, up to its time, is left alone. */
  lemma {:induction false} SetConditionNoop(cs: seq<Condition>, c: Condition, now: int)
    requires Find(cs, c.topic).Some? && Find(cs, c.topic).value.(since := 0) == c.(since := 0)
    ensures SetCondition(cs, c, now) == cs
  {
    if cs[0].topic == c.topic {
    } else {
      SetConditionNoop(cs[1..], c, now);
    }
  }

  lemma {:induction false} SetConditionTimeless(cs: seq<Condition>, c: Condition, now: int)
    ensures Timeless(SetCondition(cs, c, now)) == SetCondition(Timeless(cs), c, 0)
  {
    if cs == [] {
    } else if cs[0].topic == c.topic {
      assert SetCondition(cs, c, now)[1..] == cs[1..];
    } else {
      SetConditionTimeless(cs[1..], c, now);
      assert SetCondition(cs, c, now)[1..] == SetCondition(cs[1..], c, now);
      assert Timeless(cs)[1..] == Timeless(cs[1..]);
    }
  }

  lemma {:induction false} ReportedMisses(cs: seq<Condition>, v: Verdict, generation: int, topics: seq<Topic>,
                                          now: int, topic: Topic)
    requires forall t | t in topics :: !t.Foreign?
    requires topic !in topics
    ensures Find(Reported(cs, v, generation, topics, now), topic) == Find(cs, topic)
    decreases |topics|
  {
    if topics == [] {
    } else {
      var c := Report(v, topics[0], generation);
      FindSetCondition(cs, c, now, topic);
      ReportedMisses(SetCondition(cs, c, now), v, generation, topics[1..], now, topic);
    }
  }

  /** The time of a condition is that of the write if its truth changes, and stays otherwise. */
  predicate TimedRight(before: Option<Condition>, after: Condition, now: int) {
    after.since == if before.Some? && before.value.truth == after.truth then before.value.since else now
  }

  lemma {:induction false} ReportedFinds(cs: seq<Condition>, v: Verdict, generation: int, topics: seq<Topic>,
                                         now: int, topic: Topic)
    requires forall t | t in topics :: !t.Foreign?
    requires topic in topics && NoDuplicates(topics)
    ensures var found := Find(Reported(cs, v, generation, topics, now), topic);
            && found.Some? && found.value.(since := 0) == Report(v, topic, generation)
            && TimedRight(Find(cs, topic), found.value, now)
    decreases |topics|
  {
    var c := Report(v, topics[0], generation);
    var cs' := SetCondition(cs, c, now);
    FindSetCondition(cs, c, now, topic);
    if topics[0] == topic {
      assert topic !in topics[1..];
      ReportedMisses(cs', v, generation, topics[1..], now, topic);
    } else {
      ReportedFinds(cs', v, generation, topics[1..], now, topic);
    }
  }

  lemma {:induction false} ReportedKeepsOthers(cs: seq<Condition>, v: Verdict, generation: int, topics: seq<Topic>,
                                               now: int)
    requires forall t | t in topics :: !t.Foreign?
    ensures Others(Reported(cs, v, generation, topics, now)) == Others(cs)
    decreases |topics|
  {
    if topics == [] {
    } else {
      var c := Report(v, topics[0], generation);
      SetConditionKeepsOthers(cs, c, now);
      ReportedKeepsOthers(SetCondition(cs, c, now), v, generation, topics[1..], now);
    }
  }

  lemma {:induction false} ReportedKeepsUnique(cs: seq<Condition>, v: Verdict, generation: int, topics: seq<Topic>,
                                               now: int)
    requires forall t | t in topics :: !t.Foreign?
    requires UniqueTopics(cs)
    ensures UniqueTopics(Reported(cs, v, generation, topics, now))
    decreases |topics|
  {
    if topics == [] {
    } else {
      var c := Report(v, topics[0], generation);
      SetConditionTopics(cs, c, now);
      ReportedKeepsUnique(SetCondition(cs, c, now), v, generation, topics[1..], now);
    }
  }

  lemma {:induction false} ReportedTimeless(cs: seq<Condition>, v: Verdict, generation: int, topics: seq<Topic>,
                                            now: int)
    requires forall t | t in topics :: !t.Foreign?
    ensures Timeless(Reported(cs, v, generation, topics, now)) == Reported(Timeless(cs), v, generation, topics, 0)
    decreases |topics|
  {
    if topics == [] {
    } else {
      var c := Report(v, topics[0], generation);
      SetConditionTimeless(cs, c, now);
      ReportedTimeless(SetCondition(cs, c, now), v, generation, topics[1..], now);
    }
  }

  lemma {:induction false} ReportedNoop(cs: seq<Condition>, v: Verdict, generation: int, topics: seq<Topic>, now: int)
    requires forall t | t in topics :: !t.Foreign?
    requires forall t | t in topics :: Find(cs, t).Some? && Find(cs, t).value.(since := 0) == Report(v, t, generation)
    ensures Reported(cs, v, generation, topics, now) == cs
  {
    if topics == [] {
    } else {
      assert topics[0] in topics;
      SetConditionNoop(cs, Report(v, topics[0], generation), now);
      ReportedNoop(cs, v, generation, topics[1..], now);
    }
  }

  /** After a write the status shows the verdict, keeps the conditions of every other type, and
      has unique types if it had before. */
  lemma MarkShows(st: Status, v: Verdict, generation: int, mode: Mode, now: int)
    ensures Shows(Mark(st, v, generation, mode, now), v)
    ensures Mark(st, v, generation, mode, now).generation == generation
    ensures Others(Mark(st, v, generation, mode, now).conditions) == Others(st.conditions)
    ensures UniqueTopics(st.conditions) ==> UniqueTopics(Mark(st, v, generation, mode, now).conditions)
  {
    ReportedKeepsOthers(st.conditions, v, generation, TOPICS, now);
    if UniqueTopics(st.conditions) {
      ReportedKeepsUnique(st.conditions, v, generation, TOPICS, now);
    }
    forall topic: Topic | !topic.Foreign?
      ensures var found := Find(Reported(st.conditions, v, generation, TOPICS, now), topic);
              found.Some? && found.value.(since := 0) == Report(v, topic, generation)
    {
      ReportedFinds(st.conditions, v, generation, TOPICS, now, topic);
    }
  }

  /** A write changes nothing exactly when the status already shows the verdict for this
      generation and mode, whatever the clock says. */
  lemma MarkNoopExactly(st: Status, v: Verdict, generation: int, mode: Mode, now: int)
    ensures Mark(st, v, generation, mode, now) == st
            <==> Shows(st, v) && st.generation == generation && st.mode == mode
  {
    MarkShows(st, v, generation, mode, now);
    if Shows(st, v) && st.generation == generation {
      ReportedNoop(st.conditions, v, generation, TOPICS, now);
    }
  }

  /** Up to transition times the outcome depends neither on the clock nor on an earlier write
      of the same verdict. */
  lemma MarkTimeless(st: Status, st': Status, v: Verdict, generation: int, mode: Mode, now: int, now': int)
    requires TimelessStatus(st) == TimelessStatus(st')
    ensures TimelessStatus(Mark(st, v, generation, mode, now)) == TimelessStatus(Mark(st', v, generation, mode, now'))
  {
    ReportedTimeless(st.conditions, v, generation, TOPICS, now);
    ReportedTimeless(st'.conditions, v, generation, TOPICS, now');
  }

  /** The five profiles tell the verdicts apart, and `deployed` says exactly that the gateway is
      ready and its configuration valid. */
  lemma ProfilesAgree(st: Status, v: Verdict, v': Verdict)
    requires Shows(st, v)
    ensures Shows(st, v') ==> v == v'
    ensures st.deployed <==> Find(st.conditions, Ready).value.truth == True
                             && Find(st.conditions, ConfigurationValid).value.truth == True
    ensures forall topic: Topic | !topic.Foreign? :: Find(st.conditions, topic).value.generation == st.generation
  {
    forall topic: Topic | !topic.Foreign?
      ensures Find(st.conditions, topic).value.generation == st.generation
    {
      assert Find(st.conditions, topic).value.(since := 0) == Report(v, topic, st.generation);
    }
    var valid := Find(st.conditions, ConfigurationValid).value;
    var ready := Find(st.conditions, Ready).value;
    var scaling := Find(st.conditions, AutoscalingReady).value;
    var dependency := Find(st.conditions, DependencyReady).value;
    assert valid.(since := 0) == Report(v, ConfigurationValid, st.generation);
    assert ready.(since := 0) == Report(v, Ready, st.generation);
    if Shows(st, v') {
      assert valid.(since := 0) == Report(v', ConfigurationValid, st.generation);
      assert scaling.(since := 0) == Report(v, AutoscalingReady, st.generation)
             == Report(v', AutoscalingReady, st.generation);
      assert dependency.(since := 0) == Report(v, DependencyReady, st.generation)
             == Report(v', DependencyReady, st.generation);
    }
  }

  /** The five profiles, field by field: a status shows a verdict exactly when it says all of this. */
  lemma ProfilesByField(st: Status, v: Verdict)
    ensures Shows(st, v) <==>
              match v
              case RejectedSpec(why) =>
                && !st.deployed
                && Says(st, ConfigurationValid, False, Rejected(why), Complaint(why))
                && Says(st, Ready, False, ConfigurationInvalid, Complaint(why))
                && Says(st, AutoscalingReady, False, ConfigurationInvalid, Complaint(why))
                && Says(st, DependencyReady, Unknown, ConfigurationInvalid, Complaint(why))
              case ScalingDisabled =>
                && st.deployed
                && Says(st, ConfigurationValid, True, ValidationSucceeded, SpecIsValid)
                && Says(st, Ready, True, ResourcesReady, AllReconciled)
                && Says(st, AutoscalingReady, True, AutoscalingDisabled, AutoscalingIsDisabled)
                && Says(st, DependencyReady, True, NoExternalDependency, NothingRequired)
              case HpaReady =>
                && st.deployed
                && Says(st, ConfigurationValid, True, ValidationSucceeded, SpecIsValid)
                && Says(st, Ready, True, ResourcesReady, AllReconciled)
                && Says(st, AutoscalingReady, True, AutoscalerReady, HpaReconciled)
                && Says(st, DependencyReady, True, NoExternalDependency, NothingRequired)
              case KedaReady =>
                && st.deployed
                && Says(st, ConfigurationValid, True, ValidationSucceeded, SpecIsValid)
                && Says(st, Ready, True, ResourcesReady, AllReconciled)
                && Says(st, AutoscalingReady, True, AutoscalerReady, ScaledObjectReconciled)
                && Says(st, DependencyReady, True, DependencyAvailable, KedaIsAvailable)
              case KedaMissing =>
                && st.deployed
                && Says(st, ConfigurationValid, True, ValidationSucceeded, SpecIsValid)
                && Says(st, Ready, True, ResourcesReady, AllReconciled)
                && Says(st, AutoscalingReady, False, DependencyMissing, ScaledObjectBlocked)
                && Says(st, DependencyReady, False, DependencyMissing, KedaIsMissing)
  {
    forall topic: Topic | !topic.Foreign?
      ensures Find(st.conditions, topic).Some? ==> Find(st.conditions, topic).value.topic == topic
    {
      FoundByTopic(st.conditions, topic);
    }
    ShowsEach(st, v);
  }

  lemma {:induction false} FoundByTopic(cs: seq<Condition>, topic: Topic)
    ensures Find(cs, topic).Some? ==> Find(cs, topic).value.topic == topic
  {
    if cs != [] {
      FoundByTopic(cs[1..], topic);
    }
  }

  lemma ShowsEach(st: Status, v: Verdict)
    ensures Shows(st, v) <==>
              && st.deployed == !v.RejectedSpec?
              && Reports(st, v, ConfigurationValid) && Reports(st, v, Ready)
              && Reports(st, v, AutoscalingReady) && Reports(st, v, DependencyReady)
  {
    if Reports(st, v, ConfigurationValid) && Reports(st, v, Ready)
       && Reports(st, v, AutoscalingReady) && Reports(st, v, DependencyReady)
    {
      assert forall topic: Topic | !topic.Foreign? :: Reports(st, v, topic);
    }
  }

  predicate Reports(st: Status, v: Verdict, topic: Topic)
    requires !topic.Foreign?
  {
    Find(st.conditions, topic).Some?
    && Find(st.conditions, topic).value.(since := 0) == Report(v, topic, st.generation)
  }

  /** What a reader of the status may conclude: autoscaling is ready exactly for the three verdicts that
      leave what was asked for in place, and a dependency is unknown only for a rejected spec and
      missing only for KEDA without its CRD. */
  lemma TruthsByVerdict(st: Status, v: Verdict)
    requires Shows(st, v)
    ensures Truthy(st, AutoscalingReady, True) <==> v == ScalingDisabled || v == HpaReady || v == KedaReady
    ensures Truthy(st, AutoscalingReady, False) <==> v.RejectedSpec? || v == KedaMissing
    ensures Truthy(st, DependencyReady, Unknown) <==> v.RejectedSpec?
    ensures Truthy(st, DependencyReady, False) <==> v == KedaMissing
    ensures Truthy(st, DependencyReady, True) <==> v == ScalingDisabled || v == HpaReady || v == KedaReady
    ensures Truthy(st, ConfigurationValid, False) <==> v.RejectedSpec?
    ensures Truthy(st, Ready, False) <==> v.RejectedSpec?
  {
    ProfilesByField(st, v);
  }

  /** A write moves the time of a condition exactly when it changes the condition's truth. */
  lemma TransitionsAreTimed(st: Status, v: Verdict, generation: int, mode: Mode, now: int, topic: Topic)
    requires !topic.Foreign?
    ensures var after := Find(Mark(st, v, generation, mode, now).conditions, topic);
            after.Some? && TimedRight(Find(st.conditions, topic), after.value, now)
  {
    ReportedFinds(st.conditions, v, generation, TOPICS, now, topic);
  }
}
