/** What deleting a HigressController leaves behind. Its finalisation is skipped while RBAC or the
    service account is disabled, so unlike a gateway's it does not always take the subject away. Any
    call may fail, and users and other writers of the binding act between any two calls. */
module ControllerCleanup {
  import opened Values
  import opened Subjects
  import opened ApiServer

  const FINALIZER := "higresscontroller.higress.io/finalizer"

  /** Defaults filled in: both switches are on unless the user turned them off. */
  datatype Controller = Controller(name: string, ns: string, accountName: string, rbac: bool, account: bool,
                                   finalizers: set<string>, deleting: bool)

  datatype Stored<+T> = Stored(version: nat, it: T)

  /** Where a reconcile stands: the constructor names the call it is about to make, `at` the version
      of the controller it has read. */
  datatype Proc =
    | Resting(error: bool)
    | Reading
    | Finding(k: Controller, at: nat)
    | Unbinding(k: Controller, at: nat, seen: Stored<seq<Subject>>)
    | Releasing(k: Controller, at: nat)
    | Adopting(k: Controller, at: nat)
    | Looking(k: Controller)
    | Inserting(k: Controller)
    | Adding(k: Controller, seen: Stored<seq<Subject>>)

  /** The controller under its key, the cluster role binding named after its service account with the
      subjects of all who share it, and the controller's reconcile. */
  datatype World = World(controller: Option<Stored<Controller>>, binding: Option<Stored<seq<Subject>>>, revision: nat,
                         p: Proc)

  function AccountOf(k: Controller): string {
    if k.accountName != "" then k.accountName else k.name
  }

  function SubjectOf(k: Controller): Subject {
    AccountSubject(AccountOf(k), k.ns)
  }

  predicate Enabled(k: Controller) {
    k.rbac && k.account
  }

  // ----- finalisation in the form of its source -----

  class Server {
    var binding: Option<seq<Subject>>

    constructor (binding: Option<seq<Subject>>)
      ensures this.binding == binding
    {
      this.binding := binding;
    }
  }

  /** Skipped if a switch is off; otherwise the binding is read, filtered and written back, and any
      failing call is an error. A write whose reply is lost has taken place. */
  method FinalizeHigressController(k: Controller, server: Server, read: Fault, write: Fault) returns (err: bool)
    modifies server
    ensures err <==> Enabled(k) && !(read.Healthy? && old(server.binding).Some? && write.Healthy?)
    ensures server.binding ==
              if Enabled(k) && read.Healthy? && old(server.binding).Some? && !write.Lost?
              then Some(Without(old(server.binding).value, AccountOf(k), k.ns))
              else old(server.binding)
    ensures k.rbac && k.account && old(server.binding).Some? && read.Healthy? && !write.Lost? ==>
              server.binding.Some? &&
              forall s :: s in server.binding.value <==>
                s in old(server.binding).value
                && !(s.ns == k.ns && (if k.accountName == "" then s.name == k.name else s.name == k.accountName))
  {
    forall s | server.binding.Some?
      ensures s in Without(server.binding.value, AccountOf(k), k.ns) <==>
                s in server.binding.value && (s.name != AccountOf(k) || s.ns != k.ns)
    {
      WithoutMember(server.binding.value, AccountOf(k), k.ns, s);
    }
    if !k.rbac || !k.account {
      return false;
    }
    if !read.Healthy? || server.binding.None? {
      return true;
    }
    var crb := new Binding(RoleRef("ClusterRole", "higress-controller"), server.binding.value);
    RemoveFromBinding(crb, AccountOf(k), k.ns);
    if !write.Lost? {
      server.binding := Some(crb.subjects);
    }
    err := !write.Healthy?;
  }

  // ----- the protocol -----

  /** An update is accepted if the object is there under the version it is based on. */
  predicate Accepts<T>(current: Option<Stored<T>>, version: nat) {
    current.Some? && current.value.version == version
  }

  function PutBinding(w: World, subjects: seq<Subject>): World {
    w.(binding := Some(Stored(w.revision, subjects)), revision := w.revision + 1)
  }

  /** A marked controller disappears with its last finalizer. */
  function PutController(w: World, k: Controller): World {
    if k.deleting && k.finalizers == {} then w.(controller := None)
    else w.(controller := Some(Stored(w.revision, k)), revision := w.revision + 1)
  }

  /** The write this call makes if it gets through. */
  function Written(w: World): World {
    match w.p
    case Unbinding(k, _, seen) =>
      if Accepts(w.binding, seen.version) then PutBinding(w, Without(seen.it, AccountOf(k), k.ns)) else w
    case Releasing(k, at) =>
      if Accepts(w.controller, at) then PutController(w, k.(finalizers := k.finalizers - {FINALIZER})) else w
    case Adopting(k, at) =>
      if Accepts(w.controller, at) then PutController(w, k.(finalizers := k.finalizers + {FINALIZER})) else w
    case Inserting(k) => if w.binding.None? then PutBinding(w, [SubjectOf(k)]) else w
    case Adding(k, seen) =>
      if Accepts(w.binding, seen.version) then PutBinding(w, AddSubject(seen.it, SubjectOf(k))) else w
    case _ => w
  }

  function AfterReading(controller: Option<Stored<Controller>>): Proc {
    if controller.None? then Resting(false)
    else
      var k, at := controller.value.it, controller.value.version;
      if k.deleting then
        if FINALIZER !in k.finalizers then Resting(false)
        else if Enabled(k) then Finding(k, at)
        else Releasing(k, at)
      else if FINALIZER !in k.finalizers then Adopting(k, at)
      else if Enabled(k) then Looking(k)
      else Resting(false)
  }

  /** Where an answered call leads. */
  function Answered(w: World): Proc {
    match w.p
    case Resting(_) => w.p
    case Reading => AfterReading(w.controller)
    case Finding(k, at) => if w.binding.None? then Resting(true) else Unbinding(k, at, w.binding.value)
    case Unbinding(k, at, seen) => if Accepts(w.binding, seen.version) then Releasing(k, at) else Resting(true)
    case Releasing(k, at) => Resting(!Accepts(w.controller, at))
    case Adopting(k, at) =>
      if !Accepts(w.controller, at) then Resting(true) else if Enabled(k) then Looking(k) else Resting(false)
    case Looking(k) =>
      if w.binding.None? then Inserting(k)
      else if SubjectOf(k) in w.binding.value.it then Resting(false)
      else Adding(k, w.binding.value)
    case Inserting(_) => Resting(w.binding.Some?)
    case Adding(_, seen) => Resting(!Accepts(w.binding, seen.version))
  }

  function Step(w: World, fault: Fault): World {
    if w.p.Resting? then w
    else
      (if fault.Lost? then w else Written(w)).(p := if fault.Healthy? then Answered(w) else Resting(true))
  }

  datatype Event =
    | Begin
    | Act(fault: Fault)
    | Submit(k: Controller)
    | Switch(rbac: bool, account: bool)
    | SetFinalizers(finalizers: set<string>)
    | RequestDeletion
    | EditBinding(subjects: seq<Subject>)
    | DeleteBinding

  predicate Bound(w: World, name: string, ns: string) {
    w.binding.Some? && AccountSubject(name, ns) in w.binding.value.it
  }

  /** The controller exists and carries its finalizer. */
  predicate Held(w: World) {
    w.controller.Some? && FINALIZER in w.controller.value.it.finalizers
  }

  /** Users keep the account name and this finalizer; other writers of the binding do not add this
      controller's subject. */
  predicate Possible(w: World, e: Event, name: string, ns: string) {
    match e
    case Begin => w.p.Resting?
    case Act(_) => true
    case Submit(k) =>
      w.controller.None? && AccountOf(k) == name && k.ns == ns && FINALIZER !in k.finalizers && !k.deleting
    case Switch(_, _) => w.controller.Some?
    case SetFinalizers(fs) => w.controller.Some? && (FINALIZER in fs <==> Held(w))
    case RequestDeletion => w.controller.Some?
    case EditBinding(subjects) => AccountSubject(name, ns) in subjects ==> Bound(w, name, ns)
    case DeleteBinding => true
  }

  function Do(w: World, e: Event, name: string, ns: string): World {
    if !Possible(w, e, name, ns) then w
    else
      match e
      case Begin => w.(p := Reading)
      case Act(fault) => Step(w, fault)
      case Submit(k) => PutController(w, k)
      case Switch(rbac, account) => PutController(w, w.controller.value.it.(rbac := rbac, account := account))
      case SetFinalizers(fs) => PutController(w, w.controller.value.it.(finalizers := fs))
      case RequestDeletion => PutController(w, w.controller.value.it.(deleting := true))
      case EditBinding(subjects) => PutBinding(w, subjects)
      case DeleteBinding => w.(binding := None)
  }

  function DoAll(w: World, es: seq<Event>, name: string, ns: string): World
    decreases |es|
  {
    if es == [] then w else DoAll(Do(w, es[0], name, ns), es[1..], name, ns)
  }

  /** The finalizer is off, the controller gone or going, and the subject still there. */
  predicate Stranded(w: World, name: string, ns: string) {
    !Held(w) && Bound(w, name, ns)
  }

  // ----- what holds as long as nothing is stranded -----

  /** What a reconcile remembers of an object is still so or betrayed by its version. */
  predicate Fresh<T(==)>(current: Option<Stored<T>>, it: T, version: nat, revision: nat) {
    version < revision && (Accepts(current, version) ==> current.value.it == it)
  }

  predicate Own(k: Controller, name: string, ns: string) {
    AccountOf(k) == name && k.ns == ns
  }

  predicate Remembers(w: World, name: string, ns: string) {
    match w.p
    case Resting(_) => true
    case Reading => true
    case Finding(k, at) => Own(k, name, ns) && Fresh(w.controller, k, at, w.revision) && k.deleting
    case Unbinding(k, at, seen) =>
      Own(k, name, ns) && Fresh(w.controller, k, at, w.revision) && k.deleting
      && Fresh(w.binding, seen.it, seen.version, w.revision)
    case Releasing(k, at) => Own(k, name, ns) && Fresh(w.controller, k, at, w.revision) && k.deleting
    case Adopting(k, at) => Own(k, name, ns) && Fresh(w.controller, k, at, w.revision) && !k.deleting
    case Looking(k) => Own(k, name, ns)
    case Inserting(k) => Own(k, name, ns)
    case Adding(k, seen) => Own(k, name, ns) && Fresh(w.binding, seen.it, seen.version, w.revision)
  }

  predicate Versioned(w: World) {
    && (w.controller.Some? ==> w.controller.value.version < w.revision)
    && (w.binding.Some? ==> w.binding.value.version < w.revision)
  }

  /** A reconcile that may bind or unbind stands on a held controller, and one that has unbound finds
      nothing bound. */
  predicate Guarded(w: World, name: string, ns: string) {
    match w.p
    case Resting(_) => true
    case Reading => true
    case Adopting(_, _) => true
    case Releasing(k, _) => Held(w) && (Enabled(k) ==> !Bound(w, name, ns))
    case _ => Held(w)
  }

  /** All of this but the promise that a bound subject has a held controller behind it. */
  predicate Orderly(w: World, name: string, ns: string) {
    && Versioned(w) && Remembers(w, name, ns) && Guarded(w, name, ns)
    && (w.controller.Some? ==> Own(w.controller.value.it, name, ns))
  }

  predicate Inv(w: World, name: string, ns: string) {
    Orderly(w, name, ns) && !Stranded(w, name, ns)
  }

  predicate Deletes(p: Proc) {
    p.Finding? || p.Unbinding? || p.Releasing?
  }

  lemma DeletingKeepsMemory(w: World, fault: Fault, name: string, ns: string)
    requires Orderly(w, name, ns) && Deletes(w.p)
    ensures var w' := Step(w, fault);
            Versioned(w') && Remembers(w', name, ns) && (w'.controller.Some? ==> Own(w'.controller.value.it, name, ns))
  {
  }

  lemma StepKeepsMemory(w: World, fault: Fault, name: string, ns: string)
    requires Orderly(w, name, ns)
    ensures var w' := Step(w, fault);
            Versioned(w') && Remembers(w', name, ns) && (w'.controller.Some? ==> Own(w'.controller.value.it, name, ns))
  {
    if Deletes(w.p) {
      DeletingKeepsMemory(w, fault, name, ns);
    }
  }

  lemma StepKeepsGuard(w: World, fault: Fault, name: string, ns: string)
    requires Orderly(w, name, ns)
    ensures Guarded(Step(w, fault), name, ns)
  {
    if w.p.Unbinding? {
      WithoutMember(w.p.seen.it, name, ns, AccountSubject(name, ns));
    }
  }

  lemma StepKeepsOrder(w: World, fault: Fault, name: string, ns: string)
    requires Orderly(w, name, ns)
    ensures Orderly(Step(w, fault), name, ns)
  {
    StepKeepsMemory(w, fault, name, ns);
    StepKeepsGuard(w, fault, name, ns);
  }

  lemma EventKeepsOrder(w: World, e: Event, name: string, ns: string)
    requires Orderly(w, name, ns)
    ensures Orderly(Do(w, e, name, ns), name, ns)
  {
    if e.Act? {
      StepKeepsOrder(w, e.fault, name, ns);
    }
  }

  // ----- what a reconcile leaves alone -----

  function SubjectsOf(w: World): seq<Subject> {
    if w.binding.Some? then w.binding.value.it else []
  }

  /** Against the list as it is at that moment, a call adds the own subject, removes it, or does nothing. */
  lemma BindingStep(w: World, fault: Fault, name: string, ns: string)
    requires Orderly(w, name, ns)
    ensures var before, after := SubjectsOf(w), SubjectsOf(Step(w, fault));
            after == before || after == Without(before, name, ns)
            || after == AddSubject(before, AccountSubject(name, ns))
    ensures w.binding.Some? ==> Step(w, fault).binding.Some?
  {
    assert AddSubject([], AccountSubject(name, ns)) == [AccountSubject(name, ns)];
  }

  /** A call keeps the subjects of others, in order, adds no duplicate, and never takes the binding away. */
  lemma OtherSubjectsStay(w: World, fault: Fault, name: string, ns: string)
    requires Orderly(w, name, ns)
    ensures var w' := Step(w, fault);
            && (w.binding.Some? ==> w'.binding.Some?)
            && Without(SubjectsOf(w'), name, ns) == Without(SubjectsOf(w), name, ns)
            && (NoDuplicates(SubjectsOf(w)) ==> NoDuplicates(SubjectsOf(w')))
  {
    BindingStep(w, fault, name, ns);
    AddKeepsOthers(SubjectsOf(w), name, ns);
    WithoutTwice(SubjectsOf(w), name, ns);
    if NoDuplicates(SubjectsOf(w)) {
      WithoutDistinct(SubjectsOf(w), name, ns);
    }
  }

  /** A call touches no finalizer but its own, nor anything else of the controller, which goes only if it
      is being deleted and nobody else holds it. */
  lemma OtherFinalizersStay(w: World, fault: Fault, name: string, ns: string)
    requires Orderly(w, name, ns)
    ensures var w' := Step(w, fault);
            && (w.controller.None? ==> w'.controller.None?)
            && (w.controller.Some? && w'.controller.Some? ==>
                  var k, k' := w.controller.value.it, w'.controller.value.it;
                  k'.finalizers - {FINALIZER} == k.finalizers - {FINALIZER} && k' == k.(finalizers := k'.finalizers))
            && (w.controller.Some? && w'.controller.None? ==>
                  w.controller.value.it.deleting && w.controller.value.it.finalizers <= {FINALIZER})
  {
  }

  /** The finalizer comes off at this event: the update is based on the controller as it is, and it
      gets through. */
  predicate Releases(w: World, e: Event) {
    e.Act? && w.p.Releasing? && !e.fault.Lost? && Accepts(w.controller, w.p.at)
  }

  /** Of all events, only the release of a controller strands its subject, and it does so exactly when
      the subject is bound and a switch is off; so it is the switches at that very moment that count. */
  lemma ReleaseStrandsExactly(w: World, e: Event, name: string, ns: string)
    requires Inv(w, name, ns)
    ensures Stranded(Do(w, e, name, ns), name, ns)
            <==> Releases(w, e) && Bound(w, name, ns) && !Enabled(w.controller.value.it)
  {
    if w.p.Unbinding? {
      WithoutMember(w.p.seen.it, name, ns, AccountSubject(name, ns));
    }
  }

  /** Every release of the run finds both switches on. */
  predicate ReleasedEnabled(w: World, es: seq<Event>, name: string, ns: string)
    decreases |es|
  {
    es == [] || ((Releases(w, es[0]) ==> Enabled(w.controller.value.it))
                 && ReleasedEnabled(Do(w, es[0], name, ns), es[1..], name, ns))
  }

  /** Over any run in which that holds, with whatever failures, retries, switching to and fro and
      changes of the shared binding, a bound subject always has a controller with the finalizer behind
      it, and so nothing is left behind. */
  lemma {:induction false} NothingIsStranded(w: World, es: seq<Event>, name: string, ns: string)
    requires Inv(w, name, ns) && ReleasedEnabled(w, es, name, ns)
    ensures Inv(DoAll(w, es, name, ns), name, ns)
    decreases |es|
  {
    if es != [] {
      EventKeepsOrder(w, es[0], name, ns);
      ReleaseStrandsExactly(w, es[0], name, ns);
      NothingIsStranded(Do(w, es[0], name, ns), es[1..], name, ns);
    }
  }

  // ----- errors -----

  /** A reconcile on its way through a deletion, or done: without an error only if the finalizer is off. */
  predicate Deleting(w: World) {
    match w.p
    case Reading => w.controller.Some? ==> w.controller.value.it.deleting
    case Finding(_, _) => true
    case Unbinding(_, _, _) => true
    case Releasing(_, _) => true
    case Resting(error) => error || !Held(w)
    case _ => false
  }

  /** No other reconcile begins, and no new controller is submitted before this one is read. */
  predicate SingleDeletion(w: World, es: seq<Event>, name: string, ns: string)
    decreases |es|
  {
    es == [] || (es[0] != Begin && (w.p.Reading? ==> !es[0].Submit?)
                 && SingleDeletion(Do(w, es[0], name, ns), es[1..], name, ns))
  }

  /** The write about to be made is based on something that is no longer so. */
  predicate Stale(w: World) {
    match w.p
    case Unbinding(_, _, seen) => !Accepts(w.binding, seen.version)
    case Releasing(_, at) => !Accepts(w.controller, at)
    case Adopting(_, at) => !Accepts(w.controller, at)
    case Inserting(_) => w.binding.Some?
    case Adding(_, seen) => !Accepts(w.binding, seen.version)
    case _ => false
  }

  /** A call that is answered ends the reconcile with an error exactly if its write is stale or there is
      no binding to finalise; a controller that is gone is no error. */
  lemma ErrorsAreReportedExactly(w: World)
    requires !w.p.Resting?
    ensures Step(w, Healthy).p == Resting(true) <==> Stale(w) || (w.p.Finding? && w.binding.None?)
  {
  }

  lemma LostCallsAreReported(w: World, fault: Fault)
    requires !w.p.Resting? && !fault.Healthy?
    ensures Step(w, fault).p == Resting(true)
  {
  }

  /** Whatever fails and whatever happens outside, the reconcile of a deletion returns without an error
      only once the finalizer is off; as long as it is on, it returns an error and is retried. */
  lemma {:induction false} DeletionsEndClean(w: World, es: seq<Event>, name: string, ns: string)
    requires Deleting(w) && SingleDeletion(w, es, name, ns)
    ensures var w' := DoAll(w, es, name, ns); Deleting(w') && (w'.p.Resting? && Held(w') ==> w'.p == Resting(true))
    decreases |es|
  {
    if es != [] {
      assert Deleting(Do(w, es[0], name, ns));
      DeletionsEndClean(Do(w, es[0], name, ns), es[1..], name, ns);
    }
  }

  // ----- a run that leaves the subject behind -----

  function Healthily(n: nat): seq<Event> {
    if n == 0 then [] else [Act(Healthy)] + Healthily(n - 1)
  }

  function Steps(w: World, n: nat): World
    decreases n
  {
    if n == 0 then w else Steps(Step(w, Healthy), n - 1)
  }

  lemma {:induction false} StepsAreEvents(w: World, n: nat, rest: seq<Event>, name: string, ns: string)
    ensures DoAll(w, Healthily(n) + rest, name, ns) == DoAll(Steps(w, n), rest, name, ns)
    decreases n
  {
    var all := Healthily(n) + rest;
    if n == 0 {
      assert all == rest;
    } else {
      assert all[0] == Act(Healthy) && all[1..] == Healthily(n - 1) + rest;
      assert Do(w, all[0], name, ns) == Step(w, Healthy);
      StepsAreEvents(Step(w, Healthy), n - 1, rest, name, ns);
    }
  }

  /** A new controller is adopted and bound by four calls. */
  lemma FirstReconcile(k: Controller)
    requires Enabled(k) && !k.deleting && FINALIZER !in k.finalizers
    ensures var w := Steps(World(Some(Stored(0, k)), None, 1, Reading), 4);
            w == World(Some(Stored(1, k.(finalizers := k.finalizers + {FINALIZER}))), Some(Stored(2, [SubjectOf(k)])),
                       3, Resting(false))
  {
    var w1 := Step(World(Some(Stored(0, k)), None, 1, Reading), Healthy);
    var w2 := Step(w1, Healthy);
    var w3 := Step(w2, Healthy);
    assert w3.p == Inserting(k.(finalizers := k.finalizers)) && Steps(w3, 1) == Steps(Step(w3, Healthy), 0);
    assert Steps(w1, 3) == Steps(w2, 2) == Steps(w3, 1);
  }

  lemma SwitchedOffAndDeleted(w: World, k: Controller, name: string, ns: string)
    requires w.controller.Some? && w.controller.value.it == k && FINALIZER in k.finalizers && w.p.Resting?
    requires Bound(w, name, ns)
    ensures var w1 := Do(w, Switch(false, k.account), name, ns);
            var w2 := Do(w1, RequestDeletion, name, ns);
            var w3 := Do(w2, Begin, name, ns);
            Stranded(Steps(w3, 2), name, ns)
  {
    var w3 := Do(Do(Do(w, Switch(false, k.account), name, ns), RequestDeletion, name, ns), Begin, name, ns);
    assert Steps(w3, 2) == Steps(Step(w3, Healthy), 1) == Steps(Step(Step(w3, Healthy), Healthy), 0);
  }

  lemma ThreeEvents(w: World, a: Event, b: Event, d: Event, rest: seq<Event>, name: string, ns: string)
    ensures DoAll(w, [a, b, d] + rest, name, ns)
            == DoAll(Do(Do(Do(w, a, name, ns), b, name, ns), d, name, ns), rest, name, ns)
  {
    var all := [a, b, d] + rest;
    var w1 := Do(w, a, name, ns);
    var w2 := Do(w1, b, name, ns);
    assert all[0] == a && all[1..] == [b, d] + rest;
    assert all[1..][1..] == [d] + rest && all[1..][1..][1..] == rest;
    assert DoAll(w, all, name, ns) == DoAll(w1, [b, d] + rest, name, ns) == DoAll(w2, [d] + rest, name, ns);
  }

  /** For every controller with both switches on there is a run without any failure that leaves its
      subject behind: it is reconciled, switched off, deleted, and reconciled again. */
  lemma SwitchingOffStrands(k: Controller)
    requires Enabled(k) && !k.deleting && FINALIZER !in k.finalizers
    ensures var run := Healthily(4) + ([Switch(false, k.account), RequestDeletion, Begin] + Healthily(2));
            Stranded(DoAll(World(Some(Stored(0, k)), None, 1, Reading), run, AccountOf(k), k.ns), AccountOf(k), k.ns)
  {
    var name, ns, w := AccountOf(k), k.ns, World(Some(Stored(0, k)), None, 1, Reading);
    var off := [Switch(false, k.account), RequestDeletion, Begin];
    StepsAreEvents(w, 4, off + Healthily(2), name, ns);
    FirstReconcile(k);
    var w0 := Steps(w, 4);
    ThreeEvents(w0, off[0], off[1], off[2], Healthily(2), name, ns);
    var w3 := Do(Do(Do(w0, off[0], name, ns), off[1], name, ns), off[2], name, ns);
    StepsAreEvents(w3, 2, [], name, ns);
    assert Healthily(2) + [] == Healthily(2);
    SwitchedOffAndDeleted(w0, w0.controller.value.it, name, ns);
  }
}
