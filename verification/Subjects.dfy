/** The subject list of a role binding that the gateways of many namespaces share. */
module Subjects {
  import opened Values

  datatype Subject = Subject(kind: string, apiGroup: string, name: string, ns: string)

  datatype RoleRef = RoleRef(kind: string, name: string)

  function AccountSubject(name: string, ns: string): Subject {
    Subject("ServiceAccount", "", name, ns)
  }

  function AddSubject(subjects: seq<Subject>, s: Subject): seq<Subject> {
    if s in subjects then subjects else subjects + [s]
  }

  /** The subjects that are not those of this account, in order. */
  function Without(subjects: seq<Subject>, name: string, ns: string): seq<Subject> {
    if subjects == [] then []
    else
      var kept := if subjects[0].name != name || subjects[0].ns != ns then [subjects[0]] else [];
      kept + Without(subjects[1..], name, ns)
  }

  class Binding {
    var role: RoleRef
    var subjects: seq<Subject>

    constructor (role: RoleRef, subjects: seq<Subject>)
      ensures this.role == role && this.subjects == subjects
    {
      this.role, this.subjects := role, subjects;
    }
  }

  method UpdateBinding(binding: Binding, role: RoleRef, name: string, ns: string)
    modifies binding
    ensures binding.role == role
    ensures binding.subjects == AddSubject(old(binding.subjects), AccountSubject(name, ns))
  {
    binding.role := role;
    var subject := AccountSubject(name, ns);
    for i := 0 to |binding.subjects|
      invariant subject !in binding.subjects[..i]
      invariant binding.subjects == old(binding.subjects) && binding.role == role
    {
      if binding.subjects[i] == subject {
        return;
      }
    }
    binding.subjects := binding.subjects + [subject];
  }

  method RemoveFromBinding(binding: Binding, name: string, ns: string)
    modifies binding`subjects
    ensures binding.subjects == Without(old(binding.subjects), name, ns)
  {
    var subjects := [];
    for i := 0 to |binding.subjects|
      invariant binding.subjects == old(binding.subjects)
      invariant subjects == Without(binding.subjects[..i], name, ns)
    {
      var subject := binding.subjects[i];
      WithoutConcat(binding.subjects[..i], [subject], name, ns);
      assert binding.subjects[..i + 1] == binding.subjects[..i] + [subject];
      if subject.name != name || subject.ns != ns {
        subjects := subjects + [subject];
      }
    }
    assert binding.subjects[..|binding.subjects|] == binding.subjects;
    binding.subjects := subjects;
  }

  lemma {:induction false} WithoutConcat(a: seq<Subject>, b: seq<Subject>, name: string, ns: string)
    ensures Without(a + b, name, ns) == Without(a, name, ns) + Without(b, name, ns)
  {
    if a == [] {
      assert a + b == b;
    } else {
      assert (a + b)[1..] == a[1..] + b;
      WithoutConcat(a[1..], b, name, ns);
    }
  }

  ghost predicate Foreign(s: Subject, name: string, ns: string) {
    s.name != name || s.ns != ns
  }

  lemma {:induction false} WithoutMember(subjects: seq<Subject>, name: string, ns: string, s: Subject)
    ensures s in Without(subjects, name, ns) <==> s in subjects && Foreign(s, name, ns)
  {
    if subjects == [] {
    } else {
      WithoutMember(subjects[1..], name, ns, s);
      assert s in subjects <==> s == subjects[0] || s in subjects[1..];
    }
  }

  lemma {:induction false} WithoutDistinct(subjects: seq<Subject>, name: string, ns: string)
    requires NoDuplicates(subjects)
    ensures NoDuplicates(Without(subjects, name, ns))
  {
    if subjects == [] {
    } else {
      WithoutDistinct(subjects[1..], name, ns);
      WithoutMember(subjects[1..], name, ns, subjects[0]);
      assert subjects[0] !in subjects[1..];
    }
  }

  /** Nothing is removed exactly when every subject is foreign. */
  lemma {:induction false} WithoutNothing(subjects: seq<Subject>, name: string, ns: string)
    ensures |Without(subjects, name, ns)| <= |subjects|
    ensures Without(subjects, name, ns) == subjects <==> forall s | s in subjects :: Foreign(s, name, ns)
  {
    if subjects == [] {
    } else {
      WithoutNothing(subjects[1..], name, ns);
      assert forall s :: s in subjects <==> s == subjects[0] || s in subjects[1..];
      assert subjects == [subjects[0]] + subjects[1..];
      if !Foreign(subjects[0], name, ns) {
        assert |Without(subjects, name, ns)| < |subjects|;
      }
    }
  }

  lemma WithoutTwice(subjects: seq<Subject>, name: string, ns: string)
    ensures Without(Without(subjects, name, ns), name, ns) == Without(subjects, name, ns)
  {
    forall s
      ensures s in Without(subjects, name, ns) ==> Foreign(s, name, ns)
    {
      WithoutMember(subjects, name, ns, s);
    }
    WithoutNothing(Without(subjects, name, ns), name, ns);
  }

  /** Adding a subject leaves every other account's subjects and their order alone. */
  lemma AddKeepsOthers(subjects: seq<Subject>, name: string, ns: string)
    ensures var added := AddSubject(subjects, AccountSubject(name, ns));
            && AccountSubject(name, ns) in added
            && Without(added, name, ns) == Without(subjects, name, ns)
            && (NoDuplicates(subjects) ==> NoDuplicates(added))
  {
    WithoutConcat(subjects, [AccountSubject(name, ns)], name, ns);
  }

  /** Adding a subject and then removing it restores the list exactly when no subject with that
      name and namespace was there, of whatever kind. */
  lemma AddThenRemove(subjects: seq<Subject>, name: string, ns: string)
    ensures Without(AddSubject(subjects, AccountSubject(name, ns)), name, ns) == subjects
            <==> forall s | s in subjects :: Foreign(s, name, ns)
  {
    AddKeepsOthers(subjects, name, ns);
    WithoutNothing(subjects, name, ns);
  }
}
