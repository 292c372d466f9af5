/** Installing the custom resource definitions: one manifest after the other, each looked up, created
    or brought up to date, until a call fails. */
module Crds {
  import opened Values
  import opened ApiServer

  /** `version` stands for the metadata that belongs to the stored object. */
  datatype Crd = Crd(name: string, labels: Labels, version: int, spec: string)

  /** What one turn of the loop makes of the store. */
  function Install(store: map<string, Crd>, crd: Crd): map<string, Crd> {
    store[crd.name := if crd.name in store then store[crd.name].(spec := crd.spec) else crd]
  }

  function Installed(store: map<string, Crd>, crds: seq<Crd>): map<string, Crd> {
    if crds == [] then store
    else Install(Installed(store, crds[..|crds| - 1]), crds[|crds| - 1])
  }

  /** The definition is there with the manifest's spec. */
  predicate Agrees(store: map<string, Crd>, crd: Crd) {
    crd.name in store && store[crd.name].spec == crd.spec
  }

  datatype Answer = Present(it: Crd) | Absent | Broken

  class Client {
    var store: map<string, Crd>
    var calls: nat
    var writes: nat
    const luck: nat -> Fault

    constructor (store: map<string, Crd>, luck: nat -> Fault)
      ensures this.store == store && this.luck == luck && calls == 0 && writes == 0
    {
      this.store, this.luck, this.calls, this.writes := store, luck, 0, 0;
    }

    method Get(name: string) returns (r: Answer)
      modifies this`calls
      ensures calls == old(calls) + 1
      ensures r == if !luck(old(calls)).Healthy? then Broken else if name in store then Present(store[name]) else Absent
    {
      r := if !luck(calls).Healthy? then Broken else if name in store then Present(store[name]) else Absent;
      calls := calls + 1;
    }

    /** Creating or updating: lost on the way there it has no effect, on the way back it has. */
    method Put(crd: Crd) returns (err: bool)
      modifies this
      ensures calls == old(calls) + 1 && writes == old(writes) + 1
      ensures err <==> !luck(old(calls)).Healthy?
      ensures store == if luck(old(calls)).Lost? then old(store) else old(store)[crd.name := crd]
    {
      if !luck(calls).Lost? {
        store := store[crd.name := crd];
      }
      err := !luck(calls).Healthy?;
      calls, writes := calls + 1, writes + 1;
    }
  }

  ghost predicate Keyed(store: map<string, Crd>) {
    forall name | name in store :: store[name].name == name
  }

  ghost predicate AllHealthy(client: Client) {
    forall n :: client.luck(n).Healthy?
  }

  ghost predicate LastCallFailed(client: Client)
    reads client
  {
    client.calls > 0 && !client.luck(client.calls - 1).Healthy?
  }

  /** A failing write that got through, its reply being lost. */
  ghost predicate LastCallLate(client: Client)
    reads client
  {
    client.calls > 0 && client.luck(client.calls - 1).Late?
  }

  /** One turn of the loop. */
  method InstallOne(client: Client, crd: Crd) returns (err: bool)
    requires Keyed(client.store)
    modifies client
    ensures Keyed(client.store)
    ensures !err ==> client.store == Install(old(client.store), crd)
    ensures err ==> LastCallFailed(client)
    ensures err ==>
              || client.store == old(client.store)
              || (LastCallLate(client) && client.store == Install(old(client.store), crd))
    ensures AllHealthy(client) ==> !err
    ensures Agrees(old(client.store), crd) ==> client.writes == old(client.writes) && client.store == old(client.store)
  {
    var r := client.Get(crd.name);
    match r
    case Broken => err := true;
    case Absent => err := client.Put(crd);
    case Present(existing) =>
      err := false;
      if existing.spec != crd.spec {
        err := client.Put(existing.(spec := crd.spec));
      } else {
        assert Install(client.store, crd) == client.store;
      }
  }

  /** `done` manifests were dealt with when it ended. All of them if nothing failed; otherwise the
      store is as after exactly those, and the one that failed counts only if its write got
      through before its reply was lost. Nothing is written if every manifest is in agreement. */
  method CreateCRDs(client: Client, crds: seq<Crd>) returns (err: bool, done: nat)
    requires Keyed(client.store)
    modifies client
    ensures !err ==> done == |crds| && client.store == Installed(old(client.store), crds)
    ensures err ==> done < |crds| && LastCallFailed(client)
    ensures err ==> client.store == Installed(old(client.store), crds[..done])
                    || (LastCallLate(client) && client.store == Installed(old(client.store), crds[..done + 1]))
    ensures AllHealthy(client) ==> !err
    ensures (forall crd | crd in crds :: Agrees(old(client.store), crd)) ==>
              client.writes == old(client.writes) && client.store == old(client.store)
  {
    ghost var agreed := forall crd | crd in crds :: Agrees(client.store, crd);
    assert crds[..0] == [];
    done := 0;
    while done < |crds|
      invariant done <= |crds|
      invariant client.store == Installed(old(client.store), crds[..done]) && Keyed(client.store)
      invariant agreed ==> client.writes == old(client.writes) && client.store == old(client.store)
      decreases |crds| - done
    {
      assert crds[..done + 1][..done] == crds[..done];
      err := InstallOne(client, crds[done]);
      if err {
        return;
      }
      done := done + 1;
    }
    assert crds[..|crds|] == crds;
    err := false;
  }

  // ----- what is installed -----

  /** Unlisted definitions and the metadata of existing ones are left alone; nothing else appears. */
  lemma {:induction false} InstallingKeepsTheRest(store: map<string, Crd>, crds: seq<Crd>)
    ensures var after := Installed(store, crds);
            && after.Keys == store.Keys + (set crd | crd in crds :: crd.name)
            && (forall name | name in store :: name in after && after[name] == store[name].(spec := after[name].spec))
            && (forall name | name in store && (forall crd | crd in crds :: crd.name != name) ::
                after[name] == store[name])
  {
    if crds != [] {
      var front, last := crds[..|crds| - 1], crds[|crds| - 1];
      InstallingKeepsTheRest(store, front);
      assert crds == front + [last];
      assert (set crd | crd in crds :: crd.name) == (set crd | crd in front :: crd.name) + {last.name};
    }
  }

  /** The spec that stays is that of the last manifest of that name. */
  lemma {:induction false} LastManifestWins(store: map<string, Crd>, crds: seq<Crd>, i: nat)
    requires i < |crds| && forall j | i < j < |crds| :: crds[j].name != crds[i].name
    ensures Agrees(Installed(store, crds), crds[i])
  {
    var front := crds[..|crds| - 1];
    if i < |front| {
      assert front[i] == crds[i];
      LastManifestWins(store, front, i);
    }
  }

  lemma LastOf(crds: seq<Crd>, i: nat) returns (last: nat)
    requires i < |crds|
    ensures i <= last < |crds| && crds[last].name == crds[i].name
    ensures forall j | last < j < |crds| :: crds[j].name != crds[last].name
  {
    last := |crds| - 1;
    while crds[last].name != crds[i].name
      invariant i <= last < |crds|
      invariant forall j | last < j < |crds| :: crds[j].name != crds[i].name
      decreases last
    {
      last := last - 1;
    }
  }

  /** A definition that is new gets everything but its spec from the first manifest of its name. */
  lemma {:induction false} FirstManifestIsKept(store: map<string, Crd>, crds: seq<Crd>, i: nat)
    requires i < |crds| && crds[i].name !in store
    requires forall j | 0 <= j < i :: crds[j].name != crds[i].name
    ensures var after := Installed(store, crds);
            && crds[i].name in after
            && after[crds[i].name].name == crds[i].name
            && after[crds[i].name].labels == crds[i].labels
            && after[crds[i].name].version == crds[i].version
  {
    var front := crds[..|crds| - 1];
    if i < |front| {
      assert front[i] == crds[i];
      FirstManifestIsKept(store, front, i);
    } else {
      InstallingKeepsTheRest(store, front);
    }
  }

  /** Everything listed is in agreement afterwards exactly when no two manifests of one name differ;
      distinct names are enough. */
  lemma InstallingAgreesExactly(store: map<string, Crd>, crds: seq<Crd>)
    ensures (forall crd | crd in crds :: Agrees(Installed(store, crds), crd))
            <==> forall a, b | a in crds && b in crds && a.name == b.name :: a.spec == b.spec
  {
    if forall a, b | a in crds && b in crds && a.name == b.name :: a.spec == b.spec {
      forall crd | crd in crds
        ensures Agrees(Installed(store, crds), crd)
      {
        var i :| 0 <= i < |crds| && crds[i] == crd;
        var last := LastOf(crds, i);
        LastManifestWins(store, crds, last);
        assert crds[last] in crds;
      }
    }
  }

  lemma {:induction false} AgreedIsNoop(store: map<string, Crd>, crds: seq<Crd>)
    requires forall crd | crd in crds :: Agrees(store, crd)
    ensures Installed(store, crds) == store
  {
    if crds != [] {
      AgreedIsNoop(store, crds[..|crds| - 1]);
      assert crds[|crds| - 1] in crds;
    }
  }

  /** Running the whole list after any attempt that got through some of it gives what one
      uninterrupted run gives; in particular a second run changes nothing. */
  lemma {:induction false} RetryInstalls(store: map<string, Crd>, crds: seq<Crd>, done: nat, upTo: nat)
    requires done <= upTo <= |crds|
    ensures Installed(Installed(store, crds[..done]), crds[..upTo]) == Installed(store, crds[..upTo])
    decreases upTo
  {
    if upTo == 0 {
    } else {
      assert crds[..upTo][..upTo - 1] == crds[..upTo - 1];
      if done < upTo {
        RetryInstalls(store, crds, done, upTo - 1);
      } else {
        RetryWhole(store, crds[..upTo]);
      }
    }
  }

  lemma RetryWhole(store: map<string, Crd>, crds: seq<Crd>)
    ensures Installed(Installed(store, crds), crds) == Installed(store, crds)
  {
    var once := Installed(store, crds);
    var twice := Installed(once, crds);
    InstallingKeepsTheRest(store, crds);
    InstallingKeepsTheRest(once, crds);
    forall name | name in once
      ensures twice[name] == once[name]
    {
      if i :| 0 <= i < |crds| && crds[i].name == name {
        var last := LastOf(crds, i);
        LastManifestWins(store, crds, last);
        LastManifestWins(once, crds, last);
      }
    }
  }
}
