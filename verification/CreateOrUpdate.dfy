/** The write primitive under every step: get an object, let a callback change it, and write it back
    only if that made a difference. Here it stands alone, for any kind of object and any callback. */
module CreateOrUpdate {
  import opened Values
  import opened ApiServer

  /** What became of the object; an error may still have left its write behind. */
  datatype Result = Unchanged | Created | Updated | Errored

  /** A callback may fail, or hand back an object with another key. */
  type Callback<!B> = B -> Option<B>

  /** The object a caller holds a pointer to. */
  class Holder<B> {
    var it: B

    constructor (it: B)
      ensures this.it == it
    {
      this.it := it;
    }
  }

  class Store<K(==), B> {
    var objects: map<K, B>

    constructor (objects: map<K, B>)
      ensures this.objects == objects
    {
      this.objects := objects;
    }
  }

  /** Every object is stored under its own key. */
  ghost predicate Keyed<K(!new), B>(objects: map<K, B>, keyOf: B -> K) {
    forall key | key in objects :: keyOf(objects[key]) == key
  }

  /** The object the callback is applied to. */
  function Base<K, B>(objects: map<K, B>, key: K, initial: B): B {
    if key in objects then objects[key] else initial
  }

  /** The callback succeeds and leaves the key alone. */
  predicate Admits<K(==), B>(f: Callback<B>, keyOf: B -> K, key: K, base: B) {
    f(base).Some? && keyOf(f(base).value) == key
  }

  /** The store a call is meant to bring about: the key set to what the callback makes of the
      object there, or of the initial one. */
  function Intended<K, B>(objects: map<K, B>, keyOf: B -> K, initial: B, f: Callback<B>): map<K, B> {
    var key := keyOf(initial);
    var base := Base(objects, key, initial);
    if Admits(f, keyOf, key, base) then objects[key := f(base).value] else objects
  }

  function Attempted<K, B>(objects: map<K, B>, keyOf: B -> K, initial: B, f: Callback<B>, read: Fault,
                           write: Fault): map<K, B> {
    if read.Healthy? && !write.Lost? then Intended(objects, keyOf, initial, f) else objects
  }

  /** Runs the callback on the held object. */
  method Mutate<K(==), B>(f: Callback<B>, keyOf: B -> K, key: K, held: Holder<B>) returns (err: bool)
    modifies held
    ensures err <==> !Admits(f, keyOf, key, old(held.it))
    ensures f(old(held.it)).Some? ==> held.it == f(old(held.it)).value
  {
    match f(held.it)
    case None => return true;
    case Some(changed) =>
      held.it := changed;
      return keyOf(held.it) != key;
  }

  /** Served, the write takes place; late, it does too, but nobody hears of it. */
  method Write<K, B>(store: Store<K, B>, key: K, b: B, fault: Fault) returns (err: bool)
    modifies store
    ensures err <==> !fault.Healthy?
    ensures store.objects == if fault.Lost? then old(store.objects) else old(store.objects)[key := b]
  {
    if !fault.Lost? {
      store.objects := store.objects[key := b];
    }
    err := !fault.Healthy?;
  }

  /** The held object is filled by the lookup, changed by the callback, and compared with a copy
      taken in between. A callback that fails or changes the key costs no write, and neither
      does one that changes nothing; otherwise the store becomes the intended one. */
  method CreateOrUpdate<K(==), B(==)>(store: Store<K, B>, held: Holder<B>, keyOf: B -> K, f: Callback<B>,
                                      read: Fault, write: Fault) returns (r: Result)
    modifies store, held
    ensures store.objects == Attempted(old(store.objects), keyOf, old(held.it), f, read, write)
    ensures var key, objects := keyOf(old(held.it)), old(store.objects);
            var base := Base(objects, key, old(held.it));
            var noop := key in objects && f(base) == Some(base);
            && (r == Errored <==> !(read.Healthy? && Admits(f, keyOf, key, base) && (noop || write.Healthy?)))
            && (r == Unchanged <==> read.Healthy? && Admits(f, keyOf, key, base) && noop)
            && (r == Created ==> key !in objects && key in store.objects)
            && (r == Updated ==> key in objects && store.objects != objects)
            && (r == Unchanged || !Admits(f, keyOf, key, base) ==> store.objects == objects)
    ensures forall k | k != keyOf(old(held.it)) :: k in store.objects <==> k in old(store.objects)
    ensures forall k | k != keyOf(old(held.it)) && k in old(store.objects) :: store.objects[k] == old(store.objects)[k]
  {
    var key := keyOf(held.it);
    if !read.Healthy? {
      return Errored;
    }
    if key !in store.objects {
      var err := Mutate(f, keyOf, key, held);
      if err {
        return Errored;
      }
      err := Write(store, key, held.it, write);
      return if err then Errored else Created;
    }
    held.it := store.objects[key];
    var existing := held.it;
    var err := Mutate(f, keyOf, key, held);
    if err {
      return Errored;
    }
    if existing == held.it {
      assert store.objects == store.objects[key := existing];
      return Unchanged;
    }
    err := Write(store, key, held.it, write);
    assert store.objects != old(store.objects) ==> store.objects[key] != old(store.objects)[key];
    return if err then Errored else Updated;
  }

  /** Creates what is not there; what is there is never overwritten. */
  method CreateIfNotExists<K(==), B>(store: Store<K, B>, held: Holder<B>, keyOf: B -> K, write: Fault)
    returns (there: bool, err: bool)
    modifies store
    ensures there <==> write.Healthy? && keyOf(held.it) in old(store.objects)
    ensures err <==> !write.Healthy?
    ensures store.objects == if keyOf(held.it) in old(store.objects) || write.Lost? then old(store.objects)
                             else old(store.objects)[keyOf(held.it) := held.it]
  {
    var key := keyOf(held.it);
    there := key in store.objects;
    if !there && !write.Lost? {
      store.objects := store.objects[key := held.it];
    }
    there, err := there && write.Healthy?, !write.Healthy?;
  }

  // ----- what the primitive promises -----

  /** Objects stay under their own keys. */
  lemma IntendedIsKeyed<K(!new), B>(objects: map<K, B>, keyOf: B -> K, initial: B, f: Callback<B>)
    requires Keyed(objects, keyOf)
    ensures Keyed(Intended(objects, keyOf, initial, f), keyOf)
  {
  }

  /** Doing it twice is doing it once exactly when the callback, given its own result, changes
      nothing more, or is turned away. */
  lemma TwiceIsOnceExactly<K(!new), B(!new)>(objects: map<K, B>, keyOf: B -> K, initial: B, f: Callback<B>)
    requires Keyed(objects, keyOf)
    ensures var key := keyOf(initial);
            var base := Base(objects, key, initial);
            var once := Intended(objects, keyOf, initial, f);
            Intended(once, keyOf, initial, f) == once
            <==> (Admits(f, keyOf, key, base) && Admits(f, keyOf, key, f(base).value) ==> f(f(base).value) == f(base))
  {
  }

  /** Writers of different objects do not get into each other's way. */
  lemma DifferentKeysCommute<K(!new), B(!new)>(objects: map<K, B>, keyOf: B -> K, a: B, f: Callback<B>, b: B,
                                               g: Callback<B>)
    requires keyOf(a) != keyOf(b)
    ensures Intended(Intended(objects, keyOf, a, f), keyOf, b, g)
            == Intended(Intended(objects, keyOf, b, g), keyOf, a, f)
  {
  }

  function AttemptedAll<K, B>(objects: map<K, B>, keyOf: B -> K, initial: B, f: Callback<B>,
                              attempts: seq<(Fault, Fault)>): map<K, B>
    decreases |attempts|
  {
    if attempts == [] then objects
    else AttemptedAll(Attempted(objects, keyOf, initial, f, attempts[0].0, attempts[0].1), keyOf, initial, f,
                      attempts[1..])
  }

  /** A callback that has nothing to add to its own result ends in the same store after any number
      of attempts, whichever of their calls failed, as in one. */
  lemma {:induction false} AttemptsConverge<K(!new), B(!new)>(objects: map<K, B>, keyOf: B -> K, initial: B,
                                                             f: Callback<B>,
                                                             attempts: seq<(Fault, Fault)>)
    requires Keyed(objects, keyOf)
    requires forall b | f(b).Some? :: f(f(b).value) == f(b)
    ensures Intended(AttemptedAll(objects, keyOf, initial, f, attempts), keyOf, initial, f)
            == Intended(objects, keyOf, initial, f)
    decreases |attempts|
  {
    if attempts != [] {
      IntendedIsKeyed(objects, keyOf, initial, f);
      TwiceIsOnceExactly(objects, keyOf, initial, f);
      var next := Attempted(objects, keyOf, initial, f, attempts[0].0, attempts[0].1);
      AttemptsConverge(next, keyOf, initial, f, attempts[1..]);
    }
  }
}
