/**
 * The file-backed stores of src/fs-store.ts. Each store keeps its data in
 * memory and rewrites its whole file after every change; the file is a ghost
 * field holding what the last write put there (`None` while nothing has been
 * written and no file existed). `JSON.stringify`/`JSON.parse` are taken to be
 * inverse on these values.
 */
module FsStore {
  import opened Wrappers

  /**
   * `ArrayStore<T>`: an append-only array persisted as a whole on every
   * `push`.
   */
  class ArrayStore<T> {
    var items: seq<T>
    ghost var file: Option<seq<T>>

    /** The file, once it exists, holds exactly the in-memory sequence. */
    ghost predicate Valid()
      reads this
    {
      match file
      case None => items == []
      case Some(written) => written == items
    }

    /**
     * Opens the store: `existing` is what the file held when it existed, taken
     * as it is (no validation); an absent file gives an empty store and is not
     * created.
     */
    constructor (existing: Option<seq<T>>)
      ensures Valid()
      ensures items == existing.GetOr([]) && file == existing
    {
      items := existing.GetOr([]);
      file := existing;
    }

    /** `get data()`: a copy of the sequence; later pushes do not change it. */
    method Data() returns (copy: seq<T>)
      ensures copy == items
    {
      copy := items;
    }

    /** `push(value)`: append, then rewrite the file with the whole sequence. */
    method Push(v: T)
      requires Valid()
      modifies this
      ensures Valid()
      ensures items == old(items) + [v]
      ensures file == Some(items)
    {
      items := items + [v];
      file := Some(items);
    }

    /**
     * `at(index)` with `Array.prototype.at` semantics: a non-negative index
     * counts from the front, a negative one from the back, anything outside
     * the sequence is `undefined`.
     */
    function At(i: int): (r: Option<T>)
      reads this
      ensures 0 <= i < |items| ==> r == Some(items[i])
      ensures -|items| <= i < 0 ==> r == Some(items[|items| + i])
      ensures r.None? <==> i < -|items| || |items| <= i
    {
      var k := if i < 0 then |items| + i else i;
      if 0 <= k < |items| then Some(items[k]) else None
    }
  }

  /** Reopening a store from its file gives back the same sequence. */
  method Reopen<T>(s: ArrayStore<T>, onDisk: Option<seq<T>>) returns (t: ArrayStore<T>)
    requires s.Valid() && onDisk == s.file
    ensures fresh(t) && t.Valid()
    ensures t.items == s.items
  {
    t := new ArrayStore(onDisk);
  }

  /** After a push, `at(-1)` is the value just pushed and the length grew by one. */
  lemma PushThenLast<T>(before: seq<T>, v: T, s: ArrayStore<T>)
    requires s.items == before + [v]
    ensures s.At(-1) == Some(v)
    ensures s.At(|before|) == Some(v)
  {
  }

  // ---- Plain objects: own properties in insertion order ----

  /** The own enumerable properties of a plain object, in insertion order. */
  type Entries<V> = seq<(string, V)>

  function KeysOf<V>(es: Entries<V>): (ks: seq<string>)
    ensures |ks| == |es|
    ensures forall i :: 0 <= i < |es| ==> ks[i] == es[i].0
  {
    if es == [] then [] else [es[0].0] + KeysOf(es[1..])
  }

  function ValuesOf<V>(es: Entries<V>): (vs: seq<V>)
    ensures |vs| == |es|
    ensures forall i :: 0 <= i < |es| ==> vs[i] == es[i].1
  {
    if es == [] then [] else [es[0].1] + ValuesOf(es[1..])
  }

  /** Property names of an object are distinct. */
  ghost predicate DistinctKeys<V>(es: Entries<V>) {
    forall i, j :: 0 <= i < j < |es| ==> es[i].0 != es[j].0
  }

  /** `obj[key]`: the value of the first property named `key`. */
  function Lookup<V>(es: Entries<V>, key: string): Option<V> {
    if es == [] then None
    else if es[0].0 == key then Some(es[0].1)
    else Lookup(es[1..], key)
  }

  /**
   * `obj[key] = value`: an existing property keeps its place and takes the new
   * value; a new one is added last.
   */
  function Put<V>(es: Entries<V>, key: string, value: V): (r: Entries<V>)
    ensures |r| == |es| || |r| == |es| + 1
  {
    if es == [] then [(key, value)]
    else if es[0].0 == key then [(key, value)] + es[1..]
    else [es[0]] + Put(es[1..], key, value)
  }

  lemma {:induction false} LookupPutSame<V>(es: Entries<V>, key: string, value: V)
    ensures Lookup(Put(es, key, value), key) == Some(value)
  {
    if es != [] && es[0].0 != key {
      LookupPutSame(es[1..], key, value);
    }
  }

  lemma {:induction false} LookupPutOther<V>(es: Entries<V>, key: string, value: V, other: string)
    requires other != key
    ensures Lookup(Put(es, key, value), other) == Lookup(es, other)
  {
    if es != [] && es[0].0 != key {
      LookupPutOther(es[1..], key, value, other);
    }
  }

  lemma {:induction false} LookupIn<V>(es: Entries<V>, key: string)
    ensures Lookup(es, key).Some? <==> key in KeysOf(es)
  {
    if es != [] {
      LookupIn(es[1..], key);
      assert KeysOf(es) == [es[0].0] + KeysOf(es[1..]);
    }
  }

  /** Setting a property keeps the key order: the key is appended only when new. */
  lemma {:induction false} KeysOfPut<V>(es: Entries<V>, key: string, value: V)
    ensures KeysOf(Put(es, key, value)) == if key in KeysOf(es) then KeysOf(es) else KeysOf(es) + [key]
  {
    if es != [] {
      KeysOfPut(es[1..], key, value);
      assert KeysOf(es) == [es[0].0] + KeysOf(es[1..]);
      if es[0].0 != key {
        assert KeysOf(Put(es, key, value)) == [es[0].0] + KeysOf(Put(es[1..], key, value));
      } else {
        assert KeysOf(Put(es, key, value)) == [key] + KeysOf(es[1..]);
      }
    }
  }

  /** Setting a property keeps property names distinct. */
  lemma PutKeepsDistinct<V>(es: Entries<V>, key: string, value: V)
    requires DistinctKeys(es)
    ensures DistinctKeys(Put(es, key, value))
  {
    KeysOfPut(es, key, value);
    var r := Put(es, key, value);
    forall i, j | 0 <= i < j < |r| ensures r[i].0 != r[j].0 {
      assert KeysOf(r)[i] == r[i].0 && KeysOf(r)[j] == r[j].0;
      if key !in KeysOf(es) && j == |es| {
        assert KeysOf(es)[i] == KeysOf(r)[i];
      }
    }
  }

  /**
   * A plain object held by reference. `frozen` is set by `Object.freeze`;
   * writing to a frozen object throws a TypeError (ES modules run in strict
   * mode).
   */
  class RecordObject<V> {
    var entries: Entries<V>
    var frozen: bool

    constructor (es: Entries<V>)
      ensures entries == es && !frozen
    {
      entries := es;
      frozen := false;
    }
  }

  /**
   * `Store<T>`: a keyed record persisted as a whole on every change. Without a
   * file the store uses the `defaults` object itself, not a copy, and so does
   * `reset`; a `set` made then writes through to the defaults.
   */
  class Store<V> {
    const defaults: RecordObject<V>
    var current: RecordObject<V>
    ghost var file: Option<Entries<V>>

    ghost predicate Valid()
      reads this, current, defaults
    {
      && DistinctKeys(current.entries)
      && DistinctKeys(defaults.entries)
      && match file
         case None => current == defaults
         case Some(written) => written == current.entries
    }

    /**
     * Opens the store: `existing` is what the file held when it existed (taken
     * as it is); otherwise the data is `defaults` itself and no file is written.
     */
    constructor (existing: Option<Entries<V>>, defaults: RecordObject<V>)
      requires existing.Some? ==> DistinctKeys(existing.value)
      requires DistinctKeys(defaults.entries)
      ensures Valid() && this.defaults == defaults && file == existing
      ensures existing.None? ==> current == defaults
      ensures existing.Some? ==> fresh(current) && current.entries == existing.value && !current.frozen
    {
      this.defaults := defaults;
      file := existing;
      if existing.Some? {
        current := new RecordObject(existing.value);
      } else {
        current := defaults;
      }
    }

    /** `get(key)`: the value stored under `key`, `undefined` when absent. */
    function Get(key: string): (r: Option<V>)
      reads this, current
      ensures r.Some? <==> key in Keys()
    {
      LookupIn(current.entries, key);
      Lookup(current.entries, key)
    }

    /** `keys()`: the property names in insertion order. */
    function Keys(): (ks: seq<string>)
      reads this, current
      ensures |ks| == |current.entries|
    {
      KeysOf(current.entries)
    }

    /** `values()`: the property values in the same order as `keys()`. */
    function Values(): (vs: seq<V>)
      reads this, current, defaults
      requires Valid()
      ensures |vs| == |Keys()|
      ensures forall i :: 0 <= i < |vs| ==> Get(Keys()[i]) == Some(vs[i])
    {
      var es := current.entries;
      forall i | 0 <= i < |es| ensures Lookup(es, es[i].0) == Some(es[i].1) {
        LookupDistinct(es, i);
      }
      ValuesOf(es)
    }

    /**
     * `set(key, value)`: writes the property on the live object and rewrites
     * the file; on a frozen object the write throws (ok is false) and nothing
     * changes.
     */
    method Set(key: string, value: V) returns (ok: bool)
      requires Valid()
      modifies this, current
      ensures Valid() && current == old(current)
      ensures ok == !old(current.frozen)
      ensures ok ==> current.entries == Put(old(current.entries), key, value) && file == Some(current.entries)
      ensures !ok ==> current.entries == old(current.entries) && file == old(file)
      ensures current.frozen == old(current.frozen)
    {
      if current.frozen {
        return false;
      }
      PutKeepsDistinct(current.entries, key, value);
      current.entries := Put(current.entries, key, value);
      file := Some(current.entries);
      ok := true;
    }

    /** `reset()`: the data becomes the defaults object itself and the file is rewritten. */
    method Reset()
      requires Valid()
      modifies this
      ensures Valid()
      ensures current == defaults && file == Some(defaults.entries)
    {
      current := defaults;
      file := Some(defaults.entries);
    }

    /** `get data()`: freezes the live record and returns it (not a copy). */
    method Data() returns (r: RecordObject<V>)
      modifies current
      ensures r == current && r.frozen && r.entries == old(r.entries)
    {
      current.frozen := true;
      r := current;
    }
  }

  lemma {:induction false} LookupDistinct<V>(es: Entries<V>, i: nat)
    requires DistinctKeys(es) && i < |es|
    ensures Lookup(es, es[i].0) == Some(es[i].1)
  {
    if i > 0 {
      assert es[0].0 != es[i].0;
      assert es[1..][i - 1] == es[i];
      LookupDistinct(es[1..], i - 1);
    }
  }

  /**
   * On a store opened without a file, `set` then `reset` does not restore the
   * original defaults: the write went into the defaults object.
   */
  method ResetKeepsLatestSet<V>(s: Store<V>, key: string, value: V) returns (ok: bool)
    requires s.Valid() && s.current == s.defaults
    modifies s, s.current
    ensures ok == !old(s.defaults.frozen)
    ensures ok ==> s.current == s.defaults && s.Get(key) == Some(value)
  {
    ok := s.Set(key, value);
    if ok {
      s.Reset();
      LookupPutSame(old(s.defaults.entries), key, value);
    }
  }

  /** After `data` has been read, every later `set` throws and changes nothing. */
  method SetAfterData<V>(s: Store<V>, key: string, value: V) returns (ok: bool)
    requires s.Valid()
    modifies s, s.current
    ensures !ok && s.current.entries == old(s.current.entries)
  {
    var d := s.Data();
    ok := s.Set(key, value);
  }
}
