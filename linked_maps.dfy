/** Insertion-ordered maps from string keys to loosely-typed values, the role
    `java.util.LinkedHashMap<String, Object>` plays for the argument bags a
    pipeline script passes in and for the step arguments this layer builds.

    A map is a sequence of key/value pairs; `put` of a new key appends it,
    `put` of a present key replaces the value in place, and `get` of an absent
    key yields `Null`, as Java's `get` yields `null`. */
module LinkedMaps {

  /** A value an argument map can hold: Java's `null`, a string, or a
      reference to an object (a server, a build-info, a client, a nested map). */
  datatype Value = Null | Str(s: string) | Ref(obj: object)

  type Entries = seq<(string, Value)>

  /** A Java `String` that may be `null`. */
  datatype Option<T> = None | Some(value: T)

  /** The map value a possibly-null Java `String` becomes when it is put. */
  function StringValue(s: Option<string>): Value
  {
    match s
    case None => Null
    case Some(t) => Str(t)
  }

  /** The keys of `m` in insertion order. */
  function Keys(m: Entries): seq<string>
  {
    if m == [] then [] else [m[0].0] + Keys(m[1..])
  }

  /** The key set, what Java's `keySet()` returns. */
  function KeySet(m: Entries): set<string>
  {
    if m == [] then {} else {m[0].0} + KeySet(m[1..])
  }

  /** No key occurs twice: every Java map has this shape. */
  predicate Distinct(m: Entries)
  {
    m == [] || (m[0].0 !in KeySet(m[1..]) && Distinct(m[1..]))
  }

  /** `m.get(k)`: the value stored under `k`, or `Null` when `k` is absent. */
  function Lookup(m: Entries, k: string): (v: Value)
    ensures k !in KeySet(m) ==> v == Null
  {
    if m == [] then Null
    else if m[0].0 == k then m[0].1
    else Lookup(m[1..], k)
  }

  /** The position of the first entry under `k`. */
  function IndexOf(m: Entries, k: string): (i: nat)
    requires k in KeySet(m)
    ensures i < |m| && m[i].0 == k
  {
    if m[0].0 == k then 0 else 1 + IndexOf(m[1..], k)
  }

  /** `get` of a present key yields a value stored under that key. */
  lemma {:induction false} LookupFindsEntry(m: Entries, k: string)
    requires k in KeySet(m)
    ensures (k, Lookup(m, k)) in m
  {
    if m[0].0 != k {
      LookupFindsEntry(m[1..], k);
    }
  }

  lemma {:induction false} KeySetConcat(a: Entries, b: Entries)
    ensures KeySet(a + b) == KeySet(a) + KeySet(b)
    ensures Keys(a + b) == Keys(a) + Keys(b)
  {
    if a != [] {
      assert (a + b)[1..] == a[1..] + b;
      KeySetConcat(a[1..], b);
    } else {
      assert a + b == b;
    }
  }

  /** Giving a present key a new value in place changes neither the keys,
      nor their order, nor whether they are distinct. */
  lemma {:induction false} ReplaceKeepsKeys(m: Entries, k: string, v: Value)
    requires k in KeySet(m)
    ensures KeySet(m[IndexOf(m, k) := (k, v)]) == KeySet(m)
    ensures Keys(m[IndexOf(m, k) := (k, v)]) == Keys(m)
    ensures Distinct(m[IndexOf(m, k) := (k, v)]) == Distinct(m)
  {
    var r := m[IndexOf(m, k) := (k, v)];
    if m[0].0 == k {
      assert r[1..] == m[1..];
    } else {
      ReplaceKeepsKeys(m[1..], k, v);
      assert r[1..] == m[1..][IndexOf(m[1..], k) := (k, v)];
    }
  }

  /** Appending a new key keeps the keys distinct. */
  lemma {:induction false} AppendKeepsDistinct(m: Entries, k: string, v: Value)
    requires k !in KeySet(m) && Distinct(m)
    ensures Distinct(m + [(k, v)])
  {
    if m == [] {
      assert [(k, v)][1..] == [];
    } else {
      assert (m + [(k, v)])[1..] == m[1..] + [(k, v)];
      AppendKeepsDistinct(m[1..], k, v);
      KeySetConcat(m[1..], [(k, v)]);
      assert [(k, v)][1..] == [];
    }
  }

  /** `m.put(k, v)`: a present key keeps its place and gets the new value; a
      new key goes to the end. */
  function PutEntry(m: Entries, k: string, v: Value): (r: Entries)
    ensures KeySet(r) == KeySet(m) + {k}
    ensures Distinct(m) ==> Distinct(r)
  {
    if k in KeySet(m) then
      ReplaceKeepsKeys(m, k, v);
      m[IndexOf(m, k) := (k, v)]
    else
      KeySetConcat(m, [(k, v)]);
      assert [(k, v)][1..] == [];
      if Distinct(m) then AppendKeepsDistinct(m, k, v); m + [(k, v)]
      else m + [(k, v)]
  }

  /** After `put(k, v)`, `get(k)` yields `v` and every other key yields what
      it did before. */
  lemma LookupAfterPut(m: Entries, k: string, v: Value, j: string)
    ensures Lookup(PutEntry(m, k, v), j) == if j == k then v else Lookup(m, j)
  {
    if k in KeySet(m) {
      LookupAfterReplace(m, k, v, j);
    } else {
      LookupAfterAppend(m, k, v, j);
    }
  }

  lemma {:induction false} LookupAfterReplace(m: Entries, k: string, v: Value, j: string)
    requires k in KeySet(m)
    ensures Lookup(m[IndexOf(m, k) := (k, v)], j) == if j == k then v else Lookup(m, j)
  {
    var r := m[IndexOf(m, k) := (k, v)];
    if m[0].0 == k {
      assert r[1..] == m[1..];
    } else {
      LookupAfterReplace(m[1..], k, v, j);
      assert r[1..] == m[1..][IndexOf(m[1..], k) := (k, v)];
    }
  }

  lemma {:induction false} LookupAfterAppend(m: Entries, k: string, v: Value, j: string)
    requires k !in KeySet(m)
    ensures Lookup(m + [(k, v)], j) == if j == k then v else Lookup(m, j)
  {
    if m == [] {
      assert [(k, v)][1..] == [];
    } else {
      assert (m + [(k, v)])[1..] == m[1..] + [(k, v)];
      LookupAfterAppend(m[1..], k, v, j);
    }
  }

  /** `put` of a present key leaves the key order as it was; a new key is
      listed last. */
  lemma KeysAfterPut(m: Entries, k: string, v: Value)
    ensures Keys(PutEntry(m, k, v)) == if k in KeySet(m) then Keys(m) else Keys(m) + [k]
  {
    if k in KeySet(m) {
      ReplaceKeepsKeys(m, k, v);
    } else {
      KeySetConcat(m, [(k, v)]);
      assert [(k, v)][1..] == [];
    }
  }

  /** `m.remove(k)`: the entry under `k` is dropped and the others keep their
      order (see `RemoveEntrySplices`). */
  function RemoveEntry(m: Entries, k: string): (r: Entries)
    ensures k !in KeySet(m) ==> r == m
    ensures KeySet(r) <= KeySet(m)
    ensures Distinct(m) ==> KeySet(r) == KeySet(m) - {k}
    ensures Distinct(m) ==> Distinct(r)
  {
    if m == [] then []
    else if m[0].0 == k then m[1..]
    else
      var rest := RemoveEntry(m[1..], k);
      assert ([m[0]] + rest)[1..] == rest;
      [m[0]] + rest
  }

  /** After `remove(k)`, `get(k)` yields `Null` and every other key yields
      what it did before. */
  lemma {:induction false} LookupAfterRemove(m: Entries, k: string, j: string)
    requires Distinct(m)
    ensures Lookup(RemoveEntry(m, k), j) == if j == k then Null else Lookup(m, j)
  {
    if m != [] && m[0].0 != k {
      LookupAfterRemove(m[1..], k, j);
      assert ([m[0]] + RemoveEntry(m[1..], k))[1..] == RemoveEntry(m[1..], k);
    }
  }

  /** Putting the head back in front of a sequence with one element cut
      out is cutting the element one place further in the whole sequence. */
  lemma ConsSplice(m: Entries, i: nat)
    requires i + 1 < |m|
    ensures [m[0]] + (m[1..][..i] + m[1..][i + 1..]) == m[..i + 1] + m[i + 2..]
  {
    assert m[..i + 1] == [m[0]] + m[1..][..i];
    assert m[i + 2..] == m[1..][i + 1..];
  }

  /** Removing a present key cuts exactly its entry out of the sequence and
      keeps every other entry in order. */
  lemma {:induction false} RemoveEntrySplices(m: Entries, k: string)
    requires k in KeySet(m)
    ensures RemoveEntry(m, k) == m[..IndexOf(m, k)] + m[IndexOf(m, k) + 1..]
  {
    if m[0].0 == k {
      assert m[..0] + m[1..] == m[1..];
    } else {
      RemoveEntrySplices(m[1..], k);
      ConsSplice(m, IndexOf(m[1..], k));
    }
  }

  /** Taking a key's value out and putting it back loses nothing: the same
      keys map to the same values (the key may have moved to the end). */
  lemma RemoveThenPutBack(m: Entries, k: string, j: string)
    requires Distinct(m) && k in KeySet(m)
    ensures KeySet(PutEntry(RemoveEntry(m, k), k, Lookup(m, k))) == KeySet(m)
    ensures Lookup(PutEntry(RemoveEntry(m, k), k, Lookup(m, k)), j) == Lookup(m, j)
  {
    LookupAfterPut(RemoveEntry(m, k), k, Lookup(m, k), j);
    LookupAfterRemove(m, k, j);
  }

  lemma {:induction false} DistinctConcat(a: Entries, b: Entries)
    requires Distinct(a + b)
    ensures KeySet(a) !! KeySet(b)
  {
    if a != [] {
      assert (a + b)[1..] == a[1..] + b;
      KeySetConcat(a[1..], b);
      DistinctConcat(a[1..], b);
    }
  }

  /** The map that successive `put`s of `kvs` leave behind, starting from `m`. */
  function PutAll(m: Entries, kvs: Entries): Entries
    decreases |kvs|
  {
    if kvs == [] then m else PutAll(PutEntry(m, kvs[0].0, kvs[0].1), kvs[1..])
  }

  /** Putting pairwise new keys one after another lists them in exactly the
      order they were put. */
  lemma {:induction false} PutAllFreshKeysInOrder(m: Entries, kvs: Entries)
    requires Distinct(m + kvs)
    ensures PutAll(m, kvs) == m + kvs
    ensures Keys(PutAll(m, kvs)) == Keys(m) + Keys(kvs)
    decreases |kvs|
  {
    if kvs == [] {
      assert m + kvs == m;
      KeySetConcat(m, kvs);
    } else {
      var k, v := kvs[0].0, kvs[0].1;
      DistinctConcat(m, kvs);
      assert k in KeySet(kvs);
      assert PutEntry(m, k, v) == m + [kvs[0]];
      assert (m + [kvs[0]]) + kvs[1..] == m + kvs;
      PutAllFreshKeysInOrder(m + [kvs[0]], kvs[1..]);
      KeySetConcat(m, kvs);
    }
  }

  /** The mutable map object: a caller's argument bag or a step map under
      construction. */
  class LinkedMap {
    var entries: Entries

    ghost predicate Valid()
      reads this
    {
      Distinct(entries)
    }

    /** `Maps.newLinkedHashMap()`. */
    constructor ()
      ensures Valid() && entries == []
    {
      entries := [];
    }

    method Put(k: string, v: Value)
      modifies this
      ensures entries == PutEntry(old(entries), k, v)
      ensures old(Valid()) ==> Valid()
    {
      entries := PutEntry(entries, k, v);
    }

    /** Removes the entry under `k` and returns the value it held (`Null`
        when there was none). */
    method Remove(k: string) returns (previous: Value)
      requires Valid()
      modifies this
      ensures Valid()
      ensures previous == Lookup(old(entries), k)
      ensures entries == RemoveEntry(old(entries), k)
    {
      previous := Lookup(entries, k);
      entries := RemoveEntry(entries, k);
    }

    method Get(k: string) returns (v: Value)
      ensures v == Lookup(entries, k)
    {
      v := Lookup(entries, k);
    }

    method ContainsKey(k: string) returns (b: bool)
      ensures b <==> k in KeySet(entries)
    {
      b := k in KeySet(entries);
    }
  }
}
