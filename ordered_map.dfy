/** A JavaScript `Map<string, V>`, whose keys iterate in first-insertion order, modelled as the
    sequence of its entries in that order. The relay keeps two: the translator's
    `pendingToolUses` and the permission broker's `pendingPermissions`. */
module OrderedMap {
  import opened Values

  datatype Entry<V> = Entry(key: string, value: V)

  type Table<V> = seq<Entry<V>>

  /** No key occurs twice. */
  predicate WellFormed<V(==)>(t: Table<V>) {
    forall i, j :: 0 <= i < j < |t| ==> t[i].key != t[j].key
  }

  /** `[...t.keys()]` */
  function Ids<V>(t: Table<V>): (keys: seq<string>)
    ensures |keys| == |t|
    ensures forall i :: 0 <= i < |t| ==> keys[i] == t[i].key
  {
    seq(|t|, i requires 0 <= i < |t| => t[i].key)
  }

  /** Position of key `id`, or -1. */
  function IndexOf<V(==)>(t: Table<V>, id: string): (i: int)
    ensures -1 <= i < |t|
    ensures i >= 0 ==> t[i].key == id && forall j :: 0 <= j < i ==> t[j].key != id
    ensures i < 0 ==> forall j :: 0 <= j < |t| ==> t[j].key != id
    decreases |t|
  {
    if |t| == 0 then -1
    else if t[0].key == id then 0
    else
      var j := IndexOf(t[1..], id);
      if j < 0 then -1 else j + 1
  }

  /** The contract of IndexOf determines its value. */
  lemma IndexOfIs<V>(t: Table<V>, id: string, i: int)
    requires -1 <= i < |t|
    requires i >= 0 ==> t[i].key == id && forall j :: 0 <= j < i ==> t[j].key != id
    requires i < 0 ==> forall j :: 0 <= j < |t| ==> t[j].key != id
    ensures IndexOf(t, id) == i
  {
  }

  /** `t.has(id)` */
  predicate Has<V(==)>(t: Table<V>, id: string) {
    IndexOf(t, id) >= 0
  }

  lemma HasIffInIds<V>(t: Table<V>, id: string)
    ensures Has(t, id) <==> id in Ids(t)
  {
    if id in Ids(t) {
      var j :| 0 <= j < |t| && Ids(t)[j] == id;
      assert t[j].key == id;
    }
  }

  /** In a well-formed table every entry is found at its own position. */
  lemma IndexOfEntry<V>(t: Table<V>, j: int)
    requires WellFormed(t) && 0 <= j < |t|
    ensures IndexOf(t, t[j].key) == j
  {
    IndexOfIs(t, t[j].key, j);
  }

  /** `t.get(id)` */
  function Get<V(==)>(t: Table<V>, id: string): (r: Option<Entry<V>>)
    ensures r.Some? <==> Has(t, id)
    ensures r.Some? ==> r.value.key == id && r.value in t
  {
    var i := IndexOf(t, id);
    if i >= 0 then Some(t[i]) else None
  }

  /** `t.set(id, v)`: an existing key keeps its position and takes the new value; a new key
      goes last. */
  function Set<V(==)>(t: Table<V>, id: string, v: V): (r: Table<V>)
    requires WellFormed(t)
    ensures WellFormed(r)
  {
    var i := IndexOf(t, id);
    if i >= 0 then
      ReplaceAtFacts(t, i, v);
      t[i := Entry(id, v)]
    else
      AppendFacts(t, Entry(id, v));
      t + [Entry(id, v)]
  }

  /** After `set`, the key maps to the new value, every other key to what it did before, and
      the key order only grows by the new key at the end. */
  lemma SetLookup<V>(t: Table<V>, id: string, v: V)
    requires WellFormed(t)
    ensures Get(Set(t, id, v), id) == Some(Entry(id, v))
    ensures forall k :: k != id ==> Get(Set(t, id, v), k) == Get(t, k)
    ensures Ids(Set(t, id, v)) == if Has(t, id) then Ids(t) else Ids(t) + [id]
  {
    var i := IndexOf(t, id);
    var r := Set(t, id, v);
    if i >= 0 {
      ReplaceAtFacts(t, i, v);
      assert r == t[i := Entry(id, v)];
      assert Ids(r) == Ids(t);
    } else {
      AppendFacts(t, Entry(id, v));
      assert r == t + [Entry(id, v)];
      assert Ids(r) == Ids(t) + [id];
    }
    forall k | k != id ensures Get(r, k) == Get(t, k) {
    }
  }

  /** Setting an existing key: the keys stay unique and every key keeps its position. */
  lemma ReplaceAtFacts<V>(t: Table<V>, i: int, v: V)
    requires WellFormed(t) && 0 <= i < |t|
    ensures var r := t[i := Entry(t[i].key, v)];
      && WellFormed(r)
      && IndexOf(r, t[i].key) == i
      && (forall k :: IndexOf(r, k) == IndexOf(t, k))
  {
    var r := t[i := Entry(t[i].key, v)];
    forall k ensures IndexOf(r, k) == IndexOf(t, k) {
      IndexOfIs(r, k, IndexOf(t, k));
    }
  }

  /** Setting a new key: the keys stay unique, the new key goes last and every other key keeps
      its position. */
  lemma AppendFacts<V>(t: Table<V>, e: Entry<V>)
    requires WellFormed(t) && IndexOf(t, e.key) < 0
    ensures var r := t + [e];
      && WellFormed(r)
      && IndexOf(r, e.key) == |t|
      && (forall k :: k != e.key ==> IndexOf(r, k) == IndexOf(t, k))
  {
    var r := t + [e];
    forall k | k != e.key ensures IndexOf(r, k) == IndexOf(t, k) {
      IndexOfIs(r, k, IndexOf(t, k));
    }
    IndexOfIs(r, e.key, |t|);
  }

  /** `t.delete(id)`: the entry for `id` goes, every other entry keeps its value and its order. */
  function Delete<V(==)>(t: Table<V>, id: string): (r: Table<V>)
    requires WellFormed(t)
    ensures WellFormed(r)
  {
    var i := IndexOf(t, id);
    if i < 0 then t
    else
      RemoveAtFacts(t, i);
      t[..i] + t[i + 1..]
  }

  /** After `delete`, the key is gone, every other key maps to what it did before, the size
      drops by one exactly when the key was present, and the remaining entries keep their
      relative order. */
  lemma DeleteLookup<V>(t: Table<V>, id: string)
    requires WellFormed(t)
    ensures !Has(Delete(t, id), id)
    ensures forall k :: k != id ==> Get(Delete(t, id), k) == Get(t, k)
    ensures |Delete(t, id)| == if Has(t, id) then |t| - 1 else |t|
    ensures var r := Delete(t, id);
      forall a, b :: 0 <= a < b < |r| ==> IndexOf(t, r[a].key) < IndexOf(t, r[b].key)
  {
    var i := IndexOf(t, id);
    var r := Delete(t, id);
    if i < 0 {
      assert r == t;
      forall a | 0 <= a < |t| ensures IndexOf(t, t[a].key) == a {
        IndexOfEntry(t, a);
      }
    } else {
      assert r == t[..i] + t[i + 1..];
      RemoveAtFacts(t, i);
      forall k | k != id ensures Get(r, k) == Get(t, k) {
      }
    }
  }

  /** Removing the entry at position `i` keeps the keys unique, removes that entry's key,
      changes no other key's presence or entry, and keeps the order of the rest. */
  lemma RemoveAtFacts<V>(t: Table<V>, i: int)
    requires WellFormed(t) && 0 <= i < |t|
    ensures var r := t[..i] + t[i + 1..];
      && WellFormed(r)
      && IndexOf(r, t[i].key) < 0
      && (forall k :: k != t[i].key ==> (IndexOf(r, k) >= 0 <==> IndexOf(t, k) >= 0))
      && (forall k :: k != t[i].key && IndexOf(r, k) >= 0 ==> r[IndexOf(r, k)] == t[IndexOf(t, k)])
      && (forall a, b :: 0 <= a < b < |r| ==> IndexOf(t, r[a].key) < IndexOf(t, r[b].key))
  {
    var r := t[..i] + t[i + 1..];
    RemoveAtShape(t, i, r);
    RemoveAtOrder(t, i, r);
    RemoveAtLookup(t, i, r);
    IndexOfIs(r, t[i].key, -1);
  }

  lemma RemoveAtShape<V>(t: Table<V>, i: int, r: Table<V>)
    requires WellFormed(t) && 0 <= i < |t| && r == t[..i] + t[i + 1..]
    ensures |r| == |t| - 1
    ensures forall a :: 0 <= a < |r| ==> r[a] == t[Skip(i, a)]
    ensures WellFormed(r)
    ensures forall a :: 0 <= a < |r| ==> r[a].key != t[i].key
  {
  }

  lemma RemoveAtOrder<V>(t: Table<V>, i: int, r: Table<V>)
    requires WellFormed(t) && 0 <= i < |t| && r == t[..i] + t[i + 1..]
    ensures forall a, b :: 0 <= a < b < |r| ==> IndexOf(t, r[a].key) < IndexOf(t, r[b].key)
  {
    RemoveAtShape(t, i, r);
    forall a | 0 <= a < |r| ensures IndexOf(t, r[a].key) == Skip(i, a) {
      IndexOfEntry(t, Skip(i, a));
    }
  }

  lemma RemoveAtLookup<V>(t: Table<V>, i: int, r: Table<V>)
    requires WellFormed(t) && 0 <= i < |t| && r == t[..i] + t[i + 1..]
    ensures forall k :: k != t[i].key ==> (IndexOf(r, k) >= 0 <==> IndexOf(t, k) >= 0)
    ensures forall k :: k != t[i].key && IndexOf(r, k) >= 0 ==> r[IndexOf(r, k)] == t[IndexOf(t, k)]
  {
    RemoveAtShape(t, i, r);
    forall k | k != t[i].key ensures (IndexOf(r, k) >= 0 <==> IndexOf(t, k) >= 0)
      && (IndexOf(r, k) >= 0 ==> r[IndexOf(r, k)] == t[IndexOf(t, k)])
    {
      var j := IndexOf(t, k);
      if j >= 0 {
        var a := if j < i then j else j - 1;
        assert r[a] == t[j];
        IndexOfIs(r, k, a);
      } else {
        IndexOfIs(r, k, -1);
      }
    }
  }

  /** Position in the table of the entry that sits at position `a` once position `i` is removed. */
  function Skip(i: int, a: int): int {
    if a < i then a else a + 1
  }

  /** `[...t.keys()].pop()`: the key inserted last among those still present. */
  function LastKey<V(==)>(t: Table<V>): (r: Option<string>)
    ensures r.None? <==> t == []
    ensures r.Some? ==> r.value == t[|t| - 1].key
  {
    if t == [] then None else Some(t[|t| - 1].key)
  }

  /** `for (const id of ids) t.delete(id)`: each listed key deleted in turn. */
  function DeleteAll<V(==)>(t: Table<V>, ids: seq<string>): (r: Table<V>)
    requires WellFormed(t)
    ensures WellFormed(r)
    decreases |ids|
  {
    if ids == [] then t else Delete(DeleteAll(t, ids[..|ids| - 1]), ids[|ids| - 1])
  }

  /** After deleting a list of keys, none of them is present and every other key maps to what
      it did before. */
  lemma {:induction false} DeleteAllLookup<V>(t: Table<V>, ids: seq<string>)
    requires WellFormed(t)
    ensures forall k :: k in ids ==> !Has(DeleteAll(t, ids), k)
    ensures forall k :: k !in ids ==> Get(DeleteAll(t, ids), k) == Get(t, k)
    decreases |ids|
  {
    if ids != [] {
      var prefix := ids[..|ids| - 1];
      var last := ids[|ids| - 1];
      DeleteAllLookup(t, prefix);
      DeleteLookup(DeleteAll(t, prefix), last);
      assert forall k :: k in ids ==> k in prefix || k == last;
    }
  }
}
