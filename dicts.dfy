/**
 * Python dictionaries with string keys, as the client builds and rewrites them:
 * an association list in insertion order. Python keeps a dict's keys distinct
 * (`Unique`); the operations below are defined for any list and keep that property.
 */
module Dicts {
  import opened Wrappers

  type Dict<V> = seq<(string, V)>

  function Keys<V>(d: Dict<V>): set<string> {
    if d == [] then {} else {d[0].0} + Keys(d[1..])
  }

  /** A key is in the dict exactly when some entry carries it. */
  lemma {:induction false} KeysAt<V>(d: Dict<V>, k: string)
    ensures k in Keys(d) <==> exists i :: 0 <= i < |d| && d[i].0 == k
  {
    if d != [] {
      KeysAt(d[1..], k);
      if k in Keys(d[1..]) {
        var j :| 0 <= j < |d[1..]| && d[1..][j].0 == k;
        assert d[j + 1].0 == k;
      }
      if exists i :: 0 < i < |d| && d[i].0 == k {
        var i :| 0 < i < |d| && d[i].0 == k;
        assert d[1..][i - 1].0 == k;
      }
    }
  }

  /** Python keeps a dict's keys pairwise distinct. */
  predicate Unique<V>(d: Dict<V>) {
    forall i, j :: 0 <= i < j < |d| ==> d[i].0 != d[j].0
  }

  /** `d.get(k)`: the value stored under `k`, if any. */
  function Lookup<V>(d: Dict<V>, k: string): (r: Option<V>)
    ensures r.Some? <==> k in Keys(d)
    ensures r.Some? ==> (k, r.value) in d
  {
    if d == [] then None
    else
      if d[0].0 == k then Some(d[0].1) else Lookup(d[1..], k)
  }

  /** `d[k] = v`: a present key keeps its position and gets the new value; a new key is appended. */
  function Put<V>(d: Dict<V>, k: string, v: V): Dict<V> {
    if d == [] then [(k, v)]
    else
      if d[0].0 == k then [(k, v)] + d[1..] else [d[0]] + Put(d[1..], k, v)
  }

  /** `del d[k]` (or `d.pop(k)` without its value): every entry under `k` goes, the rest keep their order. */
  function Remove<V>(d: Dict<V>, k: string): Dict<V> {
    if d == [] then []
    else
      if d[0].0 == k then Remove(d[1..], k) else [d[0]] + Remove(d[1..], k)
  }

  /** After `d[k] = v`, `k` is a key and finds `v`, and every other key finds what it found before. */
  lemma {:induction false} PutLookup<V>(d: Dict<V>, k: string, v: V)
    ensures Keys(Put(d, k, v)) == Keys(d) + {k}
    ensures Lookup(Put(d, k, v), k) == Some(v)
    ensures forall k' :: k' != k ==> Lookup(Put(d, k, v), k') == Lookup(d, k')
  {
    if d != [] && d[0].0 != k {
      PutLookup(d[1..], k, v);
    }
  }

  /** After removing `k`, it is no key and finds nothing, and every other key finds what it found before. */
  lemma {:induction false} RemoveLookup<V>(d: Dict<V>, k: string)
    ensures Keys(Remove(d, k)) == Keys(d) - {k}
    ensures Lookup(Remove(d, k), k) == None
    ensures forall k' :: k' != k ==> Lookup(Remove(d, k), k') == Lookup(d, k')
  {
    if d != [] {
      RemoveLookup(d[1..], k);
    }
  }

  /** In a dict with distinct keys, looking up the key of an entry finds that entry's value. */
  lemma {:induction false} LookupEntry<V>(d: Dict<V>, i: nat)
    requires Unique(d) && i < |d|
    ensures Lookup(d, d[i].0) == Some(d[i].1)
  {
    if i > 0 {
      assert d[1..][i - 1] == d[i];
      LookupEntry(d[1..], i - 1);
    }
  }

  /** Assigning an existing key overwrites its entry where it stands. */
  lemma {:induction false} PutExisting<V>(d: Dict<V>, k: string, v: V, i: nat)
    requires i < |d| && d[i].0 == k
    requires forall j :: 0 <= j < i ==> d[j].0 != k
    ensures Put(d, k, v) == d[i := (k, v)]
  {
    if i == 0 {
      assert Put(d, k, v) == [(k, v)] + d[1..];
      assert [(k, v)] + d[1..] == d[0 := (k, v)];
    } else {
      var tail := d[1..];
      PutExisting(tail, k, v, i - 1);
      var r, e := [d[0]] + tail[i - 1 := (k, v)], d[i := (k, v)];
      assert Put(d, k, v) == r;
      forall j | 0 <= j < |d| ensures r[j] == e[j] {
        if j > 0 {
          assert r[j] == tail[i - 1 := (k, v)][j - 1];
        }
      }
      assert r == e;
    }
  }

  /** Assigning a new key appends one entry and leaves the others where they were. */
  lemma {:induction false} PutNew<V>(d: Dict<V>, k: string, v: V)
    requires k !in Keys(d)
    ensures Put(d, k, v) == d + [(k, v)]
  {
    if d != [] {
      PutNew(d[1..], k, v);
      assert [d[0]] + (d[1..] + [(k, v)]) == d + [(k, v)];
    }
  }

  /** Removing a key that is not there changes nothing. */
  lemma {:induction false} RemoveAbsent<V>(d: Dict<V>, k: string)
    requires k !in Keys(d)
    ensures Remove(d, k) == d
  {
    if d != [] {
      RemoveAbsent(d[1..], k);
    }
  }

  /** In a dict with distinct keys, removing a key drops exactly its one entry. */
  lemma {:induction false} RemoveEntry<V>(d: Dict<V>, i: nat)
    requires Unique(d) && i < |d|
    ensures Remove(d, d[i].0) == d[..i] + d[i + 1..]
  {
    var k := d[i].0;
    if i == 0 {
      KeysAt(d[1..], k);
      assert forall j :: 0 <= j < |d[1..]| ==> d[1..][j] == d[j + 1];
      RemoveAbsent(d[1..], k);
    } else {
      RemoveEntry(d[1..], i - 1);
      assert d[1..][i - 1].0 == k;
      assert [d[0]] + (d[1..][..i - 1] + d[1..][i..]) == d[..i] + d[i + 1..];
    }
  }

  lemma {:induction false} PutKeepsUnique<V>(d: Dict<V>, k: string, v: V)
    requires Unique(d)
    ensures Unique(Put(d, k, v))
  {
    KeysAt(d, k);
    if k in Keys(d) {
      var i :| 0 <= i < |d| && d[i].0 == k;
      var i0 := FirstIndex(d, k, i);
      PutExisting(d, k, v, i0);
    } else {
      PutNew(d, k, v);
      assert forall i :: 0 <= i < |d| ==> d[i] in d;
    }
  }

  lemma {:induction false} RemoveKeepsUnique<V>(d: Dict<V>, k: string)
    requires Unique(d)
    ensures Unique(Remove(d, k))
  {
    KeysAt(d, k);
    if k in Keys(d) {
      var i :| 0 <= i < |d| && d[i].0 == k;
      RemoveEntry(d, i);
      var r := d[..i] + d[i + 1..];
      forall a, b | 0 <= a < b < |r| ensures r[a].0 != r[b].0 {
        var a', b' := if a < i then a else a + 1, if b < i then b else b + 1;
        assert r[a] == d[a'] && r[b] == d[b'] && a' < b';
      }
    } else {
      RemoveAbsent(d, k);
    }
  }

  /** The position of the first entry under `k`, given some entry under `k`. */
  lemma FirstIndex<V>(d: Dict<V>, k: string, i: nat) returns (f: nat)
    requires i < |d| && d[i].0 == k
    ensures f <= i && d[f].0 == k
    ensures forall j :: 0 <= j < f ==> d[j].0 != k
  {
    f := 0;
    while d[f].0 != k
      invariant f <= i
      invariant forall j :: 0 <= j < f ==> d[j].0 != k
      decreases i - f
    {
      f := f + 1;
    }
  }
}
