/**
 * Insertion-ordered string-keyed dictionaries. A Python `dict` and the single
 * row of a pandas `DataFrame` are both modelled as the sequence of their
 * (key, value) entries in insertion order.
 */
module Dicts {
  import opened Wrappers

  type Dict<V> = seq<(string, V)>

  /** No two positions of `s` hold the same string. */
  predicate Distinct(s: seq<string>) {
    forall i, j :: 0 <= i < j < |s| ==> s[i] != s[j]
  }

  /** The keys in insertion order (`d.keys()`, or a frame's `columns`). */
  function Keys<V>(d: Dict<V>): (ks: seq<string>)
    ensures |ks| == |d|
    ensures forall i :: 0 <= i < |d| ==> ks[i] == d[i].0
  {
    seq(|d|, i requires 0 <= i < |d| => d[i].0)
  }

  /** A dictionary's keys are unique. */
  predicate UniqueKeys<V>(d: Dict<V>) {
    Distinct(Keys(d))
  }

  /** Lookup `d[k]`: the value stored under `k`, or None when `k` is absent. */
  function Get<V>(d: Dict<V>, k: string): (r: Option<V>)
    ensures r.None? <==> k !in Keys(d)
    ensures r.Some? ==> (k, r.value) in d
  {
    if d == [] then None
    else if d[0].0 == k then Some(d[0].1)
    else Get(d[1..], k)
  }

  /** In a dictionary with unique keys, the key at position `i` finds the value at position `i`. */
  lemma {:induction false} GetAt<V>(d: Dict<V>, i: nat)
    requires UniqueKeys(d)
    requires i < |d|
    ensures Get(d, d[i].0) == Some(d[i].1)
  {
    if i > 0 {
      assert Keys(d)[0] != Keys(d)[i];
      assert Keys(d[1..]) == Keys(d)[1..];
      GetAt(d[1..], i - 1);
    }
  }

  /** Looking up in `d + [(k, v)]`: entries of `d` win, then the new entry. */
  lemma {:induction false} GetAppend<V>(d: Dict<V>, k: string, v: V, j: string)
    ensures Get(d + [(k, v)], j) ==
            if j in Keys(d) then Get(d, j) else if j == k then Some(v) else None
  {
    if d != [] {
      assert (d + [(k, v)])[1..] == d[1..] + [(k, v)];
      GetAppend(d[1..], k, v, j);
    }
  }

  /** Overwrites the value of the first entry whose key is `k`, keeping its position. */
  function Replace<V>(d: Dict<V>, k: string, v: V): (r: Dict<V>)
    requires k in Keys(d)
    ensures Keys(r) == Keys(d)
    ensures Get(r, k) == Some(v)
    ensures forall j :: j != k ==> Get(r, j) == Get(d, j)
  {
    if d[0].0 == k then [(k, v)] + d[1..]
    else
      var t := Replace(d[1..], k, v);
      assert ([d[0]] + t)[1..] == t;
      [d[0]] + t
  }

  /**
   * Assignment `d[k] = v` (and `df[k] = v` on a frame): an existing key keeps
   * its position and takes the new value; a new key is appended at the end.
   */
  function Set<V>(d: Dict<V>, k: string, v: V): (r: Dict<V>)
    ensures k in Keys(d) ==> Keys(r) == Keys(d)
    ensures k !in Keys(d) ==> r == d + [(k, v)]
    ensures Get(r, k) == Some(v)
    ensures forall j :: j != k ==> Get(r, j) == Get(d, j)
    ensures UniqueKeys(d) ==> UniqueKeys(r)
  {
    if k in Keys(d) then Replace(d, k, v)
    else
      assert Keys(d + [(k, v)]) == Keys(d) + [k] by { KeysAppend(d, [(k, v)]); }
      forall j ensures Get(d + [(k, v)], j) == if j == k then Some(v) else Get(d, j) {
        GetAppend(d, k, v, j);
      }
      d + [(k, v)]
  }

  /** Setting a key that is not there appends it as the last entry. */
  lemma SetNew<V>(d: Dict<V>, k: string, v: V, ks: seq<string>)
    requires Keys(d) == ks && k !in ks
    ensures Set(d, k, v) == d + [(k, v)]
    ensures Keys(d + [(k, v)]) == ks + [k]
  {
    KeysAppend(d, [(k, v)]);
  }

  /** Appending an entry leaves the keys already present readable as before. */
  lemma Kept<V>(d: Dict<V>, k: string, v: V, j: string)
    requires j in Keys(d)
    ensures Get(d + [(k, v)], j) == Get(d, j)
  {
    GetAppend(d, k, v, j);
  }

  lemma {:induction false} KeysAppend<V>(a: Dict<V>, b: Dict<V>)
    ensures Keys(a + b) == Keys(a) + Keys(b)
  {
    if a != [] {
      assert (a + b)[1..] == a[1..] + b;
      KeysAppend(a[1..], b);
    }
  }

  /** The entries whose key is not listed in `ks`, in their original order (`drop(columns=ks)`). */
  function Drop<V>(d: Dict<V>, ks: seq<string>): Dict<V>
  {
    if d == [] then []
    else if d[0].0 in ks then Drop(d[1..], ks)
    else [d[0]] + Drop(d[1..], ks)
  }

  /** Dropping keys that `d` does not hold leaves `d` as it is. */
  lemma {:induction false} DropNothing<V>(d: Dict<V>, ks: seq<string>)
    requires forall k :: k in ks ==> k !in Keys(d)
    ensures Drop(d, ks) == d
  {
    if d != [] {
      assert Keys(d)[0] == d[0].0;
      assert Keys(d[1..]) == Keys(d)[1..];
      DropNothing(d[1..], ks);
    }
  }

  /** Dropping distributes over concatenation. */
  lemma {:induction false} DropAppend<V>(a: Dict<V>, b: Dict<V>, ks: seq<string>)
    ensures Drop(a + b, ks) == Drop(a, ks) + Drop(b, ks)
  {
    if a != [] {
      assert (a + b)[0] == a[0] && (a + b)[1..] == a[1..] + b;
      DropAppend(a[1..], b, ks);
      if a[0].0 !in ks {
        assert [a[0]] + (Drop(a[1..], ks) + Drop(b, ks)) == ([a[0]] + Drop(a[1..], ks)) + Drop(b, ks);
      }
    } else {
      assert a + b == b;
    }
  }

  /** After dropping the keys `ks`, those keys are gone and every other key reads as before. */
  lemma {:induction false} DropGet<V>(d: Dict<V>, ks: seq<string>, k: string)
    ensures Get(Drop(d, ks), k) == if k in ks then None else Get(d, k)
  {
    if d != [] {
      DropGet(d[1..], ks, k);
      if d[0].0 !in ks {
        var rest := Drop(d[1..], ks);
        assert ([d[0]] + rest)[0] == d[0] && ([d[0]] + rest)[1..] == rest;
      }
    }
  }

  /** Lookup in a concatenation: the first part wins. */
  lemma {:induction false} GetAppendAll<V>(a: Dict<V>, b: Dict<V>, k: string)
    ensures Get(a + b, k) == if k in Keys(a) then Get(a, k) else Get(b, k)
  {
    if a != [] {
      assert (a + b)[0] == a[0] && (a + b)[1..] == a[1..] + b;
      GetAppendAll(a[1..], b, k);
    } else {
      assert a + b == b;
    }
  }
}
