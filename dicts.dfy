/**
  Python's `dict`: a finite association that remembers the order in which
  its keys were first inserted. Iteration (`keys()`, `values()`, `items()`)
  follows that order; overwriting a key keeps its position, deleting it
  drops it, and a key inserted again after deletion goes last.
 */
module Dicts {
  import opened Wrappers

  datatype Dict<K(!new), V> = Dict(keys: seq<K>, items: map<K, V>) {

    /** The keys are pairwise distinct and are exactly the keys of `items`. */
    ghost predicate Valid() {
      && Distinct(keys)
      && (forall k :: k in items <==> k in keys)
    }

    /** `len(d)` */
    function Len(): nat {
      |keys|
    }

    /** `d.get(k)` */
    function Get(k: K): (r: Option<V>)
      ensures r.Some? <==> k in items
    {
      if k in items then Some(items[k]) else None
    }

    /** `d[k] = v`: an existing key keeps its position, a new one goes last. */
    function Put(k: K, v: V): (r: Dict<K, V>)
      ensures Valid() ==> r.Valid()
      ensures Valid() ==> r.Len() == if k in items then Len() else Len() + 1
      ensures r.Get(k) == Some(v)
      ensures forall k' :: k' != k ==> r.Get(k') == Get(k')
      ensures IsPrefix(keys, r.keys)
    {
      Dict(if k in items then keys else keys + [k], items[k := v])
    }

    /** `del d[k]` when `k` is present; the dict itself otherwise. */
    function Remove(k: K): (r: Dict<K, V>)
      ensures Valid() ==> r.Valid()
      ensures Valid() && k in items ==> r.Len() == Len() - 1
      ensures k !in r.items
      ensures forall k' :: k' != k ==> r.Get(k') == Get(k')
      ensures SubSeq(r.keys, keys)
    {
      if k in items then Dict(Without(keys, k), items - {k})
      else SubSeqReflexive(keys); this
    }

    /** `list(d.values())` */
    function Values(): (vs: seq<V>)
      requires Valid()
      ensures |vs| == Len()
      ensures forall i :: 0 <= i < |vs| ==> keys[i] in items && vs[i] == items[keys[i]]
    {
      seq(|keys|, i requires 0 <= i < |keys| => items[keys[i]])
    }

    /** `list(d.items())` */
    function Entries(): (es: seq<(K, V)>)
      requires Valid()
      ensures |es| == Len()
      ensures forall i :: 0 <= i < |es| ==> es[i].0 == keys[i] && keys[i] in items && es[i].1 == items[keys[i]]
    {
      seq(|keys|, i requires 0 <= i < |keys| => (keys[i], items[keys[i]]))
    }

    /** `{k: v for k, v in d.items() if p(v)}` */
    function Filter(p: V -> bool): (r: Dict<K, V>)
      requires Valid()
      ensures r.Valid()
      ensures forall k :: k in r.items <==> k in items && p(items[k])
      ensures forall k :: k in r.items ==> r.items[k] == items[k]
      ensures SubSeq(r.keys, keys)
    {
      Dict(KeepWhere(keys, items, p), map k | k in items && p(items[k]) :: items[k])
    }
  }

  /** `{}` */
  function Empty<K(!new), V>(): (d: Dict<K, V>)
    ensures d.Valid() && d.Len() == 0
  {
    Dict([], map[])
  }

  /** A dict display `{k0: v0, k1: v1, ...}`: a repeated key keeps its first position and its last value. */
  function FromPairs<K(!new), V>(ps: seq<(K, V)>): (d: Dict<K, V>)
    ensures d.Valid()
    ensures d.items.Keys == set p | p in ps :: p.0
  {
    if |ps| == 0 then Empty() else FromPairs(ps[..|ps| - 1]).Put(ps[|ps| - 1].0, ps[|ps| - 1].1)
  }

  /** `d.update(...)` with the keys `ks` (in that order) and their values in `m`. */
  function PutEach<K(!new), V>(d: Dict<K, V>, ks: seq<K>, m: map<K, V>): (r: Dict<K, V>)
    requires forall k :: k in ks ==> k in m
    ensures d.Valid() ==> r.Valid()
    ensures forall k :: k in r.items <==> k in d.items || k in ks
    ensures forall k :: k in ks ==> r.items[k] == m[k]
    ensures forall k :: k in d.items && k !in ks ==> r.items[k] == d.items[k]
    ensures IsPrefix(d.keys, r.keys)
  {
    if |ks| == 0 then d
    else
      var last := ks[|ks| - 1];
      assert forall k :: k in ks[..|ks| - 1] ==> k in ks;
      PutEach(d, ks[..|ks| - 1], m).Put(last, m[last])
  }

  /** Putting one more key after the others. */
  lemma PutEachSnoc<K(!new), V>(d: Dict<K, V>, ks: seq<K>, k: K, m: map<K, V>)
    requires forall k' :: k' in ks ==> k' in m
    requires k in m
    ensures PutEach(d, ks + [k], m) == PutEach(d, ks, m).Put(k, m[k])
  {
    assert (ks + [k])[..|ks|] == ks;
  }

  /** `d.update(other)` */
  function Update<K(!new), V>(d: Dict<K, V>, other: Dict<K, V>): (r: Dict<K, V>)
    requires other.Valid()
    ensures d.Valid() ==> r.Valid()
    ensures r.items == d.items + other.items
    ensures IsPrefix(d.keys, r.keys)
  {
    PutEach(d, other.keys, other.items)
  }

  /** `for k in ks: d.pop(k, None)`, in the order of `ks`. */
  function RemoveEach<K(!new), V>(d: Dict<K, V>, ks: seq<K>): (r: Dict<K, V>)
    ensures d.Valid() ==> r.Valid()
    ensures forall k :: k in r.items <==> k in d.items && k !in ks
    ensures forall k :: k in r.items ==> r.items[k] == d.items[k]
    ensures SubSeq(r.keys, d.keys)
  {
    if |ks| == 0 then SubSeqReflexive(d.keys); d
    else
      var r := RemoveEach(d, ks[..|ks| - 1]).Remove(ks[|ks| - 1]);
      SubSeqTransitive(r.keys, RemoveEach(d, ks[..|ks| - 1]).keys, d.keys);
      assert forall k :: k in ks <==> k in ks[..|ks| - 1] || k == ks[|ks| - 1];
      r
  }

  ghost predicate Distinct<T>(s: seq<T>) {
    forall i, j :: 0 <= i < j < |s| ==> s[i] != s[j]
  }

  predicate IsPrefix<T(==)>(a: seq<T>, b: seq<T>) {
    |a| <= |b| && b[..|a|] == a
  }

  /** `a` is `b` with some elements left out, the rest in their order. */
  ghost predicate SubSeq<T>(a: seq<T>, b: seq<T>)
    decreases |b|
  {
    if |a| == 0 then true
    else if |b| == 0 then false
    else if a[0] == b[0] then SubSeq(a[1..], b[1..])
    else SubSeq(a, b[1..])
  }

  /** `[x for x in s if x != k]` */
  function Without<T(==,!new)>(s: seq<T>, k: T): (r: seq<T>)
    ensures forall x :: x in r <==> x in s && x != k
    ensures Distinct(s) ==> Distinct(r)
    ensures Distinct(s) && k in s ==> |r| == |s| - 1
    ensures k !in s ==> r == s
    ensures SubSeq(r, s)
  {
    if |s| == 0 then []
    else if s[0] == k then
      assert Distinct(s) ==> k !in s[1..];
      Without(s[1..], k)
    else
      var rest := Without(s[1..], k);
      assert Distinct(s) ==> s[0] !in rest;
      [s[0]] + rest
  }

  /** The keys of `ks` whose value in `m` satisfies `p`, in order. */
  function KeepWhere<K(!new), V>(ks: seq<K>, m: map<K, V>, p: V -> bool): (r: seq<K>)
    requires forall k :: k in ks ==> k in m
    ensures forall k :: k in r <==> k in ks && p(m[k])
    ensures Distinct(ks) ==> Distinct(r)
    ensures SubSeq(r, ks)
  {
    if |ks| == 0 then []
    else
      var rest := KeepWhere(ks[1..], m, p);
      if p(m[ks[0]]) then
        assert Distinct(ks) ==> ks[0] !in rest;
        [ks[0]] + rest
      else
        rest
  }

  /** Keeping from a longer key list keeps from its start, then the new key if it qualifies. */
  lemma {:induction false} KeepWhereSnoc<K(!new), V>(ks: seq<K>, k: K, m: map<K, V>, p: V -> bool)
    requires forall x :: x in ks ==> x in m
    requires k in m
    ensures KeepWhere(ks + [k], m, p) == KeepWhere(ks, m, p) + (if p(m[k]) then [k] else [])
  {
    if |ks| != 0 {
      assert (ks + [k])[1..] == ks[1..] + [k];
      KeepWhereSnoc(ks[1..], k, m, p);
    }
  }

  /** `[x for x in s if p(x)]` */
  function Select<T(!new)>(s: seq<T>, p: T -> bool): (r: seq<T>)
    ensures |r| <= |s|
    ensures forall x :: x in r ==> x in s && p(x)
    ensures forall x :: multiset(r)[x] == if p(x) then multiset(s)[x] else 0
    ensures SubSeq(r, s)
  {
    if |s| == 0 then []
    else
      var rest := Select(s[1..], p);
      assert s == [s[0]] + s[1..];
      if p(s[0]) then [s[0]] + rest else rest
  }

  /** Keeping the values that satisfy `p` keeps one per key whose value satisfies it. */
  lemma {:induction false} SelectKeepWhere<K(!new), V(!new)>(ks: seq<K>, vs: seq<V>, m: map<K, V>, p: V -> bool)
    requires forall k :: k in ks ==> k in m
    requires |vs| == |ks| && forall i :: 0 <= i < |ks| ==> vs[i] == m[ks[i]]
    ensures |Select(vs, p)| == |KeepWhere(ks, m, p)|
  {
    if |ks| != 0 {
      SelectKeepWhere(ks[1..], vs[1..], m, p);
    }
  }

  /** `len([v for v in d.values() if p(v)])` is `len({k: v for k, v in d.items() if p(v)})`. */
  lemma SelectValuesCount<K(!new), V(!new)>(d: Dict<K, V>, p: V -> bool)
    requires d.Valid()
    ensures |Select(d.Values(), p)| == d.Filter(p).Len()
  {
    SelectKeepWhere(d.keys, d.Values(), d.items, p);
  }

  lemma {:induction false} SubSeqTransitive<T>(a: seq<T>, b: seq<T>, c: seq<T>)
    requires SubSeq(a, b) && SubSeq(b, c)
    ensures SubSeq(a, c)
    decreases |c|
  {
    if |a| != 0 && |c| != 0 {
      if b[0] == c[0] {
        if a[0] == b[0] {
          SubSeqTransitive(a[1..], b[1..], c[1..]);
        } else {
          SubSeqTransitive(a, b[1..], c[1..]);
        }
      } else {
        SubSeqTransitive(a, b, c[1..]);
        SubSeqCons(a, c);
      }
    }
  }

  lemma {:induction false} SubSeqReflexive<T>(s: seq<T>)
    ensures SubSeq(s, s)
  {
    if |s| != 0 {
      SubSeqReflexive(s[1..]);
    }
  }

  /** Leaving out the first element of the longer sequence as well. */
  lemma {:induction false} SubSeqCons<T>(a: seq<T>, b: seq<T>)
    requires |b| != 0 && SubSeq(a, b[1..])
    ensures SubSeq(a, b)
    decreases |b|, |a|
  {
    if |a| != 0 && a[0] == b[0] {
      SubSeqTail(a, b[1..]);
    }
  }

  lemma {:induction false} SubSeqTail<T>(a: seq<T>, b: seq<T>)
    requires |a| != 0 && SubSeq(a, b)
    ensures SubSeq(a[1..], b)
    decreases |b|, |a|
  {
    if a[0] == b[0] {
      SubSeqCons(a[1..], b);
    } else {
      SubSeqTail(a, b[1..]);
      SubSeqCons(a[1..], b);
    }
  }

  /** A sequence with no repeated element has as many elements as its set. */
  lemma {:induction false} DistinctSize<T>(s: seq<T>)
    requires Distinct(s)
    ensures |set x | x in s| == |s|
  {
    if |s| != 0 {
      DistinctSize(s[1..]);
      assert (set x | x in s) == {s[0]} + (set x | x in s[1..]);
    }
  }

  /** `len(d)` is the number of keys it maps. */
  lemma LenIsSize<K(!new), V>(d: Dict<K, V>)
    requires d.Valid()
    ensures |d.items| == d.Len()
  {
    DistinctSize(d.keys);
    assert d.items.Keys == set x | x in d.keys;
  }

  /** A dict whose keys are all keys of another is no longer than it. */
  lemma LenMonotone<K(!new), V, W>(small: Dict<K, V>, big: Dict<K, W>)
    requires small.Valid() && big.Valid()
    requires forall k :: k in small.items ==> k in big.items
    ensures small.Len() <= big.Len()
  {
    LenIsSize(small);
    LenIsSize(big);
    assert small.items.Keys <= big.items.Keys;
    SubsetSize(small.items.Keys, big.items.Keys);
  }

  lemma SubsetSize<T>(a: set<T>, b: set<T>)
    requires a <= b
    ensures |a| <= |b|
  {
    assert b == a + (b - a);
  }
}
