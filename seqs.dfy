/** Array operations the handlers use: `filter`, `find`/`.first()`, and
    lookups in a constant record whose keys keep their insertion order. */
module Seqs {
  import opened Wrappers

  /** `s.filter(p)`. */
  function Filter<T>(p: T -> bool, s: seq<T>): (r: seq<T>)
    ensures |r| <= |s|
    ensures forall x :: x in r ==> x in s && p(x)
    ensures forall x :: x in s && p(x) ==> x in r
  {
    if s == [] then [] else (if p(s[0]) then [s[0]] else []) + Filter(p, s[1..])
  }

  /** The indices from `from` on whose element satisfies `p`, in increasing order. */
  function Positions<T>(p: T -> bool, s: seq<T>, from: nat): (r: seq<nat>)
    requires from <= |s|
    ensures forall k :: 0 <= k < |r| ==> from <= r[k] < |s| && p(s[r[k]])
    ensures forall j, k :: 0 <= j < k < |r| ==> r[j] < r[k]
    ensures forall i :: from <= i < |s| && p(s[i]) ==> i in r
    decreases |s| - from
  {
    if from == |s| then []
    else (if p(s[from]) then [from] else []) + Positions(p, s, from + 1)
  }

  /** `filter` keeps exactly the matching elements, in index order. */
  lemma {:induction false} FilterIsPositions<T>(p: T -> bool, s: seq<T>, from: nat)
    requires from <= |s|
    ensures |Filter(p, s[from..])| == |Positions(p, s, from)|
    ensures forall k :: 0 <= k < |Filter(p, s[from..])| ==> Filter(p, s[from..])[k] == s[Positions(p, s, from)[k]]
    decreases |s| - from
  {
    if from < |s| {
      FilterIsPositions(p, s, from + 1);
      FilterStep(p, s, from);
      if p(s[from]) {
        MatchedCons(s, from, Filter(p, s[from + 1..]), Positions(p, s, from + 1));
      }
    }
  }

  /** One step of `filter` on a suffix. */
  lemma FilterStep<T>(p: T -> bool, s: seq<T>, from: nat)
    requires from < |s|
    ensures Filter(p, s[from..]) == (if p(s[from]) then [s[from]] else []) + Filter(p, s[from + 1..])
  {
    var t := s[from..];
    assert t[0] == s[from] && t[1..] == s[from + 1..];
  }

  /** Elements read through matching indices stay matched when one more
      element and its index are put in front. */
  lemma MatchedCons<T>(s: seq<T>, i: nat, xs: seq<T>, idx: seq<nat>)
    requires i < |s| && |xs| == |idx|
    requires forall k :: 0 <= k < |xs| ==> idx[k] < |s| && xs[k] == s[idx[k]]
    ensures |[s[i]] + xs| == |[i] + idx|
    ensures forall k :: 0 <= k < |xs| + 1 ==> ([s[i]] + xs)[k] == s[([i] + idx)[k]]
  {
  }

  /** Filtering with a predicate that holds everywhere keeps the whole sequence. */
  lemma {:induction false} FilterAll<T>(p: T -> bool, s: seq<T>)
    requires forall k :: 0 <= k < |s| ==> p(s[k])
    ensures Filter(p, s) == s
  {
    if s != [] {
      FilterAll(p, s[1..]);
    }
  }

  /** Filtering with a predicate that holds nowhere leaves nothing. */
  lemma {:induction false} FilterNone<T>(p: T -> bool, s: seq<T>)
    requires forall k :: 0 <= k < |s| ==> !p(s[k])
    ensures Filter(p, s) == []
  {
    if s != [] {
      FilterNone(p, s[1..]);
    }
  }

  /** `s.find(p)` as an index: the first element satisfying `p`. */
  function FindFirst<T>(p: T -> bool, s: seq<T>): (r: Option<nat>)
    ensures r.Some? ==> r.value < |s| && p(s[r.value])
    ensures r.Some? ==> forall k :: 0 <= k < r.value ==> !p(s[k])
    ensures r.None? ==> forall k :: 0 <= k < |s| ==> !p(s[k])
  {
    if s == [] then None
    else if p(s[0]) then Some(0)
    else match FindFirst(p, s[1..])
      case None => None
      case Some(i) => Some(i + 1)
  }

  /** Once a match exists, elements after it never change what is found. */
  lemma FindFirstIgnoresSuffix<T>(p: T -> bool, s: seq<T>, t: seq<T>)
    requires FindFirst(p, s).Some?
    ensures FindFirst(p, s + t) == FindFirst(p, s)
  {
    var i := FindFirst(p, s).value;
    assert (s + t)[i] == s[i];
  }

  /** `Object.keys(table)`. */
  function Keys<V>(table: seq<(string, V)>): (r: seq<string>)
    ensures |r| == |table|
    ensures forall k :: 0 <= k < |table| ==> r[k] == table[k].0
  {
    seq(|table|, k requires 0 <= k < |table| => table[k].0)
  }

  /** `table[key]` on a constant record: the entry stored under `key`, if any. */
  function Lookup<V>(table: seq<(string, V)>, key: string): (r: Option<V>)
    ensures r.Some? <==> key in Keys(table)
    ensures r.Some? ==> (key, r.value) in table
  {
    match FindFirst((e: (string, V)) => e.0 == key, table)
    case None => None
    case Some(i) => Some(table[i].1)
  }

  /** No key occurs twice in the record. */
  predicate DistinctKeys<V>(table: seq<(string, V)>)
  {
    forall i, j :: 0 <= i < j < |table| ==> table[i].0 != table[j].0
  }

  /** With distinct keys, `table[key]` is the entry stored under `key`. */
  lemma LookupDistinct<V>(table: seq<(string, V)>, key: string)
    requires DistinctKeys(table)
    ensures forall v :: (key, v) in table ==> Lookup(table, key) == Some(v)
  {
    forall v | (key, v) in table
      ensures Lookup(table, key) == Some(v)
    {
      var j :| 0 <= j < |table| && table[j] == (key, v);
      var p := (e: (string, V)) => e.0 == key;
      assert p(table[j]);
      var i := FindFirst(p, table).value;
      assert i == j;
    }
  }
}
