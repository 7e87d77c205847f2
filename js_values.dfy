/** The JavaScript values the reconciler works on: a value that may be `undefined`,
    an operation that returns or throws, plain objects, and the string helpers the
    source relies on (`Array.prototype.join`, `String.prototype.split`, the rendering
    of integers in template strings). */
module JsValues {

  /** A value that may be `undefined`. */
  datatype Option<+T> = None | Some(value: T)

  /** The outcome of a call that either returns a value or throws an error. */
  datatype Result<+T, +E> = Ok(value: T) | Err(error: E)

  /** A string is truthy in JavaScript exactly when it is not empty. */
  predicate Truthy(s: Option<string>) {
    s.Some? && s.value != ""
  }

  /** The keys of an association list are pairwise distinct, as the keys of an object are. */
  predicate DistinctKeys<V>(s: seq<(string, V)>) {
    forall i, j :: 0 <= i < j < |s| ==> s[i].0 != s[j].0
  }

  /** A plain object: its own enumerable entries, in `Object.keys` order. */
  type Obj<V> = s: seq<(string, V)> | DistinctKeys(s)

  /** The set of keys of an association list. */
  function KeySet<V>(s: seq<(string, V)>): set<string> {
    if s == [] then {} else {s[0].0} + KeySet(s[1..])
  }

  /** `Object.keys(o)`. */
  function Keys<V>(s: seq<(string, V)>): (r: seq<string>)
    ensures |r| == |s|
    ensures forall i | 0 <= i < |s| :: r[i] == s[i].0
  {
    if s == [] then [] else [s[0].0] + Keys(s[1..])
  }

  /** Property access `o[k]`: the value stored under `k`, or `undefined`. */
  function Get<V>(s: seq<(string, V)>, k: string): (r: Option<V>)
    ensures r.None? <==> k !in KeySet(s)
    ensures r.Some? ==> (k, r.value) in s
  {
    if s == [] then None else if s[0].0 == k then Some(s[0].1) else Get(s[1..], k)
  }

  lemma {:induction false} KeySetMembers<V>(s: seq<(string, V)>, k: string)
    ensures k in KeySet(s) <==> exists i :: 0 <= i < |s| && s[i].0 == k
  {
    if s != [] {
      KeySetMembers(s[1..], k);
      if k in KeySet(s[1..]) {
        var i :| 0 <= i < |s[1..]| && s[1..][i].0 == k;
        assert s[i + 1].0 == k;
      }
      forall i | 0 < i < |s| && s[i].0 == k ensures k in KeySet(s[1..]) {
        assert s[1..][i - 1].0 == k;
      }
    }
  }

  lemma KeySetHas<V>(s: seq<(string, V)>, i: int)
    requires 0 <= i < |s|
    ensures s[i].0 in KeySet(s)
  {
    KeySetMembers(s, s[i].0);
  }

  lemma KeySetOfEntry<V>(s: seq<(string, V)>, e: (string, V))
    requires e in s
    ensures e.0 in KeySet(s)
  {
    var i :| 0 <= i < |s| && s[i] == e;
    KeySetHas(s, i);
  }

  /** In an object, the value found under the key of an entry is that entry's value. */
  lemma {:induction false} GetEntry<V>(s: seq<(string, V)>, k: string, v: V)
    requires DistinctKeys(s)
    requires (k, v) in s
    ensures Get(s, k) == Some(v)
  {
    if s[0] != (k, v) {
      assert (k, v) in s[1..];
      GetEntry(s[1..], k, v);
    }
  }

  lemma {:induction false} KeySetAppend<V>(a: seq<(string, V)>, b: seq<(string, V)>)
    ensures KeySet(a + b) == KeySet(a) + KeySet(b)
  {
    if a != [] {
      assert (a + b)[1..] == a[1..] + b;
      KeySetAppend(a[1..], b);
    } else {
      assert a + b == b;
    }
  }

  /** Looking a key up in a concatenation looks in the first part, then the second. */
  lemma {:induction false} GetAppend<V>(a: seq<(string, V)>, b: seq<(string, V)>, k: string)
    ensures Get(a + b, k) == if k in KeySet(a) then Get(a, k) else Get(b, k)
  {
    if a != [] {
      assert (a + b)[1..] == a[1..] + b;
      GetAppend(a[1..], b, k);
    } else {
      assert a + b == b;
    }
  }

  /** Object equality that ignores the order of keys, as `lodash.isequal` does for objects
      whose values compare with `==`. */
  predicate SameEntries<V(==)>(a: seq<(string, V)>, b: seq<(string, V)>) {
    KeySet(a) == KeySet(b) && forall k | k in KeySet(a) :: Get(a, k) == Get(b, k)
  }

  lemma SameEntriesReflexive<V>(a: seq<(string, V)>)
    ensures SameEntries(a, a)
  {
  }

  /** The entries of `s` whose key is not in `omissions`, in order. */
  function Without<V>(s: seq<(string, V)>, omissions: seq<string>): seq<(string, V)> {
    if s == [] then []
    else (if s[0].0 in omissions then [] else [s[0]]) + Without(s[1..], omissions)
  }

  /** Copying the entries of `s` one by one, dropping omitted keys, extends the copy of
      the shorter list by the last entry unless its key is omitted. */
  lemma {:induction false} WithoutSnoc<V>(s: seq<(string, V)>, x: (string, V), omissions: seq<string>)
    ensures Without(s + [x], omissions) == Without(s, omissions) + (if x.0 in omissions then [] else [x])
  {
    if s != [] {
      assert (s + [x])[1..] == s[1..] + [x];
      WithoutSnoc(s[1..], x, omissions);
    } else {
      assert [x][1..] == [];
    }
  }

  /** Removing keys keeps an object's keys distinct (it only drops entries), and a key
      reads as before unless it was removed. */
  lemma {:induction false} WithoutGet<V>(s: seq<(string, V)>, omissions: seq<string>, k: string)
    requires DistinctKeys(s)
    ensures DistinctKeys(Without(s, omissions))
    ensures KeySet(Without(s, omissions)) == KeySet(s) - set o | o in omissions
    ensures Get(Without(s, omissions), k) == if k in omissions then None else Get(s, k)
  {
    if s != [] {
      WithoutGet(s[1..], omissions, k);
      var rest := Without(s[1..], omissions);
      assert s[0].0 !in KeySet(s[1..]) by {
        KeySetMembers(s[1..], s[0].0);
      }
      if s[0].0 !in omissions {
        assert Without(s, omissions) == [s[0]] + rest;
        forall i, j | 0 <= i < j < |[s[0]] + rest| ensures ([s[0]] + rest)[i].0 != ([s[0]] + rest)[j].0 {
          if i == 0 {
            KeySetHas(rest, j - 1);
          }
        }
      } else {
        assert Without(s, omissions) == rest;
      }
    }
  }

  // ---------------------------------------------------------------------------
  // Sequences built element by element

  /** The blocks `f(t)` for the elements `t` of `s`, concatenated in order: what a
      `forEach` loop that pushes zero or more items per element leaves behind. */
  function FlatMap<T, U>(s: seq<T>, f: T -> seq<U>): seq<U> {
    if s == [] then [] else FlatMap(s[..|s| - 1], f) + f(s[|s| - 1])
  }

  /** An item is produced exactly when some element's block holds it. */
  lemma {:induction false} FlatMapMembers<T, U>(s: seq<T>, f: T -> seq<U>, x: U)
    ensures x in FlatMap(s, f) <==> exists t :: t in s && x in f(t)
  {
    if s != [] {
      var init, last := s[..|s| - 1], s[|s| - 1];
      assert s == init + [last];
      FlatMapMembers(init, f, x);
      if x in FlatMap(s, f) && x in FlatMap(init, f) {
        var t :| t in init && x in f(t);
        assert t in s;
      }
      if t :| t in s && x in f(t) {
        if t !in init {
          assert t == last;
        }
      }
    }
  }

  /** No element contributes, so nothing is produced. */
  lemma FlatMapNone<T, U>(s: seq<T>, f: T -> seq<U>)
    requires forall t | t in s :: f(t) == []
    ensures FlatMap(s, f) == []
  {
    if FlatMap(s, f) != [] {
      FlatMapMembers(s, f, FlatMap(s, f)[0]);
    }
  }

  /** Nothing is produced exactly when no element contributes. */
  lemma FlatMapEmpty<T, U>(s: seq<T>, f: T -> seq<U>)
    ensures FlatMap(s, f) == [] <==> forall t | t in s :: f(t) == []
  {
    if FlatMap(s, f) == [] {
      forall t | t in s ensures f(t) == [] {
        if f(t) != [] {
          FlatMapMembers(s, f, f(t)[0]);
        }
      }
    } else {
      FlatMapMembers(s, f, FlatMap(s, f)[0]);
    }
  }

  /** Looping over one more element appends that element's block. */
  lemma FlatMapSnoc<T, U>(s: seq<T>, i: int, f: T -> seq<U>)
    requires 0 <= i < |s|
    ensures FlatMap(s[..i + 1], f) == FlatMap(s[..i], f) + f(s[i])
  {
    assert s[..i + 1][..i] == s[..i];
  }

  /** `arrs[0].concat(...arrs.slice(1))`, and `[]` for no lists: the lists one after
      another. */
  function Flatten<T>(arrs: seq<seq<T>>): seq<T> {
    if |arrs| == 0 then [] else arrs[0] + Flatten(arrs[1..])
  }

  /** Flattening two runs of lists one after the other gives their flattenings in the
      same order. */
  lemma {:induction false} FlattenAppend<T>(a: seq<seq<T>>, b: seq<seq<T>>)
    ensures Flatten(a + b) == Flatten(a) + Flatten(b)
  {
    if a != [] {
      assert (a + b)[1..] == a[1..] + b;
      FlattenAppend(a[1..], b);
    } else {
      assert a + b == b;
    }
  }

  /** An item is in the flattening exactly when it is in one of the lists. */
  lemma {:induction false} FlattenMembers<T>(arrs: seq<seq<T>>, x: T)
    ensures x in Flatten(arrs) <==> exists i :: 0 <= i < |arrs| && x in arrs[i]
  {
    if arrs != [] {
      FlattenMembers(arrs[1..], x);
      if exists i :: 0 <= i < |arrs| && x in arrs[i] {
        var i :| 0 <= i < |arrs| && x in arrs[i];
        if i > 0 {
          assert x in arrs[1..][i - 1];
        }
      }
      if x in Flatten(arrs[1..]) {
        var i :| 0 <= i < |arrs[1..]| && x in arrs[1..][i];
        assert x in arrs[i + 1];
      }
    }
  }

  /** `flatten(s.map(f))` */
  function FlattenMap<T, U>(s: seq<T>, f: T -> seq<U>): seq<U> {
    Flatten(seq(|s|, i requires 0 <= i < |s| => f(s[i])))
  }

  /** Mapping each element to a list and flattening is what a loop pushing each
      element's list leaves behind. */
  lemma {:induction false} FlattenMapIsFlatMap<T, U>(s: seq<T>, f: T -> seq<U>)
    ensures FlattenMap(s, f) == FlatMap(s, f)
  {
    if s != [] {
      var init, last := s[..|s| - 1], s[|s| - 1];
      var lists := seq(|s|, i requires 0 <= i < |s| => f(s[i]));
      var initLists := seq(|init|, i requires 0 <= i < |init| => f(init[i]));
      assert lists == initLists + [f(last)];
      FlattenAppend(initLists, [f(last)]);
      assert Flatten([f(last)]) == f(last) + Flatten<U>([]);
      FlattenMapIsFlatMap(init, f);
    }
  }

  /** The blocks of a run of elements followed by another are the first run's blocks
      followed by the second's. */
  lemma {:induction false} FlatMapAppend<T, U>(a: seq<T>, b: seq<T>, f: T -> seq<U>)
    ensures FlatMap(a + b, f) == FlatMap(a, f) + FlatMap(b, f)
  {
    if b == [] {
      assert a + b == a;
    } else {
      var init := b[..|b| - 1];
      assert a + b == (a + init) + [b[|b| - 1]];
      assert (a + b)[..|a + b| - 1] == a + init;
      FlatMapAppend(a, init, f);
    }
  }

  /** Flattening keeps the order of the elements, and an item is produced exactly when
      it is in the list of one of the elements. */
  lemma FlattenMapOrder<T, U>(a: seq<T>, b: seq<T>, f: T -> seq<U>, x: U)
    ensures FlattenMap(a + b, f) == FlattenMap(a, f) + FlattenMap(b, f)
    ensures x in FlattenMap(a, f) <==> exists t :: t in a && x in f(t)
  {
    FlattenMapIsFlatMap(a, f);
    FlattenMapIsFlatMap(b, f);
    FlattenMapIsFlatMap(a + b, f);
    FlatMapAppend(a, b, f);
    FlatMapMembers(a, f, x);
  }

  /** The first element satisfying `p`, found by a loop that stops there. */
  function FirstWhere<T>(s: seq<T>, p: T -> bool): (r: Option<T>)
    ensures r.None? <==> forall i | 0 <= i < |s| :: !p(s[i])
    ensures r.Some? ==> exists i | 0 <= i < |s| :: s[i] == r.value && p(s[i]) && forall j | 0 <= j < i :: !p(s[j])
  {
    if s == [] then None
    else if p(s[0]) then Some(s[0])
    else
      var r := FirstWhere(s[1..], p);
      assert forall i | 1 <= i < |s| :: s[i] == s[1..][i - 1];
      r
  }

  // ---------------------------------------------------------------------------
  // Lists ordered by a rank

  /** Every element of `s` has a rank between `lo` and `hi`. */
  predicate RanksWithin<T(==)>(s: seq<T>, rank: T -> nat, lo: nat, hi: nat) {
    forall x | x in s :: lo <= rank(x) <= hi
  }

  /** The ranks never decrease along `s`. */
  predicate SortedBy<T>(s: seq<T>, rank: T -> nat) {
    forall i, j | 0 <= i < j < |s| :: rank(s[i]) <= rank(s[j])
  }

  /** A list whose elements all have the same rank is sorted. */
  lemma SortedBySingleRank<T>(s: seq<T>, rank: T -> nat, k: nat)
    requires RanksWithin(s, rank, k, k)
    ensures SortedBy(s, rank)
  {
    forall i, j | 0 <= i < j < |s| ensures rank(s[i]) <= rank(s[j]) {
      assert s[i] in s && s[j] in s;
    }
  }

  /** Appending a sorted list of ranks at or above `k` to a sorted list of ranks at or
      below `k` gives a sorted list. */
  lemma SortedByAppend<T>(a: seq<T>, b: seq<T>, rank: T -> nat, lo: nat, k: nat, hi: nat)
    requires lo <= k <= hi
    requires SortedBy(a, rank) && RanksWithin(a, rank, lo, k)
    requires SortedBy(b, rank) && RanksWithin(b, rank, k, hi)
    ensures SortedBy(a + b, rank) && RanksWithin(a + b, rank, lo, hi)
  {
    forall i, j | 0 <= i < j < |a + b| ensures rank((a + b)[i]) <= rank((a + b)[j]) {
      if j < |a| {
        assert (a + b)[i] == a[i] && (a + b)[j] == a[j];
      } else if i < |a| {
        assert (a + b)[i] == a[i] && a[i] in a;
        assert (a + b)[j] == b[j - |a|] && b[j - |a|] in b;
      } else {
        assert (a + b)[i] == b[i - |a|] && (a + b)[j] == b[j - |a|];
      }
    }
  }

  /** In a sorted list, an element of lower rank comes before one of higher rank. */
  lemma SortedByOrder<T>(s: seq<T>, rank: T -> nat, i: int, j: int)
    requires SortedBy(s, rank)
    requires 0 <= i < |s| && 0 <= j < |s|
    requires rank(s[i]) < rank(s[j])
    ensures i < j
  {
  }

  /** Every occurrence of `a` in `s` comes before every occurrence of `b`. */
  predicate Precedes<T(==)>(s: seq<T>, a: T, b: T) {
    forall i, j | 0 <= i < |s| && 0 <= j < |s| && s[i] == a && s[j] == b :: i < j
  }

  lemma SortedByPrecedes<T>(s: seq<T>, rank: T -> nat, a: T, b: T)
    requires SortedBy(s, rank)
    requires rank(a) < rank(b)
    ensures Precedes(s, a, b)
  {
    forall i, j | 0 <= i < |s| && 0 <= j < |s| && s[i] == a && s[j] == b ensures i < j {
      SortedByOrder(s, rank, i, j);
    }
  }

  // ---------------------------------------------------------------------------
  // Strings

  /** `parts.join(sep)`. */
  function Join(parts: seq<string>, sep: string): string {
    if |parts| == 0 then ""
    else if |parts| == 1 then parts[0]
    else parts[0] + sep + Join(parts[1..], sep)
  }

  lemma JoinCons(first: string, rest: seq<string>, sep: string)
    requires |rest| >= 1
    ensures Join([first] + rest, sep) == first + sep + Join(rest, sep)
  {
    assert ([first] + rest)[1..] == rest;
  }

  /** The position of the first occurrence of `c` in `s`. */
  function IndexOf(s: string, c: char): (i: nat)
    requires c in s
    ensures i < |s| && s[i] == c && c !in s[..i]
  {
    if s[0] == c then 0 else 1 + IndexOf(s[1..], c)
  }

  /** `s.split(c)` for a one-character separator. */
  function Split(s: string, c: char): (parts: seq<string>)
    ensures |parts| >= 1
    decreases |s|
  {
    if c in s then
      var i := IndexOf(s, c);
      [s[..i]] + Split(s[i + 1..], c)
    else
      [s]
  }

  /** Splitting a joined list at its separator gives the list back, when no part holds
      the separator. */
  lemma {:induction false} SplitJoin(parts: seq<string>, c: char)
    requires |parts| >= 1
    requires forall p | p in parts :: c !in p
    ensures Split(Join(parts, [c]), c) == parts
  {
    if |parts| > 1 {
      var s := Join(parts, [c]);
      var rest := Join(parts[1..], [c]);
      assert s == parts[0] + [c] + rest;
      assert s[|parts[0]|] == c;
      var i := IndexOf(s, c);
      assert parts[0] in parts;
      forall j | 0 <= j < |parts[0]| ensures s[j] != c {
        assert s[j] == parts[0][j] && parts[0][j] in parts[0];
      }
      assert i == |parts[0]|;
      assert s[..i] == parts[0];
      assert s[i + 1..] == rest;
      SplitJoin(parts[1..], c);
      assert parts == [parts[0]] + parts[1..];
    }
  }

  /** The decimal digit for `d`. */
  function Digit(d: int): char
    requires 0 <= d < 10
  {
    "0123456789"[d]
  }

  /** The decimal rendering of a natural number. */
  function NatToDecimal(n: nat): (s: string)
    ensures |s| >= 1
    ensures forall c | c in s :: '0' <= c <= '9'
  {
    if n < 10 then [Digit(n)] else NatToDecimal(n / 10) + [Digit(n % 10)]
  }

  /** The rendering of an integer in a template string or by `JSON.stringify`. */
  function IntToDecimal(n: int): string {
    if n < 0 then "-" + NatToDecimal(-n) else NatToDecimal(n)
  }

  /** Prefix test. */
  predicate StartsWith(s: string, prefix: string) {
    |prefix| <= |s| && s[..|prefix|] == prefix
  }

  /** Two strings that start with the same string but differ after it are different. */
  lemma PrefixCancel(p: string, a: string, b: string)
    requires p + a == p + b
    ensures a == b
  {
    assert a == (p + a)[|p|..];
    assert b == (p + b)[|p|..];
  }

  /** A string starting with `prefix` still does after more is appended. */
  lemma StartsWithAppend(s: string, prefix: string, tail: string)
    requires StartsWith(s, prefix)
    ensures StartsWith(s + tail, prefix)
  {
    assert (s + tail)[..|prefix|] == s[..|prefix|];
  }

  /** Two strings that end with the same string and are equal agree before it. */
  lemma SuffixCancel(a: string, b: string, q: string)
    requires a + q == b + q
    ensures a == b
  {
    assert a == (a + q)[..|a|];
    assert |a| == |b|;
    assert b == (b + q)[..|b|];
  }
}
