/** Sorting by a string key, in the order Array.prototype.sort compares strings. */
module Sorting {

  /** Order of characters by UTF-16 code units: supplementary characters sort before U+E000 to U+FFFF. */
  function Rank(c: char): int {
    if c as int < 0xE000 then c as int
    else if c as int >= 0x10000 then c as int - 0x10000 + 0xE000
    else c as int + 0x100000
  }

  /** `a < b` on strings. */
  predicate KeyLess(a: string, b: string) {
    b != "" && (a == "" || Rank(a[0]) < Rank(b[0]) || (a[0] == b[0] && KeyLess(a[1..], b[1..])))
  }

  function Insert<T>(x: T, sorted: seq<T>, key: T -> string): (r: seq<T>)
    ensures multiset(r) == multiset{x} + multiset(sorted)
  {
    if sorted == [] || !KeyLess(key(sorted[0]), key(x)) then [x] + sorted
    else
      assert sorted == [sorted[0]] + sorted[1..];
      [sorted[0]] + Insert(x, sorted[1..], key)
  }

  function Sort<T>(s: seq<T>, key: T -> string): (r: seq<T>)
    ensures multiset(r) == multiset(s)
  {
    if s == [] then []
    else
      assert s == [s[0]] + s[1..];
      Insert(s[0], Sort(s[1..], key), key)
  }

  lemma SortedIn<T>(s: seq<T>, key: T -> string)
    ensures |Sort(s, key)| == |s|
    ensures forall i :: 0 <= i < |s| ==> Sort(s, key)[i] in s
    ensures forall x :: x in s ==> x in Sort(s, key)
  {
    var r := Sort(s, key);
    assert |multiset(r)| == |multiset(s)|;
    forall i | 0 <= i < |r| ensures r[i] in s { assert r[i] in multiset(r); }
    forall x | x in s ensures x in r { assert x in multiset(s); }
  }

  predicate Distinct<T(!new)>(s: seq<T>, key: T -> string) {
    forall i, j :: 0 <= i < j < |s| ==> key(s[i]) != key(s[j])
  }

  // ---------------------------------------------------------------- a strict total order

  lemma RankInjective(c: char, d: char)
    requires Rank(c) == Rank(d)
    ensures c == d
  {
    assert c as int == d as int;
  }

  lemma {:induction false} LessIrreflexive(a: string)
    ensures !KeyLess(a, a)
  {
    if a != "" { LessIrreflexive(a[1..]); }
  }

  lemma {:induction false} LessTransitive(a: string, b: string, c: string)
    requires KeyLess(a, b) && KeyLess(b, c)
    ensures KeyLess(a, c)
  {
    if a != "" && a[0] == b[0] && b[0] == c[0] && KeyLess(a[1..], b[1..]) && KeyLess(b[1..], c[1..]) {
      LessTransitive(a[1..], b[1..], c[1..]);
    }
  }

  lemma {:induction false} LessTotal(a: string, b: string)
    requires a != b
    ensures KeyLess(a, b) || KeyLess(b, a)
  {
    if a != "" && b != "" {
      if a[0] == b[0] {
        assert a == [a[0]] + a[1..] && b == [b[0]] + b[1..];
        LessTotal(a[1..], b[1..]);
      } else if Rank(a[0]) == Rank(b[0]) {
        RankInjective(a[0], b[0]);
      }
    }
  }

  // ---------------------------------------------------------------- sorted lists

  /** No later key is smaller; equal keys may repeat. */
  predicate Ordered<T(!new)>(s: seq<T>, key: T -> string) {
    forall i, j :: 0 <= i < j < |s| ==> !KeyLess(key(s[j]), key(s[i]))
  }

  lemma NotLessTransitive(a: string, b: string, c: string)
    requires !KeyLess(b, a) && !KeyLess(c, b)
    ensures !KeyLess(c, a)
  {
    if KeyLess(c, a) && a != b {
      LessTotal(a, b);
      LessTransitive(c, a, b);
    }
  }

  lemma {:induction false} InsertOrders<T(!new)>(x: T, sorted: seq<T>, key: T -> string)
    requires Ordered(sorted, key)
    ensures Ordered(Insert(x, sorted, key), key)
  {
    if sorted != [] && KeyLess(key(sorted[0]), key(x)) {
      InsertOrders(x, sorted[1..], key);
      var rest := Insert(x, sorted[1..], key);
      forall j | 0 <= j < |rest| ensures !KeyLess(key(rest[j]), key(sorted[0])) {
        assert rest[j] in multiset(rest);
        if rest[j] == x {
          if KeyLess(key(x), key(sorted[0])) { LessTransitive(key(x), key(sorted[0]), key(x)); LessIrreflexive(key(x)); }
        } else {
          assert rest[j] in sorted[1..];
        }
      }
    } else if sorted != [] {
      forall j | 0 < j < |sorted| ensures !KeyLess(key(sorted[j]), key(x)) {
        NotLessTransitive(key(x), key(sorted[0]), key(sorted[j]));
      }
    }
  }

  /** Whatever was there comes out in order, duplicates included. */
  lemma {:induction false} SortOrders<T(!new)>(s: seq<T>, key: T -> string)
    ensures Ordered(Sort(s, key), key)
  {
    if s != [] {
      SortOrders(s[1..], key);
      InsertOrders(s[0], Sort(s[1..], key), key);
    }
  }

  predicate Ascending<T(!new)>(s: seq<T>, key: T -> string) {
    forall i, j :: 0 <= i < j < |s| ==> KeyLess(key(s[i]), key(s[j]))
  }

  lemma {:induction false} InsertAscends<T(!new)>(x: T, sorted: seq<T>, key: T -> string)
    requires Ascending(sorted, key) && forall i :: 0 <= i < |sorted| ==> key(sorted[i]) != key(x)
    ensures Ascending(Insert(x, sorted, key), key)
    ensures forall y :: y in Insert(x, sorted, key) <==> y == x || y in sorted
  {
    if sorted != [] && KeyLess(key(sorted[0]), key(x)) {
      InsertAscends(x, sorted[1..], key);
      var rest := Insert(x, sorted[1..], key);
      forall j | 0 <= j < |rest| ensures KeyLess(key(sorted[0]), key(rest[j])) {
        assert rest[j] in rest;
      }
    } else if sorted != [] {
      LessTotal(key(x), key(sorted[0]));
      forall j | 0 < j < |sorted| ensures KeyLess(key(x), key(sorted[j])) {
        LessTransitive(key(x), key(sorted[0]), key(sorted[j]));
      }
    }
  }

  lemma {:induction false} SortAscends<T(!new)>(s: seq<T>, key: T -> string)
    requires Distinct(s, key)
    ensures Ascending(Sort(s, key), key)
  {
    if s != [] {
      var rest := s[1..];
      SortAscends(rest, key);
      SortedIn(rest, key);
      forall i | 0 <= i < |Sort(rest, key)| ensures key(Sort(rest, key)[i]) != key(s[0]) {
        var k :| 0 <= k < |rest| && rest[k] == Sort(rest, key)[i];
        assert s[k + 1] == rest[k];
      }
      InsertAscends(s[0], Sort(rest, key), key);
    }
  }

  predicate KeyIn<T(!new)>(b: seq<T>, key: T -> string, k: string) { exists j :: 0 <= j < |b| && key(b[j]) == k }

  predicate KeysWithin<T(!new)>(a: seq<T>, b: seq<T>, key: T -> string) {
    forall k :: 0 <= k < |a| ==> KeyIn(b, key, key(a[k]))
  }

  lemma PositionsAscend<T(!new)>(b: seq<T>, key: T -> string, p: nat, j: nat)
    requires Ascending(b, key) && p < |b| && j < |b| && KeyLess(key(b[p]), key(b[j]))
    ensures p < j
  {
    if j <= p {
      if j < p { LessTransitive(key(b[p]), key(b[j]), key(b[p])); }
      LessIrreflexive(key(b[p]));
    }
  }

  lemma {:induction false} NotBefore<T(!new)>(a: seq<T>, b: seq<T>, key: T -> string, i: nat) returns (j: nat)
    requires Ascending(a, key) && Ascending(b, key) && i < |a| && KeysWithin(a, b, key)
    ensures i <= j < |b| && key(b[j]) == key(a[i])
  {
    assert KeyIn(b, key, key(a[i]));
    j :| 0 <= j < |b| && key(b[j]) == key(a[i]);
    if i > 0 {
      var p := NotBefore(a, b, key, i - 1);
      PositionsAscend(b, key, p, j);
    }
  }

  lemma {:induction false} NotAfter<T(!new)>(a: seq<T>, b: seq<T>, key: T -> string, i: nat) returns (j: nat)
    requires Ascending(a, key) && Ascending(b, key) && i < |a| == |b| && KeysWithin(a, b, key)
    ensures j <= i && key(b[j]) == key(a[i])
    decreases |a| - i
  {
    assert KeyIn(b, key, key(a[i]));
    j :| 0 <= j < |b| && key(b[j]) == key(a[i]);
    if i + 1 < |a| {
      var p := NotAfter(a, b, key, i + 1);
      PositionsAscend(b, key, j, p);
    }
  }

  /** Two ascending lists of the same length with the same keys list them in the same order. */
  lemma SameKeyAt<T(!new)>(a: seq<T>, b: seq<T>, key: T -> string, i: nat)
    requires Ascending(a, key) && Ascending(b, key) && i < |a| == |b| && KeysWithin(a, b, key)
    ensures key(a[i]) == key(b[i])
  {
    var lo := NotBefore(a, b, key, i);
    var hi := NotAfter(a, b, key, i);
    if hi < lo { LessIrreflexive(key(b[lo])); }
  }

  /** ORDER INDEPENDENCE. With distinct keys, sorting depends only on which elements there are. */
  lemma SortForgetsOrder<T(!new)>(s: seq<T>, t: seq<T>, key: T -> string)
    requires multiset(s) == multiset(t) && Distinct(s, key)
    ensures Sort(s, key) == Sort(t, key)
  {
    DistinctPermutes(s, t, key);
    SortAscends(s, key);
    SortAscends(t, key);
    var a, b := Sort(s, key), Sort(t, key);
    assert |a| == |multiset(a)| == |multiset(b)| == |b|;
    forall k | 0 <= k < |a| ensures KeyIn(b, key, key(a[k])) && a[k] in b {
      assert a[k] in multiset(a);
      assert a[k] in multiset(b);
      var j :| 0 <= j < |b| && b[j] == a[k];
    }
    forall i | 0 <= i < |a| ensures a[i] == b[i] {
      SameKeyAt(a, b, key, i);
      var j :| 0 <= j < |b| && b[j] == a[i];
      if j != i { LessIrreflexive(key(b[i])); }
    }
  }

  lemma DistinctPermutes<T(!new)>(s: seq<T>, t: seq<T>, key: T -> string)
    requires multiset(s) == multiset(t) && Distinct(s, key)
    ensures Distinct(t, key)
  {
    forall i, j | 0 <= i < j < |t| ensures key(t[i]) != key(t[j]) {
      if key(t[i]) == key(t[j]) {
        assert t[i] in multiset(s) && t[j] in multiset(s);
        assert t[i] in s && t[j] in s;
        TwiceIn(t, i, j);
        OnceIn(s, key, t[i]);
        assert false;
      }
    }
  }

  lemma {:induction false} OnceIn<T(!new)>(s: seq<T>, key: T -> string, x: T)
    requires Distinct(s, key)
    ensures multiset(s)[x] <= 1
  {
    if s != [] {
      assert s == [s[0]] + s[1..];
      OnceIn(s[1..], key, x);
      if s[0] == x { assert x !in s[1..]; }
    }
  }

  lemma TwiceIn<T>(r: seq<T>, i: nat, j: nat)
    requires i < j < |r| && r[i] == r[j]
    ensures multiset(r)[r[i]] >= 2
  {
    var a, b := r[..i + 1], r[i + 1..];
    assert r == a + b;
    assert a[i] == r[i] && b[j - i - 1] == r[i];
    assert r[i] in multiset(a) && r[i] in multiset(b);
  }
}
