/** String helpers with JavaScript's semantics: split, join, trim, lastIndexOf, hex. */
module Text {

  datatype Option<+T> = None | Some(value: T)

  /** `s.filter(p)`. */
  function Filter<T>(s: seq<T>, p: T -> bool): (r: seq<T>)
    ensures forall i :: 0 <= i < |r| ==> r[i] in s && p(r[i])
    ensures forall i :: 0 <= i < |s| && p(s[i]) ==> s[i] in r
  {
    if s == [] then [] else (if p(s[0]) then [s[0]] else []) + Filter(s[1..], p)
  }

  /** `s.map(f)`. */
  function Map<T, U>(s: seq<T>, f: T -> U): (r: seq<U>)
    ensures |r| == |s| && forall i :: 0 <= i < |s| ==> r[i] == f(s[i])
  {
    if s == [] then [] else [f(s[0])] + Map(s[1..], f)
  }

  lemma MapTake<T, U>(s: seq<T>, f: T -> U, i: nat)
    requires i < |s|
    ensures Map(s[..i + 1], f) == Map(s[..i], f) + [f(s[i])]
  {
  }

  /** ASCII unit separator, the byte 0x1f used by the hash preimages. */
  const US: char := '\U{1f}'

  // ---------------------------------------------------------------- split and join

  /** `s.split(d)` for a one-character separator: never empty, every part is free of d. */
  function Split(s: string, d: char): (parts: seq<string>)
    ensures |parts| >= 1
  {
    if s == "" then [""]
    else
      var rest := Split(s[1..], d);
      if s[0] == d then [""] + rest else [[s[0]] + rest[0]] + rest[1..]
  }

  /** `parts.join(d)`. */
  function Join(parts: seq<string>, d: char): string {
    if |parts| == 0 then ""
    else if |parts| == 1 then parts[0]
    else parts[0] + [d] + Join(parts[1..], d)
  }

  /** No part contains the separator. */
  predicate Free(parts: seq<string>, d: char) {
    forall i :: 0 <= i < |parts| ==> d !in parts[i]
  }

  lemma {:induction false} SplitPrefix(a: string, s: string, d: char)
    requires d !in a
    ensures Split(a + s, d) == [a + Split(s, d)[0]] + Split(s, d)[1..]
  {
    if a == "" {
      assert a + s == s;
      assert a + Split(s, d)[0] == Split(s, d)[0];
    } else {
      SplitPrefix(a[1..], s, d);
      assert (a + s)[1..] == a[1..] + s;
      assert [a[0]] + (a[1..] + Split(s, d)[0]) == a + Split(s, d)[0];
    }
  }

  /** Splitting undoes joining as soon as the separator is not inside a part. */
  lemma {:induction false} SplitJoin(parts: seq<string>, d: char)
    requires |parts| >= 1 && Free(parts, d)
    ensures Split(Join(parts, d), d) == parts
  {
    if |parts| == 1 {
      SplitPrefix(parts[0], "", d);
      assert parts[0] + "" == parts[0];
    } else {
      var rest := Join(parts[1..], d);
      SplitJoin(parts[1..], d);
      SplitPrefix(parts[0], [d] + rest, d);
      assert parts[0] + [d] + rest == parts[0] + ([d] + rest);
      assert ([d] + rest)[1..] == rest;
      assert parts[0] + "" == parts[0];
    }
  }

  /** Joining undoes splitting, always. */
  lemma {:induction false} JoinSplit(s: string, d: char)
    ensures Join(Split(s, d), d) == s
  {
    if s != "" {
      JoinSplit(s[1..], d);
      var rest := Split(s[1..], d);
      if s[0] == d {
        assert ([""] + rest)[1..] == rest;
        assert "" + [d] + s[1..] == s;
      } else {
        var all := [[s[0]] + rest[0]] + rest[1..];
        assert all[1..] == rest[1..];
        assert Join(all, d) == [s[0]] + Join(rest, d);
      }
    }
  }

  lemma {:induction false} SplitFree(s: string, d: char)
    ensures Free(Split(s, d), d)
  {
    if s != "" { SplitFree(s[1..], d); }
  }

  lemma {:induction false} JoinSnoc(parts: seq<string>, last: string, d: char)
    requires |parts| >= 1
    ensures Join(parts + [last], d) == Join(parts, d) + [d] + last
  {
    if |parts| == 1 {
      assert (parts + [last])[1..] == [last];
    } else {
      JoinSnoc(parts[1..], last, d);
      assert (parts + [last])[1..] == parts[1..] + [last];
    }
  }

  lemma SplitFirst(a: string, s: string, d: char)
    requires d !in a
    ensures Split(a + [d] + s, d) == [a] + Split(s, d)
  {
    SplitPrefix(a, [d] + s, d);
    assert a + [d] + s == a + ([d] + s);
    assert ([d] + s)[1..] == s;
    assert a + "" == a;
  }

  /** Text before the first separator, and after it, are both determined. */
  lemma CutAt(p: string, x: string, q: string, y: string, d: char)
    requires d !in p && d !in q && p + [d] + x == q + [d] + y
    ensures p == q && x == y
  {
    SplitFirst(p, x, d);
    SplitFirst(q, y, d);
    assert ([p] + Split(x, d))[0] == p && ([q] + Split(y, d))[0] == q;
    assert (p + [d] + x)[|p| + 1..] == x && (q + [d] + y)[|q| + 1..] == y;
  }

  lemma Associate<T>(a: seq<T>, b: seq<T>, c: seq<T>)
    ensures a + (b + c) == a + b + c
  {
  }

  lemma Reassociate(a: string, b: string, c: string, e: string)
    ensures a + b + c + e == a + (b + c + e)
  {
  }

  lemma SplitCons(x: char, s: string, d: char)
    ensures Split([x] + s, d) == if x == d then [""] + Split(s, d) else [[x] + Split(s, d)[0]] + Split(s, d)[1..]
  {
    assert ([x] + s)[1..] == s;
  }

  /** Splitting across a separator splits the two sides. */
  lemma {:induction false} SplitConcat(a: string, s: string, d: char)
    ensures Split(a + [d] + s, d) == Split(a, d) + Split(s, d)
  {
    if a == "" {
      assert a + [d] + s == [d] + s;
      SplitCons(d, s, d);
    } else {
      var x, t := a[0], a[1..];
      SplitConcat(t, s, d);
      Reassociate([x], t, [d], s);
      assert a == [x] + t;
      SplitCons(x, t, d);
      SplitCons(x, t + [d] + s, d);
      PushFront(x, Split(t, d), Split(s, d));
    }
  }

  lemma PushFront(x: char, p: seq<string>, q: seq<string>)
    requires |p| >= 1
    ensures [""] + (p + q) == [""] + p + q
    ensures [[x] + (p + q)[0]] + (p + q)[1..] == [[x] + p[0]] + p[1..] + q
  {
    assert (p + q)[1..] == p[1..] + q;
  }

  /** The leading separator-free parts are read back whatever follows them. */
  lemma SplitAppend(parts: seq<string>, s: string, d: char)
    requires |parts| >= 1 && Free(parts, d)
    ensures Split(Join(parts, d) + [d] + s, d) == parts + Split(s, d)
  {
    SplitConcat(Join(parts, d), s, d);
    SplitJoin(parts, d);
  }

  /** A separator-free list is determined by its joined form, length included. */
  lemma JoinInjective(ps: seq<string>, qs: seq<string>, d: char)
    requires |ps| >= 1 && |qs| >= 1 && Free(ps, d) && Free(qs, d)
    requires Join(ps, d) == Join(qs, d)
    ensures ps == qs
  {
    SplitJoin(ps, d);
    SplitJoin(qs, d);
  }

  /** Joined text splits into at least as many parts, and into no more only if no part held the separator. */
  lemma {:induction false} JoinedParts(parts: seq<string>, d: char)
    requires |parts| >= 1
    ensures |Split(Join(parts, d), d)| >= |parts|
    ensures |Split(Join(parts, d), d)| == |parts| ==> Free(parts, d)
  {
    SplitsIfIn(parts[0], d);
    if |parts| > 1 {
      JoinedParts(parts[1..], d);
      SplitConcat(parts[0], Join(parts[1..], d), d);
      assert Free(parts[1..], d) && d !in parts[0] ==> Free(parts, d) by {
        assert forall i :: 1 <= i < |parts| ==> parts[i] == parts[1..][i - 1];
      }
    }
  }

  lemma {:induction false} SplitsIfIn(s: string, d: char)
    ensures |Split(s, d)| == 1 <==> d !in s
  {
    if s != "" { SplitsIfIn(s[1..], d); }
  }

  // ---------------------------------------------------------------- trimming and searching

  /** The characters removed by String.prototype.trim. */
  predicate IsSpace(c: char) {
    '\t' <= c <= '\r' || c == ' ' || c == '\U{a0}' || c == '\U{1680}' || '\U{2000}' <= c <= '\U{200a}'
    || c == '\U{2028}' || c == '\U{2029}' || c == '\U{202f}' || c == '\U{205f}' || c == '\U{3000}' || c == '\U{feff}'
  }

  predicate NoSpace(s: string) {
    forall i :: 0 <= i < |s| ==> !IsSpace(s[i])
  }

  function TrimStart(s: string): string {
    if s != "" && IsSpace(s[0]) then TrimStart(s[1..]) else s
  }

  function TrimEnd(s: string): string {
    if s != "" && IsSpace(s[|s| - 1]) then TrimEnd(s[..|s| - 1]) else s
  }

  function Trim(s: string): string { TrimEnd(TrimStart(s)) }

  /** Text that starts and ends with a visible character is read back unchanged. */
  lemma TrimKeeps(s: string)
    requires s != "" ==> !IsSpace(s[0]) && !IsSpace(s[|s| - 1])
    ensures Trim(s) == s
  {
  }

  /** `s.lastIndexOf(c)`: -1 when absent. */
  function LastIndexOf(s: string, c: char): (at: int)
    ensures -1 <= at < |s|
    ensures at >= 0 ==> s[at] == c
    ensures forall k :: at < k < |s| ==> s[k] != c
  {
    if s == "" then -1
    else if s[|s| - 1] == c then |s| - 1
    else LastIndexOf(s[..|s| - 1], c)
  }

  predicate StartsWith(s: string, p: string) { p <= s }

  /** The text before the first c, or all of it. */
  function Before(s: string, c: char): (r: string)
    ensures r <= s && c !in r && (|r| < |s| ==> s[|r|] == c)
  {
    if s == "" || s[0] == c then "" else [s[0]] + Before(s[1..], c)
  }

  /** `s.includes(part)`. */
  predicate Contains(s: string, part: string) {
    StartsWith(s, part) || (s != "" && Contains(s[1..], part))
  }

  // ---------------------------------------------------------------- hexadecimal

  predicate HexDigit(c: char) { '0' <= c <= '9' || 'a' <= c <= 'f' }

  predicate Hex(s: string) {
    forall i :: 0 <= i < |s| ==> HexDigit(s[i])
  }

  function LowerChar(c: char): char {
    if 'A' <= c <= 'Z' then c + ' ' else c
  }

  /** ASCII lower-casing, enough for object ids. */
  function Lower(s: string): (r: string)
    ensures |r| == |s|
    ensures forall i :: 0 <= i < |s| ==> r[i] == LowerChar(s[i])
  {
    if s == "" then "" else [LowerChar(s[0])] + Lower(s[1..])
  }

  lemma LowerTwice(s: string)
    ensures Lower(Lower(s)) == Lower(s)
  {
    assert forall i :: 0 <= i < |s| ==> LowerChar(LowerChar(s[i])) == LowerChar(s[i]);
  }

  /** ASCII upper-casing. */
  function Upper(s: string): string {
    if s == "" then "" else [if 'a' <= s[0] <= 'z' then s[0] - ' ' else s[0]] + Upper(s[1..])
  }

  function Repeat(c: char, n: nat): (r: string)
    ensures |r| == n && forall i :: 0 <= i < n ==> r[i] == c
  {
    if n == 0 then "" else [c] + Repeat(c, n - 1)
  }

  // ---------------------------------------------------------------- decimal numerals

  function Decimal(n: nat): (r: string)
    ensures r != "" && forall i :: 0 <= i < |r| ==> '0' <= r[i] <= '9'
  {
    (if n < 10 then "" else Decimal(n / 10)) + [Digit(n % 10)]
  }

  function Digit(d: nat): (r: char)
    requires d < 10
    ensures '0' <= r <= '9'
  {
    d as char + '0'
  }

  lemma DigitInjective(d: nat, e: nat)
    requires d < 10 && e < 10 && Digit(d) == Digit(e)
    ensures d == e
  {
    assert d as char == e as char;
  }

  lemma {:induction false} DecimalInjective(m: nat, n: nat)
    requires Decimal(m) == Decimal(n)
    ensures m == n
  {
    var a, b := Decimal(m), Decimal(n);
    assert a[|a| - 1] == b[|b| - 1] && a[..|a| - 1] == b[..|b| - 1];
    DigitInjective(m % 10, n % 10);
    if m >= 10 && n >= 10 { DecimalInjective(m / 10, n / 10); }
  }
}
