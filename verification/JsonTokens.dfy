/** The leaves of canonical JSON are uniquely decodable: numbers, strings, and lists of decodable parts. */
module JsonTokens {
  import opened Text
  import opened Json

  // ---------------------------------------------------------------- numbers

  /** The four shapes of Number::toString. */
  datatype Shape = Whole | Pointed | Small | Scientific

  function ShapeOf(digits: string, n: int): Shape {
    if |digits| <= n <= 21 then Whole else if 0 < n <= 21 then Pointed else if -6 < n <= 0 then Small else Scientific
  }

  predicate Digits(s: string) {
    s != "" && s[0] != '0' && s[|s| - 1] != '0' && forall i :: 0 <= i < |s| ==> IsDigit(s[i])
  }

  function Mantissa(d: string): string
    requires d != ""
  {
    d[..1] + (if |d| == 1 then "" else "." + d[1..])
  }

  lemma MantissaInjective(a: string, b: string)
    requires Digits(a) && Digits(b) && Mantissa(a) == Mantissa(b)
    ensures a == b
  {
    assert Mantissa(a)[0] == a[0] && Mantissa(b)[0] == b[0];
    if |a| > 1 && |b| > 1 {
      assert Mantissa(a)[2..] == a[1..] && Mantissa(b)[2..] == b[1..];
      assert a == [a[0]] + a[1..] && b == [b[0]] + b[1..];
    } else {
      assert |Mantissa(a)| == |Mantissa(b)|;
    }
  }

  lemma ExponentInjective(e: int, f: int)
    requires Exponent(e) == Exponent(f)
    ensures e == f
  {
    var a, b := if e < 0 then -e else e, if f < 0 then -f else f;
    assert Exponent(e)[1] == Exponent(f)[1];
    assert Exponent(e)[2..] == Decimal(a) && Exponent(f)[2..] == Decimal(b);
    DecimalInjective(a, b);
  }

  /** Which shape it is shows in the text: an 'e', a leading zero, a point. */
  lemma ShapeShows(d: string, n: int)
    requires Digits(d)
    ensures var t := Magnitude(d, n);
            && t != "" && ('e' in t <==> ShapeOf(d, n).Scientific?)
            && (!ShapeOf(d, n).Scientific? ==> (t[0] == '0' <==> ShapeOf(d, n).Small?) && ('.' in t <==> !ShapeOf(d, n).Whole?))
  {
    var t := Magnitude(d, n);
    match ShapeOf(d, n)
    case Whole => assert forall i :: 0 <= i < |t| ==> IsDigit(t[i]);
    case Pointed => assert t[n] == '.';
    case Small => assert t[1] == '.';
    case Scientific =>
      ScientificIs(d, n);
      assert t[|Mantissa(d)|] == 'e';
  }

  lemma WholeInjective(a: string, m: nat, b: string, n: nat)
    requires Digits(a) && Digits(b) && m >= |a| && n >= |b|
    requires a + Repeat('0', m - |a|) == b + Repeat('0', n - |b|)
    ensures a == b && m == n
  {
    var t := a + Repeat('0', m - |a|);
    var u := b + Repeat('0', n - |b|);
    assert |t| == m && |u| == n;
    assert forall i :: |a| <= i < m ==> t[i] == '0';
    assert forall i :: |b| <= i < n ==> u[i] == '0';
    assert t[|a| - 1] != '0' && u[|b| - 1] != '0';
    assert t[..|a|] == a && u[..|b|] == b;
  }

  lemma PointedInjective(a: string, m: nat, b: string, n: nat)
    requires Digits(a) && Digits(b) && m < |a| && n < |b|
    requires a[..m] + "." + a[m..] == b[..n] + "." + b[n..]
    ensures a == b && m == n
  {
    CutAt(a[..m], a[m..], b[..n], b[n..], '.');
    assert a == a[..m] + a[m..] && b == b[..n] + b[n..];
  }

  lemma SmallInjective(a: string, m: nat, b: string, n: nat)
    requires Digits(a) && Digits(b)
    requires "0." + Repeat('0', m) + a == "0." + Repeat('0', n) + b
    ensures a == b && m == n
  {
    var t := "0." + Repeat('0', m) + a;
    var u := "0." + Repeat('0', n) + b;
    assert t[2 + m] == a[0] && u[2 + n] == b[0];
    assert forall i :: 2 <= i < 2 + m ==> t[i] == '0';
    assert forall i :: 2 <= i < 2 + n ==> u[i] == '0';
    assert t[2 + m..] == a && u[2 + n..] == b;
  }

  lemma ScientificInjective(a: string, m: int, b: string, n: int)
    requires Digits(a) && Digits(b)
    requires Mantissa(a) + Exponent(m) == Mantissa(b) + Exponent(n)
    ensures a == b && m == n
  {
    var x, y := Exponent(m)[1..], Exponent(n)[1..];
    assert Mantissa(a) + Exponent(m) == Mantissa(a) + ['e'] + x;
    assert Mantissa(b) + Exponent(n) == Mantissa(b) + ['e'] + y;
    CutAt(Mantissa(a), x, Mantissa(b), y, 'e');
    assert Exponent(m) == ['e'] + x && Exponent(n) == ['e'] + y;
    MantissaInjective(a, b);
    ExponentInjective(m, n);
  }

  lemma MagnitudeInjective(a: string, m: int, b: string, n: int)
    requires Digits(a) && Digits(b) && Magnitude(a, m) == Magnitude(b, n)
    ensures a == b && m == n
  {
    ShapeShows(a, m);
    ShapeShows(b, n);
    assert ShapeOf(a, m) == ShapeOf(b, n);
    SameShapeInjective(a, m, b, n);
  }

  lemma SameShapeInjective(a: string, m: int, b: string, n: int)
    requires Digits(a) && Digits(b) && Magnitude(a, m) == Magnitude(b, n) && ShapeOf(a, m) == ShapeOf(b, n)
    ensures a == b && m == n
  {
    match ShapeOf(a, m)
    case Whole => WholeInjective(a, m, b, n);
    case Pointed => PointedInjective(a, m, b, n);
    case Small => SmallInjective(a, -m, b, -n);
    case Scientific =>
      ScientificIs(a, m);
      ScientificIs(b, n);
      ScientificInjective(a, m - 1, b, n - 1);
  }

  lemma ScientificIs(d: string, n: int)
    requires d != "" && ShapeOf(d, n).Scientific?
    ensures Magnitude(d, n) == Mantissa(d) + Exponent(n - 1)
  {
  }

  predicate NumberChar(c: char) { IsDigit(c) || c == '.' || c == 'e' || c == '+' || c == '-' }

  lemma MagnitudeChars(d: string, n: int)
    requires Digits(d)
    ensures var t := Magnitude(d, n);
            t != "" && IsDigit(t[0]) && (forall i :: 0 <= i < |t| ==> NumberChar(t[i])) && t != "0"
  {
    match ShapeOf(d, n)
    case Scientific =>
      ExponentChars(n - 1);
      ScientificIs(d, n);
    case _ =>
  }

  lemma ExponentChars(e: int)
    ensures forall i :: 0 <= i < |Exponent(e)| ==> NumberChar(Exponent(e)[i])
  {
  }

  lemma NumTextChars(x: Number)
    requires ValidNumber(x)
    ensures var t := NumText(x); t != "" && (IsDigit(t[0]) || t[0] == '-') && forall i :: 0 <= i < |t| ==> NumberChar(t[i])
  {
    if x.Finite? { MagnitudeChars(x.digits, x.n); }
  }

  /** Two numbers print alike only if they are the same number, or both zero. */
  lemma NumTextInjective(x: Number, y: Number)
    requires ValidNumber(x) && ValidNumber(y) && NumText(x) == NumText(y)
    ensures x == y || (x.Zero? && y.Zero?)
  {
    if x.Finite? { MagnitudeChars(x.digits, x.n); }
    if y.Finite? { MagnitudeChars(y.digits, y.n); }
    if x.Finite? && y.Finite? {
      var a, b := Magnitude(x.digits, x.n), Magnitude(y.digits, y.n);
      assert x.negative <==> NumText(x)[0] == '-';
      assert y.negative <==> NumText(y)[0] == '-';
      assert x.negative ==> NumText(x)[1..] == a && NumText(y)[1..] == b;
      assert !x.negative ==> NumText(x) == a && NumText(y) == b;
      MagnitudeInjective(x.digits, x.n, y.digits, y.n);
    }
  }

  // ---------------------------------------------------------------- strings

  lemma HexCharInjective(d: nat, e: nat)
    requires d < 16 && e < 16 && HexChar(d) == HexChar(e)
    ensures d == e
  {
    if d < 10 && e < 10 { assert d as char == e as char; }
    else if d >= 10 && e >= 10 { assert (d - 10) as char == (e - 10) as char; }
  }

  lemma ControlInjective(c: char, d: char)
    requires c < ' ' && d < ' '
    requires HexChar(c as int / 16) == HexChar(d as int / 16) && HexChar(c as int % 16) == HexChar(d as int % 16)
    ensures c == d
  {
    HexCharInjective(c as int / 16, d as int / 16);
    HexCharInjective(c as int % 16, d as int % 16);
    assert c as int == d as int;
  }

  /** No escape sequence is a prefix of another, and none starts with the closing quote. */
  lemma EscapeDecodes(c: char, d: char, x: string, y: string)
    requires EscapeChar(c) + x == EscapeChar(d) + y
    ensures c == d && x == y
  {
    var a, b := EscapeChar(c), EscapeChar(d);
    assert a[0] == (a + x)[0] && b[0] == (b + y)[0];
    if a[0] == '\\' {
      assert a[1] == (a + x)[1] && b[1] == (b + y)[1];
      if a[1] == 'u' {
        assert a[4] == (a + x)[4] && b[4] == (b + y)[4];
        assert a[5] == (a + x)[5] && b[5] == (b + y)[5];
        ControlInjective(c, d);
      }
    }
    assert a == b;
    assert (a + x)[|a|..] == x && (b + y)[|b|..] == y;
  }

  lemma EscapeStart(c: char)
    ensures EscapeChar(c) != "" && EscapeChar(c)[0] != '"'
  {
  }

  lemma {:induction false} EscapedDecodes(s: string, t: string, x: string, y: string)
    requires Escape(s) + "\"" + x == Escape(t) + "\"" + y
    ensures s == t && x == y
  {
    EscapedStart(s, x);
    EscapedStart(t, y);
    if s != "" && t != "" {
      var u, w := Escape(s[1..]) + "\"" + x, Escape(t[1..]) + "\"" + y;
      EscapeDecodes(s[0], t[0], u, w);
      EscapedDecodes(s[1..], t[1..], x, y);
      assert s == [s[0]] + s[1..] && t == [t[0]] + t[1..];
    } else {
      assert ("\"" + x)[1..] == x && ("\"" + y)[1..] == y;
    }
  }

  lemma EscapedStart(s: string, x: string)
    ensures var t := Escape(s) + "\"" + x;
            if s == "" then t == "\"" + x && t[0] == '"'
            else t == EscapeChar(s[0]) + (Escape(s[1..]) + "\"" + x) && t != "" && t[0] != '"'
  {
    if s == "" {
      assert Escape(s) + "\"" + x == "\"" + x;
    } else {
      EscapeStart(s[0]);
      Reassociate(EscapeChar(s[0]), Escape(s[1..]), "\"", x);
    }
  }

  /** A quoted string is read back, together with whatever follows it. */
  lemma QuoteDecodes(s: string, t: string, x: string, y: string)
    requires Quote(s) + x == Quote(t) + y
    ensures s == t && x == y
  {
    assert (Quote(s) + x)[1..] == Escape(s) + "\"" + x;
    assert (Quote(t) + y)[1..] == Escape(t) + "\"" + y;
    EscapedDecodes(s, t, x, y);
  }

  // ---------------------------------------------------------------- lists

  /** What may follow a value: nothing, or one of the characters that end it. */
  predicate Follow(r: string) { r == "" || r[0] in [',', ']', '}'] }

  /** Followed by such a character, p and q can only be the same text. */
  ghost predicate Decodes(p: string, q: string) {
    forall r, s :: Follow(r) && Follow(s) && p + r == q + s ==> p == q
  }

  predicate Part(p: string) { p != "" && p[0] !in [',', ']', '}'] }

  /** Two closed lists that read the same have the same first part and the same rest. */
  lemma FirstDecodes(ps: seq<string>, qs: seq<string>, close: char, r: string, s: string)
    requires close in [']', '}'] && ps != [] && qs != [] && Decodes(ps[0], qs[0])
    requires forall i :: 0 <= i < |ps| ==> Part(ps[i])
    requires forall i :: 0 <= i < |qs| ==> Part(qs[i])
    requires Join(ps, ',') + [close] + r == Join(qs, ',') + [close] + s
    ensures ps[0] == qs[0] && RestOf(ps, close, r) == RestOf(qs, close, s)
  {
    StartOf(ps, close, r);
    StartOf(qs, close, s);
    var x, y := RestOf(ps, close, r), RestOf(qs, close, s);
    assert ps[0] == qs[0];
    assert (ps[0] + x)[|ps[0]|..] == x && (qs[0] + y)[|ps[0]|..] == y;
  }

  /** Closed lists that read the same are empty together. */
  lemma EmptyDecodes(ps: seq<string>, qs: seq<string>, close: char, r: string, s: string)
    requires close in [']', '}'] && (ps == [] || qs == [])
    requires forall i :: 0 <= i < |ps| ==> Part(ps[i])
    requires forall i :: 0 <= i < |qs| ==> Part(qs[i])
    requires Join(ps, ',') + [close] + r == Join(qs, ',') + [close] + s
    ensures ps == qs && r == s
  {
    StartOf(ps, close, r);
    StartOf(qs, close, s);
  }

  /** After the same first part, closed lists end together or go on alike. */
  lemma RestDecodes(ps: seq<string>, qs: seq<string>, close: char, r: string, s: string)
    requires close in [']', '}'] && ps != [] && qs != [] && RestOf(ps, close, r) == RestOf(qs, close, s)
    ensures |ps| == 1 <==> |qs| == 1
    ensures if |ps| == 1 then r == s else Join(ps[1..], ',') + [close] + r == Join(qs[1..], ',') + [close] + s
  {
    RestStart(ps, close, r);
    RestStart(qs, close, s);
  }

  lemma SameFirstAndRest(ps: seq<string>, qs: seq<string>)
    requires ps != [] && qs != [] && ps[0] == qs[0] && ps[1..] == qs[1..]
    ensures ps == qs
  {
    assert ps == [ps[0]] + ps[1..] && qs == [qs[0]] + qs[1..];
  }

  /** A comma-separated, closed list of decodable parts gives them all back. */
  lemma {:induction false} ListDecodes(ps: seq<string>, qs: seq<string>, close: char, r: string, s: string)
    requires close in [']', '}']
    requires forall i :: 0 <= i < |ps| ==> Part(ps[i])
    requires forall i :: 0 <= i < |qs| ==> Part(qs[i])
    requires forall i :: 0 <= i < |ps| && i < |qs| ==> Decodes(ps[i], qs[i])
    requires Join(ps, ',') + [close] + r == Join(qs, ',') + [close] + s
    ensures ps == qs && r == s
  {
    if ps == [] || qs == [] {
      EmptyDecodes(ps, qs, close, r, s);
    } else {
      FirstDecodes(ps, qs, close, r, s);
      RestDecodes(ps, qs, close, r, s);
      if |ps| > 1 { ListDecodes(ps[1..], qs[1..], close, r, s); }
      SameFirstAndRest(ps, qs);
    }
  }

  lemma StartOf(ps: seq<string>, close: char, r: string)
    requires close in [']', '}'] && forall i :: 0 <= i < |ps| ==> Part(ps[i])
    ensures var t := Join(ps, ',') + [close] + r;
            if ps == [] then t[0] == close && t[1..] == r
            else t == ps[0] + RestOf(ps, close, r) && Follow(RestOf(ps, close, r)) && Part(ps[0]) && t[0] == ps[0][0]
  {
    if ps != [] { FirstOf(ps, close, r); }
  }

  lemma RestStart(ps: seq<string>, close: char, r: string)
    requires ps != []
    ensures var x := RestOf(ps, close, r);
            if |ps| == 1 then x[0] == close && x[1..] == r else x[0] == ',' && x[1..] == Join(ps[1..], ',') + [close] + r
  {
  }

  /** What follows the first part of a closed list. */
  function RestOf(ps: seq<string>, close: char, r: string): string
    requires ps != []
  {
    if |ps| == 1 then [close] + r else [','] + (Join(ps[1..], ',') + [close] + r)
  }

  lemma FirstOf(ps: seq<string>, close: char, r: string)
    requires ps != [] && close in [']', '}']
    ensures Join(ps, ',') + [close] + r == ps[0] + RestOf(ps, close, r) && Follow(RestOf(ps, close, r))
  {
    if |ps| > 1 {
      Reassociate3(ps[0], [','], Join(ps[1..], ','), [close], r);
    }
  }

  lemma Reassociate3(a: string, b: string, c: string, d: string, e: string)
    ensures a + b + c + d + e == a + (b + (c + d + e))
  {
  }
}
