/** JSON values as JavaScript holds them, and their canonical text. */
module Json {
  import opened Text
  import opened Sorting

  /**
   * A finite JavaScript number: a zero of either sign, or digits d1..dk (no leading or trailing zero)
   * standing for 0.d1..dk * 10^n, the shortest such digits as ECMAScript's Number::toString picks them.
   */
  datatype Number = Zero(negative: bool) | Finite(negative: bool, digits: string, n: int)

  /** Members in insertion order. Undefined and NonFinite are what canonicalJson refuses. */
  datatype Json =
    | Null
    | Bool(b: bool)
    | Num(x: Number)
    | Str(s: string)
    | Arr(items: seq<Json>)
    | Obj(fields: seq<Field>)
    | Undefined
    | NonFinite

  datatype Field = Field(key: string, value: Json)

  // ---------------------------------------------------------------- numbers

  predicate IsDigit(c: char) { '0' <= c <= '9' }

  predicate ValidNumber(x: Number) {
    x.Finite? ==>
      && x.digits != "" && x.digits[0] != '0' && x.digits[|x.digits| - 1] != '0'
      && forall i :: 0 <= i < |x.digits| ==> IsDigit(x.digits[i])
  }

  /** The exponent part, for 10^e. */
  function Exponent(e: int): string {
    ['e', if e < 0 then '-' else '+'] + Decimal(if e < 0 then -e else e)
  }

  /** Number::toString (section 6.1.6.1.20 of ECMA-262) without the sign. */
  function Magnitude(digits: string, n: int): string
    requires digits != ""
  {
    var k := |digits|;
    if k <= n <= 21 then digits + Repeat('0', n - k)
    else if 0 < n <= 21 then digits[..n] + "." + digits[n..]
    else if -6 < n <= 0 then "0." + Repeat('0', -n) + digits
    else digits[..1] + (if k == 1 then "" else "." + digits[1..]) + Exponent(n - 1)
  }

  function NumText(x: Number): string
    requires ValidNumber(x)
  {
    match x
    case Zero(_) => "0"
    case Finite(negative, digits, n) => (if negative then "-" else "") + Magnitude(digits, n)
  }

  // ---------------------------------------------------------------- strings

  function HexChar(d: nat): char
    requires d < 16
  {
    if d < 10 then '0' + d as char else 'a' + (d - 10) as char
  }

  /** QuoteJSONString (section 25.5.2.3 of ECMA-262) for one character. */
  function EscapeChar(c: char): string {
    if c == '"' then "\\\""
    else if c == '\\' then "\\\\"
    else if c == '\U{8}' then "\\b"
    else if c == '\U{c}' then "\\f"
    else if c == '\n' then "\\n"
    else if c == '\r' then "\\r"
    else if c == '\t' then "\\t"
    else if c < ' ' then "\\u00" + [HexChar(c as int / 16), HexChar(c as int % 16)]
    else [c]
  }

  function Escape(s: string): string {
    if s == "" then "" else EscapeChar(s[0]) + Escape(s[1..])
  }

  function Quote(s: string): string { "\"" + Escape(s) + "\"" }

  // ---------------------------------------------------------------- canonical text

  predicate DistinctKeys(fields: seq<Field>) {
    forall i, j :: 0 <= i < j < |fields| ==> fields[i].key != fields[j].key
  }

  function KeyOf(f: Field): string { f.key }

  /** `Object.keys(value).sort()`, with the values along. */
  function SortFields(fields: seq<Field>): seq<Field> { Sort(fields, KeyOf) }

  /** Nothing in the value makes canonicalJson throw, keys are distinct, numbers are numbers. */
  predicate Printable(v: Json) {
    match v
    case Num(x) => ValidNumber(x)
    case Arr(items) => forall i :: 0 <= i < |items| ==> Printable(items[i])
    case Obj(fields) => DistinctKeys(fields) && forall i :: 0 <= i < |fields| ==> Printable(fields[i].value)
    case Undefined => false
    case NonFinite => false
    case _ => true
  }

  function Canon(v: Json): string
    requires Printable(v)
  {
    match v
    case Null => "null"
    case Bool(b) => if b then "true" else "false"
    case Num(x) => NumText(x)
    case Str(s) => Quote(s)
    case Arr(items) => "[" + Join(seq(|items|, i requires 0 <= i < |items| => Canon(items[i])), ',') + "]"
    case Obj(fields) =>
      var sorted := SortFields(fields);
      SortedIn(fields, KeyOf);
      "{" + Join(seq(|sorted|, i requires 0 <= i < |sorted| =>
                   assert sorted[i] in fields; Quote(sorted[i].key) + ":" + Canon(sorted[i].value)), ',') + "}"
  }

  /** What canonicalJson returns, or None where it throws. */
  function CanonicalJson(v: Json): Option<string> {
    if Printable(v) then Some(Canon(v)) else None
  }

  /** Equality of values: objects as unordered maps, both zeros alike. */
  predicate Equiv(v: Json, w: Json)
    decreases v
  {
    match (v, w)
    case (Num(x), Num(y)) => x == y || (x.Zero? && y.Zero?)
    case (Arr(a), Arr(b)) => |a| == |b| && forall i :: 0 <= i < |a| ==> Equiv(a[i], b[i])
    case (Obj(f), Obj(g)) => |f| == |g| && forall i :: 0 <= i < |f| ==> HasMember(g, f[i])
    case _ => v == w
  }

  /** The object with members g has f's key, with an equal value. */
  predicate HasMember(g: seq<Field>, f: Field)
    decreases f
  {
    exists j :: 0 <= j < |g| && f.key == g[j].key && Equiv(f.value, g[j].value)
  }

  // ---------------------------------------------------------------- property access

  /** `v[key]` for a key that is no built-in property: Undefined when there is no such member. */
  function At(v: Json, key: string): Json {
    if !v.Obj? then Undefined else MemberAt(v.fields, key)
  }

  function MemberAt(fields: seq<Field>, key: string): Json {
    if fields == [] then Undefined
    else if fields[0].key == key then fields[0].value
    else MemberAt(fields[1..], key)
  }

  /** `v == null`. */
  predicate Nullish(v: Json) { v.Null? || v.Undefined? }

  predicate TruthyJson(v: Json) {
    match v
    case Bool(b) => b
    case Num(x) => x.Finite?
    case Str(s) => s != ""
    case Arr(_) => true
    case Obj(_) => true
    case _ => false
  }

  /** `===` between values of two parsed documents: distinct objects are never identical. */
  predicate StrictEq(a: Json, b: Json) {
    match (a, b)
    case (Num(x), Num(y)) => x == y || (x.Zero? && y.Zero?)
    case (Arr(_), _) => false
    case (Obj(_), _) => false
    case (NonFinite, _) => false
    case _ => a == b
  }

  lemma {:induction false} MemberAtIs(fields: seq<Field>, i: nat)
    requires i < |fields| && DistinctKeys(fields)
    ensures MemberAt(fields, fields[i].key) == fields[i].value
  {
    if i > 0 { MemberAtIs(fields[1..], i - 1); }
  }

  /** Equal objects agree member by member. */
  lemma EquivAt(v: Json, w: Json, i: nat)
    requires v.Obj? && w.Obj? && Printable(v) && Printable(w) && Equiv(v, w) && i < |v.fields|
    ensures Equiv(v.fields[i].value, At(w, v.fields[i].key))
  {
    assert HasMember(w.fields, v.fields[i]);
    var j :| 0 <= j < |w.fields| && v.fields[i].key == w.fields[j].key && Equiv(v.fields[i].value, w.fields[j].value);
    MemberAtIs(w.fields, j);
  }
}
