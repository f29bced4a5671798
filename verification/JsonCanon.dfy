/** canonicalJson is uniquely decodable and blind to member order. */
module JsonCanon {
  import opened Text
  import opened Sorting
  import opened Json
  import opened JsonTokens

  // ---------------------------------------------------------------- the texts of the parts

  function ItemTexts(items: seq<Json>): (ps: seq<string>)
    requires Printable(Arr(items))
    ensures |ps| == |items| && forall i :: 0 <= i < |items| ==> ps[i] == Canon(items[i])
  {
    seq(|items|, i requires 0 <= i < |items| => Canon(items[i]))
  }

  function MemberText(f: Field): string
    requires Printable(f.value)
  {
    Quote(f.key) + ":" + Canon(f.value)
  }

  /** Sorting keeps the members: same fields, distinct keys, still printable. */
  lemma SortedFacts(fields: seq<Field>)
    requires Printable(Obj(fields))
    ensures var r := SortFields(fields);
            && |r| == |fields| && DistinctKeys(r)
            && (forall i :: 0 <= i < |r| ==> r[i] in fields && Printable(r[i].value))
            && (forall f :: f in fields ==> f in r)
  {
    SortedIn(fields, KeyOf);
    var r := SortFields(fields);
    DistinctPermutes(fields, r, KeyOf);
    forall i | 0 <= i < |r| ensures Printable(r[i].value) {
      var k :| 0 <= k < |fields| && fields[k] == r[i];
    }
  }

  function MemberTexts(fields: seq<Field>): (ps: seq<string>)
    requires Printable(Obj(fields))
    ensures var r := SortFields(fields);
            |ps| == |r| && forall i :: 0 <= i < |r| ==> Printable(r[i].value) && ps[i] == MemberText(r[i])
  {
    SortedFacts(fields);
    var r := SortFields(fields);
    seq(|r|, i requires 0 <= i < |r| => MemberText(r[i]))
  }

  lemma CanonIs(v: Json)
    requires Printable(v)
    ensures v.Arr? ==> Canon(v) == "[" + Join(ItemTexts(v.items), ',') + "]"
    ensures v.Obj? ==> Canon(v) == "{" + Join(MemberTexts(v.fields), ',') + "}"
  {
    if v.Arr? {
      assert ItemTexts(v.items) == seq(|v.items|, i requires 0 <= i < |v.items| => Canon(v.items[i]));
    } else if v.Obj? {
      SortedFacts(v.fields);
      var sorted := SortFields(v.fields);
      var parts := seq(|sorted|, i requires 0 <= i < |sorted| =>
                     assert sorted[i] in v.fields; Quote(sorted[i].key) + ":" + Canon(sorted[i].value));
      assert MemberTexts(v.fields) == parts;
    }
  }

  // ---------------------------------------------------------------- prefix lemma

  /** The first character tells the kind of value, and is never one that may follow a value. */
  function Opening(v: Json): set<char> {
    match v
    case Null => {'n'}
    case Bool(b) => if b then {'t'} else {'f'}
    case Num(_) => {'-', '0', '1', '2', '3', '4', '5', '6', '7', '8', '9'}
    case Str(_) => {'"'}
    case Arr(_) => {'['}
    case Obj(_) => {'{'}
    case _ => {}
  }

  lemma Opens(v: Json)
    requires Printable(v)
    ensures Canon(v) != "" && Canon(v)[0] in Opening(v) && Part(Canon(v))
  {
    CanonIs(v);
    if v.Num? { NumTextChars(v.x); }
  }

  lemma SameKind(v: Json, w: Json, c: char)
    requires c in Opening(v) && c in Opening(w)
    ensures v.Num? == w.Num? && v.Str? == w.Str? && v.Arr? == w.Arr? && v.Obj? == w.Obj?
    ensures v.Null? || v.Bool? ==> v == w
  {
  }

  /** Numbers end where their characters end. */
  lemma NumberDecodes(x: Number, y: Number, r: string, s: string)
    requires ValidNumber(x) && ValidNumber(y) && Follow(r) && Follow(s) && NumText(x) + r == NumText(y) + s
    ensures NumText(x) == NumText(y)
  {
    NumTextChars(x);
    NumTextChars(y);
    Munch(NumText(x), NumText(y), r, s);
  }

  lemma Munch(p: string, q: string, r: string, s: string)
    requires forall i :: 0 <= i < |p| ==> NumberChar(p[i])
    requires forall i :: 0 <= i < |q| ==> NumberChar(q[i])
    requires Follow(r) && Follow(s) && p + r == q + s
    ensures p == q
  {
    var t := p + r;
    assert |p| < |t| ==> t[|p|] == r[0];
    assert |q| < |t| ==> (q + s)[|q|] == s[0];
    assert forall i :: 0 <= i < |p| ==> t[i] == p[i];
    assert forall i :: 0 <= i < |q| ==> t[i] == q[i];
    assert |p| == |q|;
  }

  /**
   * PREFIX LEMMA. Inside any larger text, a canonical value can be cut out in one way only: if two
   * values are each followed by something that may follow a value, equal texts start with equal values.
   */
  lemma {:induction false} CanonDecodes(v: Json, w: Json)
    requires Printable(v) && Printable(w)
    ensures Decodes(Canon(v), Canon(w))
    decreases v
  {
    Opens(v);
    Opens(w);
    forall r, s | Follow(r) && Follow(s) && Canon(v) + r == Canon(w) + s ensures Canon(v) == Canon(w) {
      assert (Canon(v) + r)[0] == Canon(v)[0] && (Canon(w) + s)[0] == Canon(w)[0];
      SameKind(v, w, Canon(v)[0]);
      if v.Num? {
        NumberDecodes(v.x, w.x, r, s);
      } else if v.Str? {
        QuoteDecodes(v.s, w.s, r, s);
      } else if v.Arr? {
        ItemsDecode(v, w);
        CanonIs(v);
        CanonIs(w);
        ClosedDecodes('[', ']', ItemTexts(v.items), ItemTexts(w.items), r, s);
      } else if v.Obj? {
        MembersDecode(v, w);
        CanonIs(v);
        CanonIs(w);
        ClosedDecodes('{', '}', MemberTexts(v.fields), MemberTexts(w.fields), r, s);
      }
    }
  }

  lemma DropHead(head: char, x: string, y: string)
    requires [head] + x == [head] + y
    ensures x == y
  {
    assert ([head] + x)[1..] == x && ([head] + y)[1..] == y;
  }

  lemma ClosedDecodes(open: char, close: char, ps: seq<string>, qs: seq<string>, r: string, s: string)
    requires close in [']', '}']
    requires forall i :: 0 <= i < |ps| ==> Part(ps[i])
    requires forall i :: 0 <= i < |qs| ==> Part(qs[i])
    requires forall i :: 0 <= i < |ps| && i < |qs| ==> Decodes(ps[i], qs[i])
    requires [open] + Join(ps, ',') + [close] + r == [open] + Join(qs, ',') + [close] + s
    ensures ps == qs
  {
    Reassociate([open], Join(ps, ','), [close], r);
    Reassociate([open], Join(qs, ','), [close], s);
    DropHead(open, Join(ps, ',') + [close] + r, Join(qs, ',') + [close] + s);
    ListDecodes(ps, qs, close, r, s);
  }

  lemma {:induction false} ItemsDecode(v: Json, w: Json)
    requires v.Arr? && w.Arr? && Printable(v) && Printable(w)
    ensures var ps, qs := ItemTexts(v.items), ItemTexts(w.items);
            && (forall i :: 0 <= i < |ps| ==> Part(ps[i])) && (forall i :: 0 <= i < |qs| ==> Part(qs[i]))
            && (forall i :: 0 <= i < |ps| && i < |qs| ==> Decodes(ps[i], qs[i]))
    decreases v, 0
  {
    forall i | 0 <= i < |v.items| ensures Part(Canon(v.items[i])) { Opens(v.items[i]); }
    forall i | 0 <= i < |w.items| ensures Part(Canon(w.items[i])) { Opens(w.items[i]); }
    forall i | 0 <= i < |v.items| && i < |w.items| ensures Decodes(Canon(v.items[i]), Canon(w.items[i])) {
      CanonDecodes(v.items[i], w.items[i]);
    }
  }

  /** A member decodes: its key by the quotes, its value by the lemma one level down. */
  lemma MemberDecodes(f: Field, g: Field)
    requires Printable(f.value) && Printable(g.value) && Decodes(Canon(f.value), Canon(g.value))
    ensures Decodes(MemberText(f), MemberText(g))
  {
    forall r, s | Follow(r) && Follow(s) && MemberText(f) + r == MemberText(g) + s ensures MemberText(f) == MemberText(g) {
      MemberParts(f, g, r, s);
    }
  }

  lemma MemberParts(f: Field, g: Field, r: string, s: string)
    requires Printable(f.value) && Printable(g.value) && MemberText(f) + r == MemberText(g) + s
    ensures f.key == g.key && Canon(f.value) + r == Canon(g.value) + s
  {
    var x, y := ":" + Canon(f.value) + r, ":" + Canon(g.value) + s;
    Reassociate(Quote(f.key), ":", Canon(f.value), r);
    Reassociate(Quote(g.key), ":", Canon(g.value), s);
    QuoteDecodes(f.key, g.key, x, y);
    assert x[1..] == Canon(f.value) + r && y[1..] == Canon(g.value) + s;
  }

  lemma {:induction false} MembersDecode(v: Json, w: Json)
    requires v.Obj? && w.Obj? && Printable(v) && Printable(w)
    ensures var ps, qs := MemberTexts(v.fields), MemberTexts(w.fields);
            && (forall i :: 0 <= i < |ps| ==> Part(ps[i])) && (forall i :: 0 <= i < |qs| ==> Part(qs[i]))
            && (forall i :: 0 <= i < |ps| && i < |qs| ==> Decodes(ps[i], qs[i]))
    decreases v, 0
  {
    SortedFacts(v.fields);
    SortedFacts(w.fields);
    var a, b := SortFields(v.fields), SortFields(w.fields);
    forall i | 0 <= i < |a| && i < |b| ensures Decodes(MemberText(a[i]), MemberText(b[i])) {
      assert a[i] in v.fields;
      CanonDecodes(a[i].value, b[i].value);
      MemberDecodes(a[i], b[i]);
    }
  }

  // ---------------------------------------------------------------- equal texts mean equal values

  lemma {:induction false} TextDeterminesValue(v: Json, w: Json)
    requires Printable(v) && Printable(w) && Canon(v) == Canon(w)
    ensures Equiv(v, w)
    decreases v
  {
    Opens(v);
    Opens(w);
    SameKind(v, w, Canon(v)[0]);
    CanonIs(v);
    CanonIs(w);
    if v.Num? {
      NumTextInjective(v.x, w.x);
    } else if v.Str? {
      QuoteDecodes(v.s, w.s, "", "");
    } else if v.Arr? {
      ItemsDecode(v, w);
      ClosedDecodes('[', ']', ItemTexts(v.items), ItemTexts(w.items), "", "");
      forall i | 0 <= i < |v.items| ensures Equiv(v.items[i], w.items[i]) {
        assert ItemTexts(v.items)[i] == ItemTexts(w.items)[i];
        TextDeterminesValue(v.items[i], w.items[i]);
      }
    } else if v.Obj? {
      MembersDecode(v, w);
      ClosedDecodes('{', '}', MemberTexts(v.fields), MemberTexts(w.fields), "", "");
      MembersEquiv(v, w);
    }
  }

  lemma {:induction false} MembersEquiv(v: Json, w: Json)
    requires v.Obj? && w.Obj? && Printable(v) && Printable(w) && MemberTexts(v.fields) == MemberTexts(w.fields)
    ensures Equiv(v, w)
    decreases v, 0
  {
    SortedFacts(v.fields);
    SortedFacts(w.fields);
    var a, b := SortFields(v.fields), SortFields(w.fields);
    assert |v.fields| == |MemberTexts(v.fields)| == |w.fields|;
    forall i | 0 <= i < |v.fields| ensures HasMember(w.fields, v.fields[i]) {
      assert v.fields[i] in a;
      var k :| 0 <= k < |a| && a[k] == v.fields[i];
      assert MemberTexts(v.fields)[k] == MemberText(a[k]) && MemberTexts(w.fields)[k] == MemberText(b[k]);
      SameMember(a[k], b[k]);
      TextDeterminesValue(v.fields[i].value, b[k].value);
      assert b[k] in w.fields;
    }
  }

  lemma SameMember(f: Field, g: Field)
    requires Printable(f.value) && Printable(g.value) && MemberText(f) == MemberText(g)
    ensures f.key == g.key && Canon(f.value) == Canon(g.value)
  {
    MemberParts(f, g, "", "");
    assert Canon(f.value) + "" == Canon(f.value) && Canon(g.value) + "" == Canon(g.value);
  }

  // ---------------------------------------------------------------- equal values have equal texts

  lemma MemberIsSorted(v: Json, w: Json, f: Field)
    requires v.Obj? && w.Obj? && Printable(v) && Printable(w) && Equiv(v, w) && f in v.fields
    ensures exists j :: 0 <= j < |SortFields(w.fields)| && SortFields(w.fields)[j].key == f.key
                        && Equiv(f.value, SortFields(w.fields)[j].value)
  {
    SortedIn(w.fields, KeyOf);
    var i :| 0 <= i < |v.fields| && v.fields[i] == f;
    assert HasMember(w.fields, v.fields[i]);
    var j :| 0 <= j < |w.fields| && f.key == w.fields[j].key && Equiv(f.value, w.fields[j].value);
    assert w.fields[j] in SortFields(w.fields);
  }

  lemma MemberMatches(v: Json, w: Json, i: nat)
    requires v.Obj? && w.Obj? && Printable(v) && Printable(w) && Equiv(v, w)
    requires i < |SortFields(v.fields)|
    ensures i < |SortFields(w.fields)| && SortFields(v.fields)[i].key == SortFields(w.fields)[i].key
    ensures Equiv(SortFields(v.fields)[i].value, SortFields(w.fields)[i].value)
  {
    SortedFacts(v.fields);
    SortedFacts(w.fields);
    SortAscends(v.fields, KeyOf);
    SortAscends(w.fields, KeyOf);
    var a, b := SortFields(v.fields), SortFields(w.fields);
    forall k | 0 <= k < |a| ensures KeyIn(b, KeyOf, KeyOf(a[k])) {
      MemberIsSorted(v, w, a[k]);
    }
    SameKeyAt(a, b, KeyOf, i);
    MemberIsSorted(v, w, a[i]);
  }

  lemma {:induction false} ValueDeterminesText(v: Json, w: Json)
    requires Printable(v) && Printable(w) && Equiv(v, w)
    ensures Canon(v) == Canon(w)
    decreases v
  {
    CanonIs(v);
    CanonIs(w);
    if v.Arr? {
      forall i | 0 <= i < |v.items| ensures ItemTexts(v.items)[i] == ItemTexts(w.items)[i] {
        ValueDeterminesText(v.items[i], w.items[i]);
      }
      assert ItemTexts(v.items) == ItemTexts(w.items);
    } else if v.Obj? {
      SortedFacts(v.fields);
      SortedFacts(w.fields);
      var a, b := SortFields(v.fields), SortFields(w.fields);
      forall i | 0 <= i < |a| ensures MemberTexts(v.fields)[i] == MemberTexts(w.fields)[i] {
        MemberMatches(v, w, i);
        assert a[i] in v.fields;
        ValueDeterminesText(a[i].value, b[i].value);
      }
      assert MemberTexts(v.fields) == MemberTexts(w.fields);
    }
  }

  /**
   * CANONICAL JSON IS UNIQUELY DECODABLE AND ORDER-FREE. Two values print the same text exactly when
   * they are equal with objects as unordered maps and -0 identified with 0.
   */
  lemma CanonicalJsonIsExact(v: Json, w: Json)
    requires Printable(v) && Printable(w)
    ensures CanonicalJson(v) == CanonicalJson(w) <==> Equiv(v, w)
  {
    if Canon(v) == Canon(w) { TextDeterminesValue(v, w); }
    if Equiv(v, w) { ValueDeterminesText(v, w); }
  }
}
