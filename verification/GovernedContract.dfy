/** Canonical contract bytes: one normal form per source, whatever checkout it comes from. */
module GovernedContract {
  import opened Text

  predicate Blank(c: char) { c == ' ' || c == '\t' }

  /** Where `$` matches under the m flag, carriage returns being gone. */
  predicate LineEnd(c: char) { c == '\n' || c == '\U{2028}' || c == '\U{2029}' }

  /** `replace(/\r/g, '')`. */
  function NoCr(s: string): string {
    if s == "" then "" else (if s[0] == '\r' then "" else [s[0]]) + NoCr(s[1..])
  }

  /** What follows ends the line: the end of the text or a line end. */
  predicate EndsLine(rest: string) { rest == "" || LineEnd(rest[0]) }

  /** `replace(/[ \t]+$/gm, '')`: a blank goes exactly when only blanks separate it from the line's end. */
  function StripBlanks(s: string): string {
    if s == "" then ""
    else
      var rest := StripBlanks(s[1..]);
      if Blank(s[0]) && EndsLine(rest) then rest else [s[0]] + rest
  }

  /** `replace(/\n+$/, '')`. */
  function TrimNewlines(s: string): (r: string)
    ensures r <= s && (r != "" ==> r[|r| - 1] != '\n')
    ensures forall i :: |r| <= i < |s| ==> s[i] == '\n'
  {
    if s != "" && s[|s| - 1] == '\n' then TrimNewlines(s[..|s| - 1]) else s
  }

  function Canonical(raw: string): string { TrimNewlines(StripBlanks(NoCr(raw))) + "\n" }

  // ---------------------------------------------------------------- normal form

  /** At i there is neither a carriage return nor a blank before a line's end. */
  predicate CleanAt(s: string, i: nat)
    requires i < |s|
  {
    s[i] != '\r' && (Blank(s[i]) ==> i + 1 < |s| && !LineEnd(s[i + 1]))
  }

  predicate Clean(s: string) { forall i :: 0 <= i < |s| ==> CleanAt(s, i) }

  lemma {:induction false} NoCrRemoves(s: string)
    ensures '\r' !in NoCr(s)
  {
    if s != "" { NoCrRemoves(s[1..]); }
  }

  lemma {:induction false} NoCrKeeps(s: string)
    requires '\r' !in s
    ensures NoCr(s) == s
  {
    if s != "" {
      NoCrKeeps(s[1..]);
      assert s == [s[0]] + s[1..];
    }
  }

  lemma {:induction false} StripCleans(s: string)
    requires '\r' !in s
    ensures Clean(StripBlanks(s))
  {
    if s != "" {
      StripCleans(s[1..]);
      var rest, r := StripBlanks(s[1..]), StripBlanks(s);
      if r != rest {
        assert r == [s[0]] + rest;
        forall i | 0 <= i < |r| ensures CleanAt(r, i) {
          if i > 0 { assert CleanAt(rest, i - 1); }
        }
      }
    }
  }

  lemma {:induction false} StripKeeps(s: string)
    requires Clean(s)
    ensures StripBlanks(s) == s
  {
    if s != "" {
      forall i | 0 <= i < |s[1..]| ensures CleanAt(s[1..], i) { assert CleanAt(s, i + 1); }
      StripKeeps(s[1..]);
      assert CleanAt(s, 0);
      assert s == [s[0]] + s[1..];
    }
  }

  lemma TrimKeepsOneNewline(t: string)
    requires t == "" || t[|t| - 1] != '\n'
    ensures TrimNewlines(t + "\n") == t
  {
    assert (t + "\n")[..|t|] == t;
  }

  lemma CanonicalIsClean(raw: string)
    ensures Clean(Canonical(raw))
  {
    NoCrRemoves(raw);
    StripCleans(NoCr(raw));
    var u := StripBlanks(NoCr(raw));
    var t := TrimNewlines(u);
    var r := t + "\n";
    forall i | 0 <= i < |r| ensures CleanAt(r, i) {
      if i < |t| {
        assert CleanAt(u, i) && r[i] == u[i];
        assert i + 1 < |t| ==> r[i + 1] == u[i + 1];
        assert i + 1 == |t| && i + 1 < |u| ==> u[i + 1] == '\n';
      }
    }
  }

  lemma CleanHasNoCr(s: string)
    requires Clean(s)
    ensures '\r' !in s
  {
    forall i | 0 <= i < |s| ensures s[i] != '\r' { assert CleanAt(s, i); }
  }

  /** IDEMPOTENT, and the result ends in exactly one newline. */
  lemma CanonicalIsNormalForm(raw: string)
    ensures Canonical(Canonical(raw)) == Canonical(raw)
    ensures var r := Canonical(raw);
            r[|r| - 1] == '\n' && (|r| >= 2 ==> r[|r| - 2] != '\n')
  {
    var r := Canonical(raw);
    CanonicalIsClean(raw);
    CleanHasNoCr(r);
    NoCrKeeps(r);
    StripKeeps(r);
    TrimKeepsOneNewline(TrimNewlines(StripBlanks(NoCr(raw))));
  }

  // ---------------------------------------------------------------- what does not matter

  lemma {:induction false} NoCrAppend(a: string, b: string)
    ensures NoCr(a + b) == NoCr(a) + NoCr(b)
  {
    if a == "" {
      assert a + b == b;
    } else {
      NoCrAppend(a[1..], b);
      assert (a + b)[1..] == a[1..] + b;
      var head := if a[0] == '\r' then "" else [a[0]];
      Associate(head, NoCr(a[1..]), NoCr(b));
    }
  }

  /** Carriage returns may be inserted anywhere. */
  lemma CarriageReturnsNeverMatter(a: string, b: string)
    ensures Canonical(a + "\r" + b) == Canonical(a + b)
  {
    NoCrAppend(a + "\r", b);
    NoCrAppend(a, "\r");
    NoCrAppend(a, b);
    assert "\r"[1..] == "" && NoCr("\r") == "" + "";
    assert NoCr(a) + "" == NoCr(a);
  }

  lemma {:induction false} BlankStripped(a: string, blank: char, b: string)
    requires Blank(blank) && EndsLine(b)
    ensures StripBlanks(a + [blank] + b) == StripBlanks(a + b)
  {
    if a == "" {
      assert a + [blank] + b == [blank] + b && a + b == b;
      assert ([blank] + b)[1..] == b;
      assert EndsLine(StripBlanks(b));
    } else {
      BlankStripped(a[1..], blank, b);
      assert (a + [blank] + b)[1..] == a[1..] + [blank] + b;
      assert (a + b)[1..] == a[1..] + b;
    }
  }

  /** Blanks may be inserted wherever only carriage returns separate the place from the line's end. */
  lemma BlanksAtLineEndsNeverMatter(a: string, blank: char, b: string)
    requires Blank(blank) && EndsLine(NoCr(b))
    ensures Canonical(a + [blank] + b) == Canonical(a + b)
  {
    NoCrAppend(a + [blank], b);
    NoCrAppend(a, [blank]);
    NoCrAppend(a, b);
    NoCrKeeps([blank]);
    BlankStripped(NoCr(a), blank, NoCr(b));
  }
}
