/** The posture diff: a recursive walk that reports exactly the first disagreements below each branch. */
module Posture {
  import opened Text
  import opened Sorting
  import opened Json
  import opened JsonCanon

  /** One drift entry; the path is the list of keys, printed joined by dots. */
  datatype Drift = Drift(path: seq<string>, expected: Json, actual: Json)

  // ---------------------------------------------------------------- comparing one place

  /** Array.prototype.join(',') element by element. */
  function ElementText(v: Json): string {
    match v
    case Str(s) => s
    case Bool(b) => if b then "true" else "false"
    case Num(x) => if ValidNumber(x) then NumText(x) else ""
    case Arr(items) => Join(seq(|items|, i requires 0 <= i < |items| => ElementText(items[i])), ',')
    case Obj(_) => "[object Object]"
    case _ => ""
  }

  /** Arrays are compared by their joined text. */
  function Leaf(v: Json): Json { if v.Arr? then Str(ElementText(v)) else v }

  /** A present object: not an array, not marked missing. */
  predicate Present(a: Json) { a.Obj? && At(a, "missing") != Bool(true) }

  predicate AgreesHere(e: Json, a: Json) {
    if e.Obj? then Present(a) else StrictEq(Leaf(e), Leaf(a))
  }

  /** An array of strings, none of which holds the comma that joins them. */
  predicate CommaFree(items: seq<Json>) {
    forall i :: 0 <= i < |items| ==> items[i].Str? && ',' !in items[i].s
  }

  /** Nothing, or one empty string: both join to the empty text. */
  predicate JoinsToNothing(items: seq<Json>) { items == [] || items == [Str("")] }

  function Texts(items: seq<Json>): (r: seq<string>)
    requires forall i :: 0 <= i < |items| ==> items[i].Str?
    ensures |r| == |items| && forall i :: 0 <= i < |r| ==> r[i] == items[i].s
  {
    seq(|items|, i requires 0 <= i < |items| => items[i].s)
  }

  lemma JoinedTexts(items: seq<Json>)
    requires forall i :: 0 <= i < |items| ==> items[i].Str?
    ensures ElementText(Arr(items)) == Join(Texts(items), ',')
  {
    assert seq(|items|, i requires 0 <= i < |items| => ElementText(items[i])) == Texts(items);
  }

  lemma EmptyJoin(items: seq<Json>)
    requires CommaFree(items)
    ensures Join(Texts(items), ',') == "" <==> JoinsToNothing(items)
  {
    if items != [] && Join(Texts(items), ',') == "" {
      SplitJoin(Texts(items), ',');
      assert Texts(items) == [""] && items[0] == Str("");
    }
  }

  /**
   * WHEN AGREEMENT OF ARRAYS IS EQUALITY. Arrays of comma-free strings agree exactly when they are equal,
   * except that no element and one empty string agree as well.
   */
  lemma ArraysAgreeIff(e: seq<Json>, a: seq<Json>)
    requires CommaFree(e) && CommaFree(a)
    ensures AgreesHere(Arr(e), Arr(a)) <==> e == a || (JoinsToNothing(e) && JoinsToNothing(a))
  {
    JoinedTexts(e);
    JoinedTexts(a);
    EmptyJoin(e);
    EmptyJoin(a);
    if e != [] && a != [] && AgreesHere(Arr(e), Arr(a)) {
      JoinInjective(Texts(e), Texts(a), ',');
      forall i | 0 <= i < |e| ensures e[i] == a[i] { assert Texts(e)[i] == Texts(a)[i]; }
    }
  }

  /** With a comma inside an element, one element agrees with two, and with the bare text. */
  lemma CommaHidesElements(x: string, y: string)
    ensures AgreesHere(Arr([Str(x), Str(y)]), Arr([Str(x + "," + y)]))
    ensures AgreesHere(Arr([Str(x), Str(y)]), Str(x + "," + y))
  {
    JoinedTexts([Str(x), Str(y)]);
    JoinedTexts([Str(x + "," + y)]);
    assert Texts([Str(x), Str(y)]) == [x, y] && Texts([Str(x + "," + y)]) == [x + "," + y];
    assert Join([x, y], ',') == x + [','] + y;
  }

  /** What a drift entry shows of the live side. */
  function Shown(e: Json, a: Json): Json {
    if e.Obj? && TruthyJson(a) && TruthyJson(At(a, "missing")) then Str("missing") else a
  }

  // ---------------------------------------------------------------- the walk

  function Concat<T>(parts: seq<seq<T>>): seq<T> {
    if parts == [] then [] else Concat(parts[..|parts| - 1]) + parts[|parts| - 1]
  }

  function Walk(e: Json, a: Json, path: seq<string>): seq<Drift> {
    if !AgreesHere(e, a) then [Drift(path, e, Shown(e, a))]
    else if !e.Obj? then []
    else
      var sorted := SortFields(e.fields);
      SortedIn(e.fields, KeyOf);
      Concat(seq(|sorted|, i requires 0 <= i < |sorted| =>
        assert sorted[i] in e.fields; Walk(sorted[i].value, At(a, sorted[i].key), path + [sorted[i].key])))
  }

  function Parts(e: Json, a: Json, path: seq<string>): (ps: seq<seq<Drift>>)
    requires e.Obj?
    ensures var sorted := SortFields(e.fields);
            |ps| == |sorted| && forall i :: 0 <= i < |ps| ==>
              ps[i] == Walk(sorted[i].value, At(a, sorted[i].key), path + [sorted[i].key])
  {
    var sorted := SortFields(e.fields);
    seq(|sorted|, i requires 0 <= i < |sorted| => Walk(sorted[i].value, At(a, sorted[i].key), path + [sorted[i].key]))
  }

  lemma WalkIsParts(e: Json, a: Json, path: seq<string>)
    requires e.Obj? && AgreesHere(e, a)
    ensures Walk(e, a, path) == Concat(Parts(e, a, path))
  {
    var sorted := SortFields(e.fields);
    SortedIn(e.fields, KeyOf);
    assert Parts(e, a, path) == seq(|sorted|, i requires 0 <= i < |sorted| =>
        assert sorted[i] in e.fields; Walk(sorted[i].value, At(a, sorted[i].key), path + [sorted[i].key]));
  }

  /** walkDiff pushes into a shared list. */
  method WalkDiff(e: Json, a: Json, path: seq<string>, out: seq<Drift>) returns (out': seq<Drift>)
    ensures out' == out + Walk(e, a, path)
    decreases e, 1
  {
    if e.Obj? {
      if !Present(a) { return out + [Drift(path, e, Shown(e, a))]; }
      out' := WalkMembers(e, a, path, out);
    } else if !StrictEq(Leaf(e), Leaf(a)) {
      out' := out + [Drift(path, e, a)];
    } else {
      out' := out;
    }
  }

  /** What the first i members contribute. */
  function FirstMembers(e: Json, a: Json, path: seq<string>, i: nat): seq<Drift>
    requires e.Obj? && i <= |SortFields(e.fields)|
  {
    Concat(Parts(e, a, path)[..i])
  }

  lemma MembersStart(e: Json, a: Json, path: seq<string>)
    requires e.Obj? && Present(a)
    ensures FirstMembers(e, a, path, 0) == []
    ensures FirstMembers(e, a, path, |SortFields(e.fields)|) == Walk(e, a, path)
  {
    var parts := Parts(e, a, path);
    assert parts[..|parts|] == parts && parts[..0] == [];
    WalkIsParts(e, a, path);
  }

  lemma MemberAdds(e: Json, a: Json, path: seq<string>, i: nat, f: Field)
    requires e.Obj? && i < |SortFields(e.fields)| && f == SortFields(e.fields)[i]
    ensures FirstMembers(e, a, path, i + 1) == FirstMembers(e, a, path, i) + Walk(f.value, At(a, f.key), path + [f.key])
  {
    var parts := Parts(e, a, path);
    assert parts[..i + 1][..i] == parts[..i];
  }

  /** The loop over the sorted keys; keys only the live side has are skipped. */
  method WalkMembers(e: Json, a: Json, path: seq<string>, out: seq<Drift>) returns (out': seq<Drift>)
    requires e.Obj? && Present(a)
    ensures out' == out + Walk(e, a, path)
    decreases e, 0
  {
    out' := out;
    var sorted := SortFields(e.fields);
    SortedIn(e.fields, KeyOf);
    MembersStart(e, a, path);
    for i := 0 to |sorted|
      invariant out' == out + FirstMembers(e, a, path, i)
    {
      assert sorted[i] in e.fields;
      out' := WalkMember(e, a, path, out, out', i, sorted[i]);
    }
  }

  /** One turn of the loop. */
  method WalkMember(e: Json, a: Json, path: seq<string>, ghost start: seq<Drift>, out: seq<Drift>, ghost i: nat, f: Field)
    returns (out': seq<Drift>)
    requires e.Obj? && f in e.fields && i < |SortFields(e.fields)| && f == SortFields(e.fields)[i]
    requires out == start + FirstMembers(e, a, path, i)
    ensures out' == start + FirstMembers(e, a, path, i + 1)
    decreases f
  {
    MemberAdds(e, a, path, i, f);
    out' := WalkDiff(f.value, At(a, f.key), path + [f.key], out);
    Associate(start, FirstMembers(e, a, path, i), Walk(f.value, At(a, f.key), path + [f.key]));
  }

  /** diffFacts: an unreadable catalogue is one drift, fail-closed. */
  method DiffFacts(live: Json, baseline: Json) returns (drifts: seq<Drift>)
    ensures drifts == if TruthyJson(At(live, "unreadable"))
                      then [Drift(["catalog"], Str("readable"), At(live, "error"))] else Walk(baseline, live, [])
  {
    if TruthyJson(At(live, "unreadable")) { return [Drift(["catalog"], Str("readable"), At(live, "error"))]; }
    drifts := WalkDiff(baseline, live, [], []);
  }

  // ---------------------------------------------------------------- reference: agreement path by path

  function Get(v: Json, path: seq<string>): Json
    decreases path
  {
    if path == [] then v else Get(At(v, path[0]), path[1..])
  }

  predicate HasKey(v: Json, key: string) {
    v.Obj? && exists i :: 0 <= i < |v.fields| && v.fields[i].key == key
  }

  /** path leads to a place of the baseline. */
  predicate InTree(e: Json, path: seq<string>)
    decreases path
  {
    path == [] || (HasKey(e, path[0]) && InTree(At(e, path[0]), path[1..]))
  }

  predicate AgreesAt(e: Json, a: Json, path: seq<string>) { AgreesHere(Get(e, path), Get(a, path)) }

  /** The two sides disagree at path and agree at every place above it. */
  predicate FirstDisagreement(e: Json, a: Json, path: seq<string>) {
    && InTree(e, path) && !AgreesAt(e, a, path)
    && forall n :: 0 <= n < |path| ==> AgreesAt(e, a, path[..n])
  }

  lemma FirstStep(e: Json, a: Json, path: seq<string>)
    requires path != []
    ensures FirstDisagreement(e, a, path) <==>
            AgreesHere(e, a) && HasKey(e, path[0]) && FirstDisagreement(At(e, path[0]), At(a, path[0]), path[1..])
  {
    var e', a', rest := At(e, path[0]), At(a, path[0]), path[1..];
    assert forall n :: 0 <= n < |rest| ==> path[..n + 1][1..] == rest[..n] && path[..n + 1][0] == path[0];
    assert forall n :: 0 <= n < |rest| ==> AgreesAt(e, a, path[..n + 1]) == AgreesAt(e', a', rest[..n]);
    assert path[..0] == [];
    if FirstDisagreement(e, a, path) {
      assert AgreesAt(e, a, path[..0]);
      forall n | 0 <= n < |rest| ensures AgreesAt(e', a', rest[..n]) { assert AgreesAt(e, a, path[..n + 1]); }
    }
    if AgreesHere(e, a) && HasKey(e, path[0]) && FirstDisagreement(e', a', rest) {
      forall n | 0 <= n < |path| ensures AgreesAt(e, a, path[..n]) {
        if n > 0 { assert AgreesAt(e', a', rest[..n - 1]); }
      }
    }
  }

  lemma {:induction false} InConcat<T>(parts: seq<seq<T>>, x: T)
    ensures x in Concat(parts) <==> exists i :: 0 <= i < |parts| && x in parts[i]
  {
    if parts != [] {
      var n := |parts| - 1;
      InConcat(parts[..n], x);
      if i :| 0 <= i < |parts| && x in parts[i] && i < n { assert x in parts[..n][i]; }
    }
  }

  /** d is the entry of a first disagreement below path. */
  predicate Entry(e: Json, a: Json, path: seq<string>, d: Drift, rel: seq<string>) {
    && d.path == path + rel && FirstDisagreement(e, a, rel)
    && d.expected == Get(e, rel) && d.actual == Shown(Get(e, rel), Get(a, rel))
  }

  /** An entry below one member is an entry of the whole. */
  lemma EntryBelow(e: Json, a: Json, path: seq<string>, d: Drift, f: Field, rest: seq<string>)
    requires Printable(e) && e.Obj? && AgreesHere(e, a) && f in e.fields
    requires Entry(f.value, At(a, f.key), path + [f.key], d, rest)
    ensures Entry(e, a, path, d, [f.key] + rest)
  {
    var rel := [f.key] + rest;
    var k :| 0 <= k < |e.fields| && e.fields[k] == f;
    MemberAtIs(e.fields, k);
    assert rel[1..] == rest && path + [f.key] + rest == path + rel;
    FirstStep(e, a, rel);
  }

  lemma WalkPart(e: Json, a: Json, path: seq<string>, d: Drift) returns (f: Field)
    requires Printable(e) && e.Obj? && AgreesHere(e, a) && d in Walk(e, a, path)
    ensures f in e.fields && Printable(f.value) && d in Walk(f.value, At(a, f.key), path + [f.key])
  {
    WalkIsParts(e, a, path);
    InConcat(Parts(e, a, path), d);
    SortedFacts(e.fields);
    var i :| 0 <= i < |Parts(e, a, path)| && d in Parts(e, a, path)[i];
    f := SortFields(e.fields)[i];
  }

  /** SOUND. Every entry of the walk is a first disagreement, shown as it is. */
  lemma {:induction false} WalkIsSound(e: Json, a: Json, path: seq<string>, d: Drift) returns (rel: seq<string>)
    requires Printable(e) && d in Walk(e, a, path)
    ensures Entry(e, a, path, d, rel)
    decreases e
  {
    rel := [];
    if AgreesHere(e, a) {
      var f := WalkPart(e, a, path, d);
      var rest := WalkIsSound(f.value, At(a, f.key), path + [f.key], d);
      rel := [f.key] + rest;
      EntryBelow(e, a, path, d, f, rest);
    } else {
      assert path + rel == path;
    }
  }

  /** COMPLETE. Every first disagreement has its entry. */
  lemma {:induction false} WalkIsComplete(e: Json, a: Json, path: seq<string>, rel: seq<string>)
    requires Printable(e) && FirstDisagreement(e, a, rel)
    ensures Drift(path + rel, Get(e, rel), Shown(Get(e, rel), Get(a, rel))) in Walk(e, a, path)
    decreases e
  {
    if rel == [] {
      assert path + rel == path;
    } else {
      FirstStep(e, a, rel);
      var k :| 0 <= k < |e.fields| && e.fields[k].key == rel[0];
      MemberAtIs(e.fields, k);
      var f := e.fields[k];
      WalkIsComplete(f.value, At(a, f.key), path + [f.key], rel[1..]);
      EntryPath(path, rel);
      PartOfWalk(e, a, path, Drift(path + rel, Get(e, rel), Shown(Get(e, rel), Get(a, rel))), f);
    }
  }

  lemma EntryPath(path: seq<string>, rel: seq<string>)
    requires rel != []
    ensures path + [rel[0]] + rel[1..] == path + rel
  {
  }

  lemma PartOfWalk(e: Json, a: Json, path: seq<string>, d: Drift, f: Field)
    requires Printable(e) && e.Obj? && AgreesHere(e, a) && f in e.fields && d in Walk(f.value, At(a, f.key), path + [f.key])
    ensures d in Walk(e, a, path)
  {
    SortedFacts(e.fields);
    var sorted := SortFields(e.fields);
    var i :| 0 <= i < |sorted| && sorted[i] == f;
    WalkIsParts(e, a, path);
    assert d in Parts(e, a, path)[i];
    InConcat(Parts(e, a, path), d);
  }

  /** A tree with a disagreement anywhere has a first one. */
  lemma {:induction false} SomeFirst(e: Json, a: Json, path: seq<string>) returns (first: seq<string>)
    requires InTree(e, path) && !AgreesAt(e, a, path)
    ensures FirstDisagreement(e, a, first) && first <= path
    decreases |path|
  {
    if n :| 0 <= n < |path| && !AgreesAt(e, a, path[..n]) {
      PrefixInTree(e, path, n);
      first := SomeFirst(e, a, path[..n]);
    } else {
      first := path;
    }
  }

  lemma {:induction false} PrefixInTree(e: Json, path: seq<string>, n: nat)
    requires InTree(e, path) && n <= |path|
    ensures InTree(e, path[..n])
    decreases n
  {
    if n > 0 {
      assert path[..n][1..] == path[1..][..n - 1];
      PrefixInTree(At(e, path[0]), path[1..], n - 1);
    }
  }

  /** EMPTY MEANS AGREEMENT. The diff is empty exactly when the live side agrees at every place of the baseline. */
  lemma EmptyMeansAgreement(e: Json, a: Json)
    requires Printable(e)
    ensures Walk(e, a, []) == [] <==> forall path :: InTree(e, path) ==> AgreesAt(e, a, path)
  {
    if Walk(e, a, []) == [] {
      forall path | InTree(e, path) ensures AgreesAt(e, a, path) {
        if !AgreesAt(e, a, path) {
          var first := SomeFirst(e, a, path);
          WalkIsComplete(e, a, [], first);
        }
      }
    } else {
      var rel := WalkIsSound(e, a, [], Walk(e, a, [])[0]);
    }
  }

  // ---------------------------------------------------------------- distinct paths, irrelevant facts

  predicate DistinctPaths(ds: seq<Drift>) {
    forall i, j :: 0 <= i < j < |ds| ==> ds[i].path != ds[j].path
  }

  predicate Under(ds: seq<Drift>, path: seq<string>) {
    forall i :: 0 <= i < |ds| ==> path <= ds[i].path
  }

  /** Parts under different keys have different paths. */
  lemma {:induction false} ConcatDistinct(parts: seq<seq<Drift>>, path: seq<string>, keys: seq<string>)
    requires |keys| == |parts| && forall i, j :: 0 <= i < j < |keys| ==> keys[i] != keys[j]
    requires forall i :: 0 <= i < |parts| ==> DistinctPaths(parts[i]) && Under(parts[i], path + [keys[i]])
    ensures DistinctPaths(Concat(parts)) && Under(Concat(parts), path)
    ensures forall d :: d in Concat(parts) ==> |d.path| > |path| && d.path[|path|] in keys
  {
    if parts != [] {
      var n := |parts| - 1;
      ConcatDistinct(parts[..n], path, keys[..n]);
      var a, b := Concat(parts[..n]), parts[n];
      forall j | 0 <= j < |b| ensures |b[j].path| > |path| && b[j].path[|path|] == keys[n] && path <= b[j].path {
        assert path + [keys[n]] <= b[j].path;
        assert b[j].path[|path|] == (path + [keys[n]])[|path|];
      }
      forall i, j | 0 <= i < |a| && 0 <= j < |b| ensures a[i].path != b[j].path {
        assert a[i] in a && a[i].path[|path|] in keys[..n];
      }
    }
  }

  /** DISTINCT. No two entries of the walk name the same path. */
  lemma {:induction false} WalkIsDistinct(e: Json, a: Json, path: seq<string>)
    requires Printable(e)
    ensures DistinctPaths(Walk(e, a, path)) && Under(Walk(e, a, path), path)
    decreases e
  {
    if e.Obj? && AgreesHere(e, a) {
      WalkIsParts(e, a, path);
      SortedFacts(e.fields);
      var sorted := SortFields(e.fields);
      var keys := seq(|sorted|, i requires 0 <= i < |sorted| => sorted[i].key);
      forall i | 0 <= i < |sorted|
        ensures DistinctPaths(Parts(e, a, path)[i]) && Under(Parts(e, a, path)[i], path + [keys[i]])
      {
        assert sorted[i] in e.fields;
        WalkIsDistinct(sorted[i].value, At(a, sorted[i].key), path + [sorted[i].key]);
      }
      ConcatDistinct(Parts(e, a, path), path, keys);
    }
  }

  /** How a path is printed. */
  function PathText(path: seq<string>): string { Join(path, '.') }

  /** Every key of the baseline is non-empty and dot-free, so printed paths name places unambiguously. */
  predicate PlainKeys(e: Json)
    decreases e
  {
    e.Obj? ==> forall i :: 0 <= i < |e.fields| ==>
      e.fields[i].key != "" && '.' !in e.fields[i].key && PlainKeys(e.fields[i].value)
  }

  lemma {:induction false} TreePathIsPlain(e: Json, path: seq<string>)
    requires Printable(e) && PlainKeys(e) && InTree(e, path)
    ensures Free(path, '.') && (path != [] ==> path[0] != "")
    decreases path
  {
    if path != [] {
      var k :| 0 <= k < |e.fields| && e.fields[k].key == path[0];
      MemberAtIs(e.fields, k);
      TreePathIsPlain(At(e, path[0]), path[1..]);
      assert forall i :: 0 < i < |path| ==> path[i] == path[1..][i - 1];
    }
  }

  /** Printed paths of two places of such a baseline are equal only if the places are. */
  lemma PathTextsDistinct(e: Json, p: seq<string>, q: seq<string>)
    requires Printable(e) && PlainKeys(e) && InTree(e, p) && InTree(e, q) && PathText(p) == PathText(q)
    ensures p == q
  {
    TreePathIsPlain(e, p);
    TreePathIsPlain(e, q);
    if p != [] && q != [] { JoinInjective(p, q, '.'); }
  }

  /** b holds what a holds at every place of the baseline; whatever else they hold may differ. */
  predicate SameWithin(e: Json, a: Json, b: Json)
    decreases e
  {
    if e.Obj? && a.Obj? then
      && b.Obj? && At(a, "missing") == At(b, "missing")
      && forall i :: 0 <= i < |e.fields| ==> SameWithin(e.fields[i].value, At(a, e.fields[i].key), At(b, e.fields[i].key))
    else a == b
  }

  /** The paths where drift is reported. */
  function PathsOf(ds: seq<Drift>): set<seq<string>> { set d | d in ds :: d.path }

  /** IRRELEVANT FACTS. Facts outside the baseline never change where drift is reported. */
  lemma {:induction false} OutsideNeverMatters(e: Json, a: Json, b: Json, path: seq<string>)
    requires Printable(e) && SameWithin(e, a, b)
    ensures PathsOf(Walk(e, a, path)) == PathsOf(Walk(e, b, path))
  {
    forall p ensures p in PathsOf(Walk(e, a, path)) <==> p in PathsOf(Walk(e, b, path)) {
      if p in PathsOf(Walk(e, a, path)) { PathCarries(e, a, b, path, p); }
      if p in PathsOf(Walk(e, b, path)) {
        SameWithinSymmetric(e, a, b);
        PathCarries(e, b, a, path, p);
      }
    }
  }

  lemma PathCarries(e: Json, a: Json, b: Json, path: seq<string>, p: seq<string>)
    requires Printable(e) && SameWithin(e, a, b) && p in PathsOf(Walk(e, a, path))
    ensures p in PathsOf(Walk(e, b, path))
  {
    var d :| d in Walk(e, a, path) && d.path == p;
    var rel := WalkIsSound(e, a, path, d);
    SameFirst(e, a, b, rel);
    WalkIsComplete(e, b, path, rel);
    var d' := Drift(path + rel, Get(e, rel), Shown(Get(e, rel), Get(b, rel)));
    assert d' in Walk(e, b, path) && d'.path == p;
  }

  lemma {:induction false} SameWithinSymmetric(e: Json, a: Json, b: Json)
    requires SameWithin(e, a, b)
    ensures SameWithin(e, b, a)
    decreases e
  {
    if e.Obj? && a.Obj? {
      forall i | 0 <= i < |e.fields| ensures SameWithin(e.fields[i].value, At(b, e.fields[i].key), At(a, e.fields[i].key)) {
        SameWithinSymmetric(e.fields[i].value, At(a, e.fields[i].key), At(b, e.fields[i].key));
      }
    }
  }

  lemma {:induction false} SameFirst(e: Json, a: Json, b: Json, rel: seq<string>)
    requires Printable(e) && SameWithin(e, a, b) && FirstDisagreement(e, a, rel)
    ensures FirstDisagreement(e, b, rel)
    decreases |rel|
  {
    if rel != [] {
      FirstStep(e, a, rel);
      FirstStep(e, b, rel);
      var k :| 0 <= k < |e.fields| && e.fields[k].key == rel[0];
      MemberAtIs(e.fields, k);
      SameFirst(At(e, rel[0]), At(a, rel[0]), At(b, rel[0]), rel[1..]);
    }
  }
}
