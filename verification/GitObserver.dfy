/** The read-only observer of a git target: where a ref points, what it pointed at, and what changed. */
module GitObserver {
  import opened Text
  import opened Crypto
  import Sorting

  /** A commit object: its parents, the lines of its message, and the files of its tree (modes aside). */
  datatype CommitObject = CommitObject(parents: seq<string>, message: seq<string>, tree: map<string, string>)

  /**
   * What the observer can read: refs, each ref's previous value by its reflog, the object database, the
   * root commit of each ref's history, and how git spells an unusual path between quotes.
   */
  datatype Target = Target(
    refs: map<string, string>,
    previous: map<string, string>,
    commits: map<string, CommitObject>,
    roots: map<string, string>,
    spell: string -> string)

  datatype Observation = Observation(
    targetRef: string,
    lineage: Option<string>,
    before: Option<string>,
    observed: string,
    contractPath: string,
    blobDigest: Option<string>,
    changedPaths: Option<seq<string>>,
    source: string,
    mode: string,
    canonicalUri: Option<string>)

  const ALLOWED_INPUT: seq<string> := ["repoPath", "ref", "contractPath", "now"]

  /** The caller's input: its own keys, and the three values the observer reads. */
  datatype Input = Input(keys: seq<string>, repoPath: string, ref: string, contractPath: string)

  datatype Observed = Refused | Unreadable | Read(o: Observation)

  /** core.quotePath: control characters, quotes, backslashes and everything outside ASCII. */
  predicate UnusualChar(c: char) { c < ' ' || c == '"' || c == '\\' || c >= '\U{7f}' }

  predicate Unusual(path: string) { exists i :: 0 <= i < |path| && UnusualChar(path[i]) }

  /** How `diff-tree --name-only` prints a path. */
  function Shown(t: Target, path: string): string {
    if Unusual(path) then "\"" + t.spell(path) + "\"" else path
  }

  predicate Differs(a: map<string, string>, b: map<string, string>, path: string) {
    (path in a <==> path !in b) || (path in a && path in b && a[path] != b[path])
  }

  function Changed(a: map<string, string>, b: map<string, string>): (r: set<string>)
    ensures forall p :: p in r <==> Differs(a, b, p)
  {
    set p | p in a.Keys + b.Keys && Differs(a, b, p)
  }

  /** The reported names are the changed paths as printed, trimmed, blanks dropped. */
  ghost predicate Reports(t: Target, changed: set<string>, names: seq<string>) {
    forall x :: x in names <==> x != "" && exists p :: p in changed && Trim(Shown(t, p)) == x
  }

  /** Each path of the set once, in whatever order the diff prints them. */
  ghost predicate ListsOnce(order: seq<string>, changed: set<string>) {
    && (forall p :: p in changed <==> p in order)
    && (forall i, j :: 0 <= i < j < |order| ==> order[i] != order[j])
  }

  /** One printed line for each path, trimmed, blanks dropped. */
  function Lines(t: Target, order: seq<string>): seq<string> {
    if order == [] then []
    else
      var line := Trim(Shown(t, order[|order| - 1]));
      Lines(t, order[..|order| - 1]) + (if line == "" then [] else [line])
  }

  function Itself(x: string): string { x }

  /** The names are the printed lines of the changed paths, one line a path, sorted. */
  ghost predicate Prints(t: Target, changed: set<string>, names: seq<string>) {
    && Sorting.Ordered(names, Itself)
    && exists order :: ListsOnce(order, changed) && multiset(names) == multiset(Lines(t, order))
  }

  method ReadChangedPaths(t: Target, before: string, observed: string) returns (names: Option<seq<string>>)
    ensures names.Some? <==> before in t.commits && observed in t.commits
    ensures names.Some? ==> Prints(t, Changed(t.commits[before].tree, t.commits[observed].tree), names.value)
    ensures names.Some? ==> Reports(t, Changed(t.commits[before].tree, t.commits[observed].tree), names.value)
  {
    if before !in t.commits || observed !in t.commits { return None; }
    var changed := Changed(t.commits[before].tree, t.commits[observed].tree);
    var order := DiffOrder(changed);
    var out := TrimLines(t, order);
    LinesReport(t, order, changed);
    Sorting.SortOrders(out, Itself);
    SortedReports(t, changed, out);
    names := Some(Sorting.Sort(out, Itself));
  }

  /** The order the diff prints them in, which the sort will forget. */
  method DiffOrder(changed: set<string>) returns (order: seq<string>)
    ensures ListsOnce(order, changed)
  {
    var todo := changed;
    order := [];
    while todo != {}
      invariant todo <= changed && ListsOnce(order, changed - todo)
      decreases |todo|
    {
      var p :| p in todo;
      todo, order := todo - {p}, order + [p];
    }
    assert changed - {} == changed;
  }

  /** Each printed line trimmed, blanks dropped. */
  method TrimLines(t: Target, order: seq<string>) returns (out: seq<string>)
    ensures out == Lines(t, order)
  {
    out := [];
    for i := 0 to |order|
      invariant out == Lines(t, order[..i])
    {
      assert order[..i + 1][..i] == order[..i];
      var line := Trim(Shown(t, order[i]));
      if line != "" { out := out + [line]; }
    }
    assert order[..|order|] == order;
  }

  lemma {:induction false} LinesReport(t: Target, order: seq<string>, changed: set<string>)
    requires ListsOnce(order, changed)
    ensures Reports(t, changed, Lines(t, order))
  {
    if order != [] {
      var rest, p := order[..|order| - 1], order[|order| - 1];
      assert forall q :: q in order <==> q in rest || q == p;
      LinesReport(t, rest, changed - {p});
      ReportsOneMore(t, changed - {p}, p, Lines(t, rest), Lines(t, order));
      assert changed - {p} + {p} == changed;
    }
  }

  lemma SortedReports(t: Target, changed: set<string>, names: seq<string>)
    requires Reports(t, changed, names)
    ensures Reports(t, changed, Sorting.Sort(names, Itself))
  {
    var sorted := Sorting.Sort(names, Itself);
    Sorting.SortedIn(names, Itself);
    forall x ensures x in sorted <==> x in names {
      if x in sorted {
        var i :| 0 <= i < |sorted| && sorted[i] == x;
      }
    }
  }

  lemma ReportsOneMore(t: Target, changed: set<string>, p: string, names: seq<string>, more: seq<string>)
    requires Reports(t, changed, names)
    requires var line := Trim(Shown(t, p)); more == if line == "" then names else names + [line]
    ensures Reports(t, changed + {p}, more)
  {
    forall x ensures x in more <==> x != "" && exists q :: q in changed + {p} && Trim(Shown(t, q)) == x {
      assert x in more <==> x in names || (x != "" && x == Trim(Shown(t, p)));
      if x in names {
        var q :| q in changed && Trim(Shown(t, q)) == x;
        assert q in changed + {p};
      } else if x != "" && x == Trim(Shown(t, p)) {
        assert p in changed + {p};
      }
    }
  }

  predicate ContentIs(c: Crypto, t: Target, commit: string, path: string, digest: Option<string>) {
    digest == if commit in t.commits && path in t.commits[commit].tree
              then Some(Sha256Pref(c, t.commits[commit].tree[path])) else None
  }

  /** An observation of the target, taken without being told what to find. */
  ghost predicate Observes(c: Crypto, t: Target, ref: string, path: string, o: Observation) {
    && ref in t.refs && o.targetRef == ref && o.observed == t.refs[ref] && o.contractPath == path
    && o.before == (if ref in t.previous then Some(t.previous[ref]) else None)
    && o.lineage == (if ref in t.roots then Some("git-root:" + t.roots[ref]) else None)
    && ContentIs(c, t, o.observed, path, o.blobDigest)
    && (o.changedPaths.Some? <==> o.before.Some? && o.before.value in t.commits && o.observed in t.commits)
    && (o.changedPaths.Some? ==>
          Reports(t, Changed(t.commits[o.before.value].tree, t.commits[o.observed].tree), o.changedPaths.value))
    && o.source == "git-object-database" && o.mode == "read_only"
  }

  /** Only the allowed keys, and every required value present. */
  predicate Admissible(input: Input) {
    (forall k :: 0 <= k < |input.keys| ==> input.keys[k] in ALLOWED_INPUT)
    && input.repoPath != "" && input.ref != "" && input.contractPath != ""
  }

  method ObserveGitTarget(c: Crypto, t: Target, input: Input) returns (r: Observed)
    ensures r.Refused? <==> !Admissible(input)
    ensures r.Unreadable? <==> Admissible(input) && input.ref !in t.refs
    ensures r.Read? ==> Observes(c, t, input.ref, input.contractPath, r.o) && r.o.canonicalUri == None
  {
    for i := 0 to |input.keys|
      invariant forall k :: 0 <= k < i ==> input.keys[k] in ALLOWED_INPUT
    {
      if input.keys[i] !in ALLOWED_INPUT { return Refused; }
    }
    if input.repoPath == "" || input.ref == "" || input.contractPath == "" { return Refused; }
    if input.ref !in t.refs { return Unreadable; }
    var observed := t.refs[input.ref];
    var before := None;
    if input.ref in t.previous { before := Some(t.previous[input.ref]); }
    var blob := None;
    if observed in t.commits && input.contractPath in t.commits[observed].tree {
      blob := Some(Sha256Pref(c, t.commits[observed].tree[input.contractPath]));
    }
    var lineage := if input.ref in t.roots then Some("git-root:" + t.roots[input.ref]) else None;
    var changed := None;
    if before.Some? { changed := ReadChangedPaths(t, before.value, observed); }
    r := Read(Observation(input.ref, lineage, before, observed, input.contractPath, blob, changed,
                          "git-object-database", "read_only", None));
  }
}
