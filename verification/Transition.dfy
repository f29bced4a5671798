/** The transition grader: checks made one by one that together pin the whole tree. */
module Transition {
  import opened Text
  import opened Crypto
  import opened GitObserver

  /** What the grading side holds; None where the caller supplied no such expectation. */
  datatype Expected = Expected(
    canonicalUri: Option<string>,
    repoId: Option<string>,
    ref: Option<string>,
    base: Option<string>,
    contractCommit: Option<string>,
    contractPath: Option<string>,
    blobDigest: Option<string>,
    afterPayload: Option<string>,
    grantId: Option<string>)

  /** The payload of a verified cr.exec.attest.v1 token. */
  datatype AttestBody = AttestBody(kid: string, grantJti: Option<string>, resultDigest: Option<string>)

  datatype Source = NoObservation | Unavailable | Seen(o: Observation)

  /** repo is the object database that grading may read itself; attested verifies a token. */
  datatype Grading = Grading(
    source: Source,
    expected: Expected,
    repo: Option<Target>,
    token: Option<string>,
    attested: string -> Option<AttestBody>)

  datatype State = CarriedUnverified | ProvenByTrustedExecutor | NotRun

  /** ok is null for a check that could not be made. */
  datatype Check = Check(id: string, ok: Option<bool>)

  // ---------------------------------------------------------------- parents

  function ParentLine(line: string): seq<string> {
    if StartsWith(line, "parent ") then [Trim(line[7..])] else []
  }

  function ParentLines(lines: seq<string>): seq<string> {
    if lines == [] then [] else ParentLine(lines[0]) + ParentLines(lines[1..])
  }

  /** parentsOf reads every line of the printed commit that starts with "parent ", message lines too. */
  function ParentsOf(t: Target, commit: string): Option<seq<string>> {
    if commit !in t.commits then None
    else Some(t.commits[commit].parents + ParentLines(t.commits[commit].message))
  }

  // ---------------------------------------------------------------- the attestation

  function OrEmpty(s: Option<string>): string { if s.Some? then s.value else "" }

  function TransitionResultDigest(c: Crypto, o: Observation): string {
    Sha256Pref(c, Join([OrEmpty(o.before), o.observed, OrEmpty(o.blobDigest)], US))
  }

  predicate AttestationHolds(c: Crypto, g: Grading, o: Observation) {
    g.token.Some? && g.token.value != ""
    && var body := g.attested(g.token.value);
    && body.Some?
    && (g.expected.grantId.Some? && g.expected.grantId.value != "" ==> body.value.grantJti == g.expected.grantId)
    && body.value.resultDigest == Some(TransitionResultDigest(c, o))
  }

  // ---------------------------------------------------------------- the grade

  predicate SingleParent(g: Grading) {
    g.repo.Some? && g.expected.contractCommit.Some? && g.expected.contractCommit.value != "" ==>
      var parents := ParentsOf(g.repo.value, g.expected.contractCommit.value);
      parents.Some? && g.expected.base.Some? && parents.value == [g.expected.base.value]
  }

  predicate NoCompany(e: Expected, o: Observation) {
    e.contractPath.Some? ==>
      o.changedPaths.Some? && forall k :: 0 <= k < |o.changedPaths.value| ==> o.changedPaths.value[k] == e.contractPath.value
  }

  /** No check that was made failed. */
  predicate Passes(c: Crypto, g: Grading, o: Observation) {
    var e := g.expected;
    && (e.canonicalUri.Some? ==> o.canonicalUri == e.canonicalUri)
    && (e.repoId.Some? ==> o.lineage == e.repoId)
    && (e.ref.Some? ==> o.targetRef == e.ref.value)
    && e.contractCommit == Some(o.observed)
    && (e.base.Some? ==> o.before == e.base)
    && (e.contractPath.Some? ==> o.contractPath == e.contractPath.value)
    && (e.blobDigest.Some? ==> o.blobDigest == e.blobDigest)
    && (e.afterPayload.Some? ==> o.blobDigest == Some(Sha256Pref(c, e.afterPayload.value)))
    && SingleParent(g) && NoCompany(e, o)
    && o.mode == "read_only" && o.source == "git-object-database"
    && AttestationHolds(c, g, o)
  }

  predicate AnyFailed(checks: seq<Check>) {
    exists k :: 0 <= k < |checks| && checks[k].ok == Some(false)
  }

  /** `note`: record the check, and a failure when it does not hold. */
  method Note(checks: seq<Check>, failed: bool, id: string, ok: bool) returns (checks': seq<Check>, failed': bool)
    requires failed <==> AnyFailed(checks)
    ensures checks' == checks + [Check(id, Some(ok))]
    ensures failed' <==> failed || !ok
    ensures failed' <==> AnyFailed(checks')
  {
    checks', failed' := checks + [Check(id, Some(ok))], failed || !ok;
    assert checks'[|checks|].ok == Some(ok);
    if failed {
      var k :| 0 <= k < |checks| && checks[k].ok == Some(false);
      assert checks'[k].ok == Some(false);
    }
  }

  /** Identity and ref first, then the move itself. */
  method NoteMove(e: Expected, o: Observation) returns (checks: seq<Check>, failed: bool)
    ensures failed <==> AnyFailed(checks)
    ensures !failed <==>
            && (e.canonicalUri.Some? ==> o.canonicalUri == e.canonicalUri)
            && (e.repoId.Some? ==> o.lineage == e.repoId)
            && (e.ref.Some? ==> o.targetRef == e.ref.value)
            && e.contractCommit == Some(o.observed)
            && (e.base.Some? ==> o.before == e.base)
  {
    checks, failed := [], false;
    if e.canonicalUri.Some? { checks, failed := Note(checks, failed, "canonical_target_uri", o.canonicalUri == e.canonicalUri); }
    if e.repoId.Some? { checks, failed := Note(checks, failed, "repo_identity", o.lineage == e.repoId); }
    if e.ref.Some? { checks, failed := Note(checks, failed, "ref", o.targetRef == e.ref.value); }
    checks, failed := Note(checks, failed, "after_state_token", e.contractCommit == Some(o.observed));
    if e.base.Some? && o.before.Some? {
      checks, failed := Note(checks, failed, "state_transition", o.before == e.base);
    } else if e.base.Some? {
      checks, failed := Note(checks, failed, "state_transition", false);
    }
  }

  /** The bytes, twice. */
  method NoteBytes(c: Crypto, e: Expected, o: Observation, before: seq<Check>, failedBefore: bool)
    returns (checks: seq<Check>, failed: bool)
    requires failedBefore <==> AnyFailed(before)
    ensures before <= checks && (failed <==> AnyFailed(checks))
    ensures !failed <==>
            && !failedBefore
            && (e.contractPath.Some? ==> o.contractPath == e.contractPath.value)
            && (e.blobDigest.Some? ==> o.blobDigest == e.blobDigest)
            && (e.afterPayload.Some? ==> o.blobDigest == Some(Sha256Pref(c, e.afterPayload.value)))
  {
    checks, failed := before, failedBefore;
    if e.contractPath.Some? { checks, failed := Note(checks, failed, "contract_path", o.contractPath == e.contractPath.value); }
    if e.blobDigest.Some? { checks, failed := Note(checks, failed, "blob_digest", o.blobDigest == e.blobDigest); }
    if e.afterPayload.Some? {
      checks, failed := Note(checks, failed, "after_payload", o.blobDigest == Some(Sha256Pref(c, e.afterPayload.value)));
    }
  }

  /** Single parent, nothing else moved, a read-only observer, and the executor's token. */
  method NoteCompany(c: Crypto, g: Grading, o: Observation, before: seq<Check>, failedBefore: bool)
    returns (checks: seq<Check>, failed: bool)
    requires failedBefore <==> AnyFailed(before)
    ensures before <= checks && (failed <==> AnyFailed(checks))
    ensures !failed <==>
            && !failedBefore && SingleParent(g) && NoCompany(g.expected, o)
            && o.mode == "read_only" && o.source == "git-object-database" && AttestationHolds(c, g, o)
  {
    checks, failed := before, failedBefore;
    if g.repo.Some? && g.expected.contractCommit.Some? && g.expected.contractCommit.value != "" {
      checks, failed := Note(checks, failed, "single_parent", SingleParent(g));
    } else {
      checks := checks + [Check("single_parent", None)];
      assert AnyFailed(checks) <==> AnyFailed(before) by {
        if k :| 0 <= k < |before| && before[k].ok == Some(false) { assert checks[k].ok == Some(false); }
      }
    }
    if g.expected.contractPath.Some? {
      checks, failed := Note(checks, failed, "no_unauthorized_company", NoCompany(g.expected, o));
    }
    checks, failed := Note(checks, failed, "observer_mode", o.mode == "read_only");
    checks, failed := Note(checks, failed, "observation_source", o.source == "git-object-database");
    checks, failed := Note(checks, failed, "executor_attested", AttestationHolds(c, g, o));
  }

  method GradeStateTransition(c: Crypto, g: Grading) returns (state: State, checks: seq<Check>)
    ensures state == StateOf(c, g)
    ensures state == ProvenByTrustedExecutor ==> !AnyFailed(checks)
  {
    match g.source
    case NoObservation => return CarriedUnverified, [];
    case Unavailable => return NotRun, [];
    case Seen(o) =>
      var failed;
      checks, failed := NoteMove(g.expected, o);
      checks, failed := NoteBytes(c, g.expected, o, checks, failed);
      checks, failed := NoteCompany(c, g, o, checks, failed);
      state := if failed then CarriedUnverified else ProvenByTrustedExecutor;
  }

  function StateOf(c: Crypto, g: Grading): State {
    match g.source
    case NoObservation => CarriedUnverified
    case Unavailable => NotRun
    case Seen(o) => if Passes(c, g, o) then ProvenByTrustedExecutor else CarriedUnverified
  }

  // ---------------------------------------------------------------- what a PROVEN pins

  /** A grading with everything supplied, over the observer's own reading of the target. */
  ghost predicate Complete(c: Crypto, g: Grading, t: Target, o: Observation) {
    var e := g.expected;
    && g.source == Seen(o) && g.repo == Some(t)
    && e.canonicalUri.Some? && e.repoId.Some? && e.ref.Some? && e.base.Some? && e.contractCommit.Some?
    && e.contractPath.Some? && e.blobDigest.Some? && e.afterPayload.Some? && e.grantId.Some?
    && e.contractCommit.value != ""
    && Observes(c, t, e.ref.value, e.contractPath.value, o)
  }

  /** The ref went from base to the authorized commit, whose tree is base's with the authorized bytes in place. */
  predicate TreeMoved(t: Target, e: Expected)
    requires e.ref.Some? && e.base.Some? && e.contractCommit.Some? && e.contractPath.Some? && e.afterPayload.Some?
  {
    && e.ref.value in t.refs && t.refs[e.ref.value] == e.contractCommit.value
    && e.ref.value in t.previous && t.previous[e.ref.value] == e.base.value
    && e.base.value in t.commits && e.contractCommit.value in t.commits
    && t.commits[e.contractCommit.value].tree
       == t.commits[e.base.value].tree[e.contractPath.value := e.afterPayload.value]
  }

  /** And in one step: base is the commit's only parent. */
  predicate ExactMove(t: Target, e: Expected)
    requires e.ref.Some? && e.base.Some? && e.contractCommit.Some? && e.contractPath.Some? && e.afterPayload.Some?
  {
    TreeMoved(t, e) && t.commits[e.contractCommit.value].parents == [e.base.value]
  }

  /** The rest of what grading compares: labels and the executor's token. */
  predicate Labelled(c: Crypto, g: Grading, o: Observation) {
    && o.canonicalUri == g.expected.canonicalUri && o.lineage == g.expected.repoId
    && AttestationHolds(c, g, o)
  }

  /** A path git prints as it is, with nothing to trim. */
  predicate Plain(path: string) {
    path != "" && !Unusual(path) && !IsSpace(path[0]) && !IsSpace(path[|path| - 1])
  }

  /** A file of this name passes for the governed path, or for nothing, once printed and trimmed. */
  predicate PassesFor(t: Target, name: string, path: string) { Trim(Shown(t, name)) in ["", path] }

  predicate Blends(t: Target, name: string, path: string) { name != path && PassesFor(t, name, path) }

  lemma PlainPasses(t: Target, path: string)
    requires Plain(path)
    ensures PassesFor(t, path, path)
  {
    TrimKeeps(path);
  }

  predicate NoBlending(t: Target, path: string) {
    forall c, p :: c in t.commits && p in t.commits[c].tree ==> !Blends(t, p, path)
  }

  /** The commit has a true parent. */
  predicate HasParent(t: Target, commit: string) { commit in t.commits ==> t.commits[commit].parents != [] }

  /** A line of this message reads as a parent header. */
  predicate NamesParent(lines: seq<string>) { exists k :: 0 <= k < |lines| && StartsWith(lines[k], "parent ") }

  lemma {:induction false} NoParentLines(lines: seq<string>)
    ensures ParentLines(lines) == [] <==> !NamesParent(lines)
  {
    if lines != [] {
      NoParentLines(lines[1..]);
      if k :| 0 <= k < |lines| && StartsWith(lines[k], "parent ") {
        if k > 0 { assert lines[1..][k - 1] == lines[k]; }
      }
      if j :| 0 <= j < |lines[1..]| && StartsWith(lines[1..][j], "parent ") { assert lines[j + 1] == lines[1..][j]; }
    }
  }

  /** The parents read are the commit's parents exactly when no line of its message reads as one. */
  lemma ParentsAreTrue(t: Target, commit: string)
    requires commit in t.commits
    ensures ParentsOf(t, commit) == Some(t.commits[commit].parents) <==> !NamesParent(t.commits[commit].message)
  {
    NoParentLines(t.commits[commit].message);
    var parents, more := t.commits[commit].parents, ParentLines(t.commits[commit].message);
    assert |parents + more| == |parents| + |more|;
    assert parents + [] == parents;
  }

  /** Base is read as the only parent in one of two ways, and only one of them is true. */
  lemma OneParentRead(parents: seq<string>, more: seq<string>, base: string)
    ensures parents + more == [base] <==> (parents == [base] && more == []) || (parents == [] && more == [base])
  {
    if parents + more == [base] {
      assert |parents| + |more| == 1;
      if parents == [] { assert more == parents + more; } else { assert more == [] && parents == parents + more; }
    }
  }

  /** Only the governed path is reported exactly when everything that changed passes for it. */
  lemma ReportedIsChanged(t: Target, changed: set<string>, names: seq<string>, path: string)
    requires Reports(t, changed, names)
    ensures (forall k :: 0 <= k < |names| ==> names[k] == path) <==> (forall p :: p in changed ==> PassesFor(t, p, path))
  {
    if forall k :: 0 <= k < |names| ==> names[k] == path {
      forall p | p in changed ensures PassesFor(t, p, path) {
        var x := Trim(Shown(t, p));
        assert x != "" ==> x in names;
      }
    }
    if forall p :: p in changed ==> PassesFor(t, p, path) {
      forall k | 0 <= k < |names| ensures names[k] == path {
        assert names[k] in names;
        var p :| p in changed && Trim(Shown(t, p)) == names[k];
      }
    }
  }

  lemma TreeFromChanges(a: map<string, string>, b: map<string, string>, path: string, bytes: string)
    requires path in b && b[path] == bytes
    ensures b == a[path := bytes] <==> forall p :: Differs(a, b, p) ==> p == path
  {
    if forall p :: Differs(a, b, p) ==> p == path {
      forall p | p != path ensures (p in a <==> p in b) && (p in a ==> a[p] == b[p]) { assert !Differs(a, b, p); }
      assert b == a[path := bytes];
    }
    if b == a[path := bytes] {
      forall p | Differs(a, b, p) ensures p == path {}
    }
  }

  /** The governed path is shown as itself, or the move left its bytes as they were. */
  predicate PathShows(t: Target, e: Expected)
    requires e.base.Some? && e.contractCommit.Some? && e.contractPath.Some?
  {
    && e.base.value in t.commits && e.contractCommit.value in t.commits
    && (Differs(t.commits[e.base.value].tree, t.commits[e.contractCommit.value].tree, e.contractPath.value) ==>
          PassesFor(t, e.contractPath.value, e.contractPath.value))
  }

  /** What grading pins, whatever the parents are. */
  lemma ProvenMeansTreeMoved(c: Crypto, g: Grading, t: Target, o: Observation)
    requires IdealHash(c) && Complete(c, g, t, o)
    requires g.expected.blobDigest == Some(Sha256Pref(c, g.expected.afterPayload.value))
    requires NoBlending(t, g.expected.contractPath.value)
    ensures StateOf(c, g) == ProvenByTrustedExecutor <==>
            TreeMoved(t, g.expected) && PathShows(t, g.expected) && Labelled(c, g, o)
            && ParentsOf(t, g.expected.contractCommit.value) == Some([g.expected.base.value])
  {
    var e := g.expected;
    var path, base, commit := e.contractPath.value, e.base.value, e.contractCommit.value;
    if base in t.commits && commit in t.commits && o.before == Some(base) && o.observed == commit {
      var a, b := t.commits[base].tree, t.commits[commit].tree;
      ReportedIsChanged(t, Changed(a, b), o.changedPaths.value, path);
      forall p | p in Changed(a, b) && p != path ensures !PassesFor(t, p, path) {
        assert p in t.commits[base].tree || p in t.commits[commit].tree;
        assert !Blends(t, p, path);
      }
      if path in b {
        BytesByDigest(c, b[path], e.afterPayload.value);
        if b[path] == e.afterPayload.value { TreeFromChanges(a, b, path, e.afterPayload.value); }
      }
    }
  }

  /**
   * THE CHECKS PIN THE WHOLE TREE. With every expectation supplied over the observer's own reading, the
   * grade of a commit that has a parent is PROVEN exactly when the ref went from base to that commit,
   * whose only parent is base and whose tree is base's with only the governed path replaced by the
   * authorized bytes (and the labels and the token agree, the governed path is shown as itself or its
   * bytes are as before, and no line of the commit's own message reads as a parent), as long as no other
   * file name passes for the governed path.
   */
  lemma ProvenMeansExactMove(c: Crypto, g: Grading, t: Target, o: Observation)
    requires IdealHash(c) && Complete(c, g, t, o)
    requires g.expected.blobDigest == Some(Sha256Pref(c, g.expected.afterPayload.value))
    requires NoBlending(t, g.expected.contractPath.value)
    requires HasParent(t, g.expected.contractCommit.value)
    ensures StateOf(c, g) == ProvenByTrustedExecutor <==>
            ExactMove(t, g.expected) && PathShows(t, g.expected) && Labelled(c, g, o)
            && !NamesParent(t.commits[g.expected.contractCommit.value].message)
  {
    ProvenMeansTreeMoved(c, g, t, o);
    var commit, base := g.expected.contractCommit.value, g.expected.base.value;
    if commit in t.commits {
      OneParentRead(t.commits[commit].parents, ParentLines(t.commits[commit].message), base);
      NoParentLines(t.commits[commit].message);
    }
  }

  /** An exact move is refused when its own message says "parent" of anything. */
  lemma OwnParentLineRefuses(c: Crypto, g: Grading, t: Target, o: Observation)
    requires Complete(c, g, t, o) && ExactMove(t, g.expected)
    requires NamesParent(t.commits[g.expected.contractCommit.value].message)
    ensures StateOf(c, g) == CarriedUnverified
  {
    ParentsAreTrue(t, g.expected.contractCommit.value);
  }

  /** An exact move of a path that git quotes, or that has blanks at its ends, is refused if it changes any byte. */
  lemma OddPathRefuses(c: Crypto, g: Grading, t: Target, o: Observation)
    requires Complete(c, g, t, o) && ExactMove(t, g.expected) && !PathShows(t, g.expected)
    ensures StateOf(c, g) == CarriedUnverified
  {
    var path := g.expected.contractPath.value;
    var a, b := t.commits[g.expected.base.value].tree, t.commits[g.expected.contractCommit.value].tree;
    ReportedIsChanged(t, Changed(a, b), o.changedPaths.value, path);
    assert path in Changed(a, b);
  }

  lemma BytesByDigest(c: Crypto, a: string, b: string)
    requires IdealHash(c)
    ensures Sha256Pref(c, a) == Sha256Pref(c, b) <==> a == b
  {
    if Sha256Pref(c, a) == Sha256Pref(c, b) { DigestInjective(c, a, b); }
  }

  // ---------------------------------------------------------------- both conditions are needed

  const REF := "refs/heads/main"

  /** A target moved from base "b" to commit "c". */
  function Moved(spell: string -> string, before: map<string, string>, after: CommitObject): Target {
    Target(map[REF := "c"], map[REF := "b"], map["b" := CommitObject([], [], before), "c" := after], map[REF := "r"], spell)
  }

  /** The observer's reading of such a target when the changed names print as names. */
  function ReadingOf(c: Crypto, path: string, payload: string, names: seq<string>): Observation {
    Observation(REF, Some("git-root:r"), Some("b"), "c", path, Some(Sha256Pref(c, payload)), Some(names),
                "git-object-database", "read_only", Some("git://t"))
  }

  /** A grading of that reading in which every label and the token agree. */
  function AgreeingGrading(c: Crypto, t: Target, path: string, payload: string, o: Observation): Grading {
    var digest := TransitionResultDigest(c, o);
    Grading(Seen(o),
            Expected(Some("git://t"), Some("git-root:r"), Some(REF), Some("b"), Some("c"), Some(path),
                     Some(Sha256Pref(c, payload)), Some(payload), Some("g")),
            Some(t), Some("token"), (token: string) => Some(AttestBody("kid", Some("g"), Some(digest))))
  }

  /** Whatever else the commit holds, this reading passes once parents and names read as they should. */
  lemma AgreeingPasses(c: Crypto, spell: string -> string, before: map<string, string>, after: CommitObject, path: string,
                       payload: string, names: seq<string>)
    requires path in after.tree && after.tree[path] == payload && forall k :: 0 <= k < |names| ==> names[k] == path
    requires var t := Moved(spell, before, after);
             ParentsOf(t, "c") == Some(["b"]) && Reports(t, Changed(before, after.tree), names)
    ensures var t := Moved(spell, before, after);
            var o := ReadingOf(c, path, payload, names);
            var g := AgreeingGrading(c, t, path, payload, o);
            Complete(c, g, t, o) && StateOf(c, g) == ProvenByTrustedExecutor
  {
    var t, o := Moved(spell, before, after), ReadingOf(c, path, payload, names);
    assert "git-root:" + "r" == "git-root:r";
    assert ContentIs(c, t, "c", path, o.blobDigest);
    assert Observes(c, t, REF, path, o);
  }

  /** What is reported when only this name changed. */
  function NamesOf(t: Target, name: string): seq<string> {
    if Trim(Shown(t, name)) == "" then [] else [Trim(Shown(t, name))]
  }

  lemma NamesReported(t: Target, name: string)
    ensures Reports(t, {name}, NamesOf(t, name))
  {
    assert name in {name};
  }

  /** The governed file as it stays, with another one beside it. */
  function After(path: string, payload: string, name: string): map<string, string> {
    map[path := payload, name := "smuggled"]
  }

  lemma AfterChanges(path: string, payload: string, name: string)
    requires name != path
    ensures Changed(map[path := payload], After(path, payload, name)) == {name}
    ensures path in After(path, payload, name) && After(path, payload, name)[path] == payload
    ensures After(path, payload, name) != map[path := payload]
  {
    var a, b := map[path := payload], After(path, payload, name);
    assert Differs(a, b, name) && name !in a;
  }

  /**
   * A file whose printed, trimmed name is the governed path, or nothing, travels unseen: for every such
   * name there is a grading that is PROVEN although the tree changed there too.
   */
  lemma BlendingNameSmuggles(c: Crypto, spell: string -> string, name: string, path: string, payload: string, names: set<string>)
    returns (g: Grading, t: Target, o: Observation)
    requires Blends(Moved(spell, map[], CommitObject([], [], map[])), name, path) && name in names && path in names
    ensures Complete(c, g, t, o) && HasParent(t, g.expected.contractCommit.value)
    ensures t.spell == spell && g.expected.contractPath == Some(path)
    ensures Named(t, names) && g.expected.blobDigest == Some(Sha256Pref(c, g.expected.afterPayload.value))
    ensures StateOf(c, g) == ProvenByTrustedExecutor && !ExactMove(t, g.expected)
  {
    var before, after := map[path := payload], CommitObject(["b"], [], After(path, payload, name));
    t := Moved(spell, before, after);
    var shown := NamesOf(t, name);
    o := ReadingOf(c, path, payload, shown);
    g := AgreeingGrading(c, t, path, payload, o);
    AfterChanges(path, payload, name);
    assert Shown(t, name) == Shown(Moved(spell, map[], CommitObject([], [], map[])), name);
    NamesReported(t, name);
    assert ["b"] + [] == ["b"];
    AgreeingPasses(c, spell, before, after, path, payload, shown);
  }

  /** The simplest such name: the governed path with a blank in front. */
  lemma BlankPrefixBlends(t: Target, path: string)
    requires Plain(path)
    ensures Blends(t, " " + path, path)
  {
    var name := " " + path;
    assert name[1..] == path && |name| == |path| + 1;
    assert forall i :: 0 <= i < |name| ==> !UnusualChar(name[i]) by {
      assert forall i :: 0 <= i < |path| ==> !UnusualChar(path[i]);
      assert forall i :: 1 <= i < |name| ==> name[i] == path[i - 1];
    }
    assert TrimStart(name) == TrimStart(path) == path;
    TrimKeeps(path);
  }

  lemma ForgedParents(t: Target)
    requires "c" in t.commits && t.commits["c"].parents == [] && t.commits["c"].message == ["parent b"]
    ensures ParentsOf(t, "c") == Some(["b"])
  {
    TrimKeeps("b");
    assert "parent b"[7..] == "b";
    var lines := t.commits["c"].message;
    assert StartsWith(lines[0], "parent ") && lines[0][7..] == "b";
    assert ParentLine(lines[0]) == ["b"] && lines[1..] == [];
    assert ParentLines(lines) == ["b"] + ParentLines([]);
    assert ["b"] + [] == ["b"] && [] + ["b"] == ["b"];
  }

  /** A commit without any parent passes for a child of base when its message says "parent <base>". */
  lemma MessageForgesParent(c: Crypto, spell: string -> string, path: string, payload: string)
    returns (g: Grading, t: Target, o: Observation)
    ensures Complete(c, g, t, o) && NoBlending(t, path) && g.expected.contractPath == Some(path)
    ensures g.expected.blobDigest == Some(Sha256Pref(c, g.expected.afterPayload.value))
    ensures g.expected.contractCommit.value in t.commits && t.commits[g.expected.contractCommit.value].parents == []
    ensures StateOf(c, g) == ProvenByTrustedExecutor && !ExactMove(t, g.expected)
  {
    var before, after := map[path := payload], CommitObject([], ["parent b"], map[path := payload]);
    t := Moved(spell, before, after);
    o := ReadingOf(c, path, payload, []);
    g := AgreeingGrading(c, t, path, payload, o);
    assert Changed(before, after.tree) == {};
    ForgedParents(t);
    AgreeingPasses(c, spell, before, after, path, payload, []);
  }

  /** Every file name of the target's commits is one of names. */
  predicate Named(t: Target, names: set<string>) {
    forall c, p :: c in t.commits && p in t.commits[c].tree ==> p in names
  }

  /** A complete grading of this path, over a commit with a parent and these file names, graded PROVEN. */
  ghost predicate ProvenOver(c: Crypto, spell: string -> string, names: set<string>, path: string, g: Grading, t: Target,
                             o: Observation)
  {
    && Complete(c, g, t, o) && t.spell == spell && Named(t, names) && HasParent(t, g.expected.contractCommit.value)
    && g.expected.contractPath == Some(path) && g.expected.blobDigest == Some(Sha256Pref(c, g.expected.afterPayload.value))
    && StateOf(c, g) == ProvenByTrustedExecutor
  }

  /** Over targets with these file names, every PROVEN grade of this path is an exact move. */
  ghost predicate ProvenIsExact(c: Crypto, spell: string -> string, names: set<string>, path: string) {
    forall g, t, o :: ProvenOver(c, spell, names, path, g, t, o) ==> ExactMove(t, g.expected)
  }

  /** None of the names, printed and trimmed, reads as the governed path or as nothing. */
  predicate NamesClear(spell: string -> string, names: set<string>, path: string) {
    forall n :: n in names ==> !Blends(Moved(spell, map[], CommitObject([], [], map[])), n, path)
  }

  lemma ClearNamesAreExact(c: Crypto, spell: string -> string, names: set<string>, path: string, g: Grading, t: Target,
                           o: Observation)
    requires IdealHash(c) && NamesClear(spell, names, path) && ProvenOver(c, spell, names, path, g, t, o)
    ensures ExactMove(t, g.expected)
  {
    forall k, p | k in t.commits && p in t.commits[k].tree ensures !Blends(t, p, path) {
      assert p in names && Shown(t, p) == Shown(Moved(spell, map[], CommitObject([], [], map[])), p);
    }
    ProvenMeansExactMove(c, g, t, o);
  }

  /**
   * NAMES DECIDE. PROVEN means an exact move for all commits with a parent and the given file names if and only if
   * none of those names, printed and trimmed, reads as the governed path or as nothing.
   */
  lemma NamesDecide(c: Crypto, spell: string -> string, names: set<string>, path: string)
    requires IdealHash(c) && path in names
    ensures ProvenIsExact(c, spell, names, path) <==> NamesClear(spell, names, path)
  {
    if NamesClear(spell, names, path) {
      forall g, t, o | ProvenOver(c, spell, names, path, g, t, o) ensures ExactMove(t, g.expected) {
        ClearNamesAreExact(c, spell, names, path, g, t, o);
      }
    } else {
      var n :| n in names && Blends(Moved(spell, map[], CommitObject([], [], map[])), n, path);
      var g, t, o := BlendingNameSmuggles(c, spell, n, path, "new", names);
      assert ProvenOver(c, spell, names, path, g, t, o);
    }
  }

  /** A complete grading of this path, over clear names and a commit with exactly these parents, graded PROVEN. */
  ghost predicate ProvenWith(c: Crypto, parents: seq<string>, path: string, g: Grading, t: Target, o: Observation) {
    && Complete(c, g, t, o) && NoBlending(t, path)
    && g.expected.contractPath == Some(path) && g.expected.blobDigest == Some(Sha256Pref(c, g.expected.afterPayload.value))
    && g.expected.contractCommit.value in t.commits && t.commits[g.expected.contractCommit.value].parents == parents
    && StateOf(c, g) == ProvenByTrustedExecutor
  }

  /** Whatever the commit with these parents says in its message, PROVEN means an exact move. */
  ghost predicate ParentsSuffice(c: Crypto, parents: seq<string>, path: string) {
    forall g, t, o :: ProvenWith(c, parents, path, g, t, o) ==> ExactMove(t, g.expected)
  }

  /**
   * PARENTS DECIDE. PROVEN means an exact move for every message of the authorized commit if and only if
   * that commit has a parent.
   */
  lemma ParentsDecide(c: Crypto, parents: seq<string>, path: string)
    requires IdealHash(c)
    ensures ParentsSuffice(c, parents, path) <==> parents != []
  {
    if parents != [] {
      forall g, t, o | ProvenWith(c, parents, path, g, t, o) ensures ExactMove(t, g.expected) {
        ProvenMeansExactMove(c, g, t, o);
      }
    } else {
      var g, t, o := MessageForgesParent(c, (p: string) => p, path, "new");
      assert ProvenWith(c, [], path, g, t, o);
    }
  }
}
