/**
 * Recovery from arbitrary evidence. Three adapters seal under one preimage prefix, so a key may have signed
 * for all of them: what can then pass for a git move, and what cannot.
 */
module GitEvidence {
  import opened Text
  import opened Crypto
  import opened GitStore
  import opened GitProtocol
  import opened GitSafety
  import opened GitRecovery
  import opened GitMarkers
  import opened GitRecoveryExact
  import opened GitReclaimBound
  import opened Reconcile
  import Attestation
  import HttpOrigin
  import Postgres

  // ---------------------------------------------------------------- what passes for what

  /** These signed bytes name this grant and this deployment. */
  predicate Names(p: string, jti: string, deployment: string) {
    var f := Split(p, '|');
    |f| >= 3 && f[0] == Attestation.GATE_PREIMAGE_V && f[1] == jti && f[2] == deployment
  }

  predicate TargetPasses(p: string, expected: Option<Expected>) {
    CompareTarget(p, expected) != Compared(false) && CompareTarget(p, expected) != NoTargetField
  }

  /** And a target that reads as this ref. */
  predicate PassesForRef(p: string, jti: string, deployment: string, ref: string) {
    Names(p, jti, deployment) && TargetPasses(p, Some(GitRef(ref)))
  }

  /** A token sealed over a preimage passes the gate exactly when the preimage names the grant and its target passes. */
  lemma SealedPassesIff(c: Crypto, t: Trust, key: Key, kid: string, p: string, jti: string, expected: Option<Expected>)
    requires Ideal(c) && SignerInForce(t, kid, key) && p != "" && jti != ""
    ensures VerifyStored(c, TokenText(Attestation.Encode(c, kid, p, c.sign(key, p))), jti, t.deployment, t.keys, t.asOf,
                         expected).Proven?
       <==> Names(p, jti, t.deployment) && TargetPasses(p, expected)
  {
    Attestation.TokenSegments(c, key, kid, p);
    assert Segment(c.b64(p)) && Segment(c.sign(key, p));
    assert "" !in [Attestation.ATOMIC_ATTEST_V, kid, c.b64(p), c.sign(key, p)];
  }

  lemma TargetField(jti: string, deployment: string, mutation: string, target: string)
    requires '|' !in jti && '|' !in deployment && '|' !in mutation
    ensures var f := Split(Attestation.Preimage(jti, deployment, mutation, target), '|');
            |f| >= 5 && f[0] == Attestation.GATE_PREIMAGE_V && f[1] == jti && f[2] == deployment
            && f[4] == Split(target, '|')[0]
  {
    var head := [Attestation.GATE_PREIMAGE_V, jti, deployment, "sha256:" + mutation];
    JoinSnoc(head, target, '|');
    assert head + [target] == [Attestation.GATE_PREIMAGE_V, jti, deployment, "sha256:" + mutation, target];
    SplitAppend(head, target, '|');
  }

  /** What HTTP executions sign never passes for a ref: a path starts with '/', a descriptor with "git:". */
  lemma HttpNeverPassesForRef(c: Crypto, call: HttpOrigin.Call, jti: string, deployment: string, ref: string)
    requires IdealHash(c) && HttpOrigin.Precheck(call).None? && ref != ""
    ensures !PassesForRef(HttpOrigin.SealedPreimage(c, call), jti, deployment, ref)
  {
    var fields := [call.resourcePath, call.jti, call.deployment, call.pin];
    assert '|' !in fields[0] && '|' !in fields[1] && '|' !in fields[2];
    var input := Join([HttpOrigin.Verb(call), call.resourcePath, call.pin, call.wireBody], US);
    DigestFree(c, input, '|');
    TargetField(call.jti, call.deployment, c.sha256hex(input), call.resourcePath);
    SplitsIfIn(call.resourcePath, '|');
    JoinSplit(call.resourcePath, '|');
    assert call.resourcePath[0] == '/';
  }

  /** Nor what git executions sign for a path. */
  lemma GitNeverPassesForPath(c: Crypto, call: Call, jti: string, deployment: string, path: string)
    requires IdealHash(c) && Precheck(call).None? && StartsWith(path, "/")
    ensures !(Names(SealedPreimage(c, call), jti, deployment) && TargetPasses(SealedPreimage(c, call), Some(Exact(path))))
  {
    FieldsAreFree(c, call);
    var mutation := c.sha256hex(Join([call.ref, call.pin.value, call.newSha, call.operation], US));
    Attestation.PreimageFields(call.jti, call.deployment, mutation,
                               GitTargetDescriptor(call.ref, call.pin.value, call.newSha));
    assert GitTargetDescriptor(call.ref, call.pin.value, call.newSha)[0] == 'g' && path[0] == '/';
  }

  /**
   * What a Postgres execution signs passes for a ref exactly when it is for the same grant and deployment
   * and its target id, up to a delimiter, is spelt like a git descriptor of that ref.
   */
  lemma PostgresPassesForRefIff(c: Crypto, call: Postgres.Call, m: Postgres.Mutation, jti: string, deployment: string,
                                ref: string)
    requires IdealHash(c) && ref != "" && '|' !in Postgres.KeyOf(call).1 && '|' !in call.deployment
    ensures PassesForRef(Postgres.GatePreimage(c, call, m), jti, deployment, ref) <==>
            Postgres.KeyOf(call).1 == jti && call.deployment == deployment
            && GitRefOfTarget(Split(call.targetId, '|')[0]) == Some(ref)
  {
    MutationIsFree(c, m);
    TargetField(Postgres.KeyOf(call).1, call.deployment, Postgres.MutationDigest(c, m), call.targetId);
  }

  lemma MutationIsFree(c: Crypto, m: Postgres.Mutation)
    requires IdealHash(c)
    ensures '|' !in Postgres.MutationDigest(c, m)
  {
    DigestFree(c, if m.NoRow? then Join(["", "", ""], US) else Join([m.id, m.title, m.body], US), '|');
  }

  // ---------------------------------------------------------------- over every run

  /**
   * The manifest's keys verify, of gate preimages, only those the git executors of this run signed, and
   * those sealed elsewhere under the same keys.
   */
  ghost predicate SignsOnlySealed(cfg: Config, s: State, keys: Manifest, elsewhere: set<string>) {
    forall e, m, sig :: e in keys && e.key.Some? && cfg.host.crypto.verify(e.key.value, m, sig)
                        && StartsWith(m, Attestation.GATE_PREIMAGE_V + "|") ==>
      m in elsewhere || SignedHere(cfg, s, m)
  }

  ghost predicate SignedHere(cfg: Config, s: State, m: string) {
    exists i :: i in s.signed && SignedMessage(cfg, s, i, m)
  }

  predicate SignedMessage(cfg: Config, s: State, i: nat, m: string) {
    i < |s.execs| && s.execs[i].call.pin.Some? && m == SealedPreimage(cfg.host.crypto, s.execs[i].call)
  }

  lemma NamesStart(p: string, jti: string, deployment: string)
    requires Names(p, jti, deployment)
    ensures StartsWith(p, Attestation.GATE_PREIMAGE_V + "|")
  {
    JoinSplit(p, '|');
    assert p == Attestation.GATE_PREIMAGE_V + ['|'] + Join(Split(p, '|')[1..], '|');
  }

  /** Whatever the gate proves for a ref was verified as bytes that pass for it. */
  lemma ProvenPasses(c: Crypto, t: Trust, stored: Stored, jti: string, ref: string) returns (e: KeyEntry, p: string, sig: string)
    requires jti != "" && ref != ""
    requires VerifyStored(c, stored, jti, t.deployment, t.keys, t.asOf, Some(GitRef(ref))).Proven?
    ensures t.keys.Some? && e in t.keys.value && e.key.Some? && c.verify(e.key.value, p, sig)
    ensures PassesForRef(p, jti, t.deployment, ref)
  {
    GateIsSound(c, stored, jti, t.deployment, t.keys, t.asOf, Some(GitRef(ref)));
    e :| e in t.keys.value && ProvenBy(c, stored.token, e, jti, t.deployment, t.asOf, Some(GitRef(ref)));
    p, sig := c.unb64(Split(stored.token, '|')[2]), Split(stored.token, '|')[3];
  }

  /** The signed preimage names its grant, so by one use a signer for the same grant is the mover. */
  lemma SignedIsMover(cfg: Config, s: State, i: nat, k: nat, deployment: string)
    requires IdealHash(cfg.host.crypto) && Safe(cfg, s) && i in s.signed && k < |s.moves|
    requires i < |s.execs| && s.execs[i].call.pin.Some?
    requires Names(SealedPreimage(cfg.host.crypto, s.execs[i].call), s.moves[k].jti, deployment)
    ensures i == s.moves[k].exec
  {
    var c, call := cfg.host.crypto, s.execs[i].call;
    assert SignedOk(s, i);
    FieldsAreFree(c, call);
    Attestation.PreimageFields(call.jti, call.deployment,
                               c.sha256hex(Join([call.ref, call.pin.value, call.newSha, call.operation], US)),
                               GitTargetDescriptor(call.ref, call.pin.value, call.newSha));
    var n :| 0 <= n < |s.moves| && s.moves[n] == MoveOf(i, call);
    assert n == k;
  }

  /** Something sealed elsewhere passes for this move. */
  predicate PassesElsewhere(elsewhere: set<string>, m: Move, deployment: string) {
    exists p :: p in elsewhere && PassesForRef(p, m.jti, deployment, m.ref)
  }

  /** A token the gate proves for a landed move was signed by that move's own call, or passes for it from elsewhere. */
  lemma ProvenWasSigned(cfg: Config, s: State, t: Trust, elsewhere: set<string>, stored: Stored, k: nat)
    requires IdealHash(cfg.host.crypto) && Safe(cfg, s) && k < |s.moves| && s.moves[k].ref != ""
    requires t.keys.Some? ==> SignsOnlySealed(cfg, s, t.keys.value, elsewhere)
    requires VerifyStored(cfg.host.crypto, stored, s.moves[k].jti, t.deployment, t.keys, t.asOf,
                          Some(GitRef(s.moves[k].ref))).Proven?
    ensures s.moves[k].exec in s.signed || PassesElsewhere(elsewhere, s.moves[k], t.deployment)
  {
    var m := s.moves[k];
    assert MoveOk(s, m);
    var e, p, sig := ProvenPasses(cfg.host.crypto, t, stored, m.jti, m.ref);
    NamesStart(p, m.jti, t.deployment);
    if p !in elsewhere {
      assert SignedHere(cfg, s, p);
      var i :| i in s.signed && SignedMessage(cfg, s, i, p);
      SignedIsMover(cfg, s, i, k, t.deployment);
    }
  }

  /** A CONFIRMED entry's token passed the gate for the move it is about. */
  lemma ConfirmedWasProven(c: Crypto, mv: RefMove, r: LedgerReport, atts: Attestations, t: Trust)
    requires GitEntryOf(c, mv, r, atts, t).outcome == Confirmed
    ensures mv.jti in atts
    ensures VerifyStored(c, atts[mv.jti], mv.jti, t.deployment, t.keys, t.asOf, Some(GitRef(mv.ref))).Proven?
  {
  }

  /** The landed move behind the n-th entry. */
  lemma MoveBehind(cfg: Config, acts: seq<Action>, s: State, refs: seq<string>, ledger: seq<LedgerEntry>, n: nat)
    returns (k: nat)
    requires Reached(cfg, acts, s, refs, ledger) && n < |MovesIn(s.repo, refs)|
    ensures Safe(cfg, s) && k < |s.moves| && s.moves[k].ref != ""
    ensures RefMove(s.moves[k].ref, s.moves[k].jti) == MovesIn(s.repo, refs)[n]
  {
    RecordedRun(cfg, acts);
    k := LandedBehind(cfg, s, refs, MovesIn(s.repo, refs)[n]);
  }

  /**
   * UNSIGNED IS NEVER CONFIRMED. Whatever is handed to the reader as evidence, and in whatever state, a
   * reported move is CONFIRMED only if the call that landed it went on to sign, or if something sealed
   * elsewhere under the same keys passes for it: a call that crashed between its move and its seal is
   * never confirmed by anything git or HTTP executions sign.
   */
  lemma UnsignedIsNeverConfirmed(cfg: Config, acts: seq<Action>, s: State, t: Trust, elsewhere: set<string>,
                                 refs: seq<string>, atts: Attestations, ledger: seq<LedgerEntry>, n: nat)
    returns (k: nat)
    requires Reached(cfg, acts, s, refs, ledger) && n < |MovesIn(s.repo, refs)|
    requires t.keys.Some? ==> SignsOnlySealed(cfg, s, t.keys.value, elsewhere)
    ensures k < |s.moves| && RefMove(s.moves[k].ref, s.moves[k].jti) == MovesIn(s.repo, refs)[n]
    ensures n < |EntriesOf(cfg, s, refs, ledger, atts, t)|
    ensures EntriesOf(cfg, s, refs, ledger, atts, t)[n].outcome == Confirmed ==>
              s.moves[k].exec in s.signed || PassesElsewhere(elsewhere, s.moves[k], t.deployment)
  {
    k := MoveBehind(cfg, acts, s, refs, ledger, n);
    var report := LedgerReportOf(cfg.host.crypto, ledger, MovesIn(s.repo, refs), atts);
    EntryAt(cfg.host.crypto, report, atts, t, n);
    if EntriesOf(cfg, s, refs, ledger, atts, t)[n].outcome == Confirmed {
      ConfirmedWasProven(cfg.host.crypto, MovesIn(s.repo, refs)[n], report, atts, t);
      ProvenWasSigned(cfg, s, t, elsewhere, atts[s.moves[k].jti], k);
    }
  }

  // ---------------------------------------------------------------- a Postgres token for a git move

  /** A Postgres deploy under grant g whose target id is spelt like the descriptor of a git move. */
  function LookalikeCall(g: string, oid: string): Postgres.Call {
    Postgres.Call(Postgres.V1(Some(g), Some("s"), "d", Some("n")), GitTargetDescriptor(REF_A, "absent:", oid), "deploy", "", "",
                  "d", "", "kid", "key")
  }

  lemma PlainTarget(oid: string)
    requires IsSha(oid)
    ensures '|' !in GitTargetDescriptor(REF_A, "absent:", oid)
  {
    assert forall k :: 0 <= k < |oid| ==> HexDigit(LowerChar(oid[k]));
  }

  lemma LookalikePasses(c: Crypto, g: string, oid: string, m: Postgres.Mutation)
    requires IdealHash(c) && '|' !in g && IsSha(oid)
    ensures PassesForRef(Postgres.GatePreimage(c, LookalikeCall(g, oid), m), g, "d", REF_A)
  {
    var target := GitTargetDescriptor(REF_A, "absent:", oid);
    PlainTarget(oid);
    SplitsIfIn(target, '|');
    JoinSplit(target, '|');
    DescriptorRoundTrip(REF_A, "absent:", oid);
    PostgresPassesForRefIff(c, LookalikeCall(g, oid), m, g, "d", REF_A);
  }

  /** The call that moved REF_A under grant g crashed before it signed anything. */
  predicate CrashedUnsigned(s: State, g: string, oid: string) {
    s.moves == [Move(0, g, REF_A, "absent:", oid)] && s.signed == {} && |s.execs| > 0 && s.execs[0].pc.Crashed?
  }

  lemma CrashAfterMove(cfg: Config, g: string, oid: string) returns (acts: seq<Action>, s: State)
    requires HasGrant(cfg, g, oid) && cfg.host.logged(REF_A)
    ensures Reaches(cfg, acts, s, true) && CrashedUnsigned(s, g, oid)
    ensures LedgerRefFor(cfg.host.crypto, g) in s.repo.refs && MarkerOf(g) in Reflog(s.repo, REF_A)
  {
    var s1;
    acts, s1 := FirstLands(cfg, g, oid);
    acts := Extend(cfg, acts, s1, true, Crash(0));
    s := Next(cfg, s1, Crash(0));
    assert s.execs[0].pc.Crashed?;
  }

  /**
   * A git call lands and crashes before its seal. A Postgres token for the same grant, whose target id is
   * spelt like the descriptor, makes the reader say CONFIRMED of it.
   */
  lemma LookalikeConfirms(cfg: Config, g: string, oid: string, m: Postgres.Mutation, t: Trust)
    returns (acts: seq<Action>, s: State)
    requires Ideal(cfg.host.crypto) && HasGrant(cfg, g, oid) && TrimEnd(g) == g && cfg.host.logged(REF_A)
    requires SignerInForce(t, "kid", "key") && t.deployment == "d"
    ensures Reaches(cfg, acts, s, true) && CrashedUnsigned(s, g, oid)
    ensures forall ledger :: Lists(s.repo, ledger) ==>
              SaysConfirmed(cfg, s, ledger, map[g := TokenText(Lookalike(cfg.host.crypto, g, oid, m))], t, g)
  {
    acts, s := CrashAfterMove(cfg, g, oid);
    var token := Lookalike(cfg.host.crypto, g, oid, m);
    LookalikeIsProven(cfg.host.crypto, g, oid, m, t);
    forall ledger | Lists(s.repo, ledger) ensures SaysConfirmed(cfg, s, ledger, map[g := TokenText(token)], t, g) {
      ProvenSaysConfirmed(cfg, s, ledger, map[g := TokenText(token)], t, g);
    }
  }

  function Lookalike(c: Crypto, g: string, oid: string, m: Postgres.Mutation): string {
    Postgres.Token(c, LookalikeCall(g, oid), m)
  }

  /** The reader has an entry CONFIRMED for this grant on REF_A. */
  predicate SaysConfirmed(cfg: Config, s: State, ledger: seq<LedgerEntry>, atts: Attestations, t: Trust, g: string) {
    exists e :: e in EntriesOf(cfg, s, [REF_A], ledger, atts, t) && e.jti == Some(g) && e.about == REF_A && e.outcome == Confirmed
  }

  lemma LookalikeIsProven(c: Crypto, g: string, oid: string, m: Postgres.Mutation, t: Trust)
    requires Ideal(c) && g != "" && '|' !in g && IsSha(oid) && SignerInForce(t, "kid", "key") && t.deployment == "d"
    ensures VerifyStored(c, TokenText(Lookalike(c, g, oid, m)), g, t.deployment, t.keys, t.asOf,
                         Some(GitRef(REF_A))).Proven?
    ensures Lookalike(c, g, oid, m) != ""
  {
    var p := Postgres.GatePreimage(c, LookalikeCall(g, oid), m);
    LookalikePasses(c, g, oid, m);
    assert p[0] == 'c';
    SealedPassesIff(c, t, "key", "kid", p, g, Some(GitRef(REF_A)));
    assert Postgres.Token(c, LookalikeCall(g, oid), m)[0] == 'c';
  }

  lemma ProvenSaysConfirmed(cfg: Config, s: State, ledger: seq<LedgerEntry>, atts: Attestations, t: Trust, g: string)
    requires IdealHash(cfg.host.crypto) && Lists(s.repo, ledger) && LedgerRefFor(cfg.host.crypto, g) in s.repo.refs
    requires TrimEnd(g) == g && g != "" && MarkerOf(g) in Reflog(s.repo, REF_A)
    requires g in atts && Truthy(Some(atts[g]))
    requires VerifyStored(cfg.host.crypto, atts[g], g, t.deployment, t.keys, t.asOf, Some(GitRef(REF_A))).Proven?
    ensures SaysConfirmed(cfg, s, ledger, atts, t, g)
  {
    MarkerIsMove(s.repo, g);
    NameIsListed(cfg.host.crypto, s.repo, ledger, g);
    var e := ProvenEntry(cfg.host.crypto, RefMove(REF_A, g), ledger, MovesIn(s.repo, [REF_A]), atts, t);
  }

  lemma ProvenEntry(c: Crypto, mv: RefMove, ledger: seq<LedgerEntry>, moves: seq<RefMove>, atts: Attestations, t: Trust)
    returns (e: Entry)
    requires mv in moves && HashListed(c, ledger, mv.jti) && mv.jti in atts && Truthy(Some(atts[mv.jti]))
    requires VerifyStored(c, atts[mv.jti], mv.jti, t.deployment, t.keys, t.asOf, Some(GitRef(mv.ref))).Proven?
    ensures e in GitEntries(c, LedgerReportOf(c, ledger, moves, atts), atts, t)
    ensures e.jti == Some(mv.jti) && e.about == mv.ref && e.outcome == Confirmed
  {
    var r := LedgerReportOf(c, ledger, moves, atts);
    EntryBranch(c, mv, ledger, moves, atts, t);
    e := GitEntryOf(c, mv, r, atts, t);
    EntriesCover(c, r, atts, t, e);
  }

  lemma MarkerIsMove(repo: Repo, g: string)
    requires TrimEnd(g) == g && g != "" && MarkerOf(g) in Reflog(repo, REF_A)
    ensures RefMove(REF_A, g) in MovesIn(repo, [REF_A])
  {
    TrimmedMarker(g);
    ReadLinesIn(Reflog(repo, REF_A), MarkerOf(g));
    LogToMove(repo, [REF_A], RefMove(REF_A, g));
  }

  lemma NameIsListed(c: Crypto, repo: Repo, ledger: seq<LedgerEntry>, g: string)
    requires IdealHash(c) && Lists(repo, ledger) && LedgerRefFor(c, g) in repo.refs
    ensures HashListed(c, ledger, g)
  {
    LedgerRefInLedger(c, g);
    LedgerRefHash(c, g);
    var name := LedgerRefFor(c, g);
    assert LedgerEntry(name, repo.refs[name], HashOfLedgerRef(name)) in ledger;
  }
}
