/** The answers of reconcileGit on every reachable state, entry by entry. */
module GitRecoveryExact {
  import opened Text
  import opened Crypto
  import opened GitStore
  import opened GitProtocol
  import opened GitSafety
  import opened GitRecovery
  import opened GitMarkers
  import opened Reconcile

  /** The deployment under recovery: one id, and keys in force. */
  predicate Orderly(s: State, t: Trust) {
    forall i :: 0 <= i < |s.execs| ==>
      s.execs[i].call.deployment == t.deployment && SignerInForce(t, s.execs[i].call.kid, s.execs[i].call.key)
  }

  predicate ReturnedBy(e: Exec, jti: string, stored: Stored) {
    e.call.jti == jti && e.pc.Done? && e.pc.result.Success? && stored == TokenText(e.pc.result.token)
  }

  /** The attestation map holds only tokens calls returned, each filed under its own grant. */
  ghost predicate KeepsReturned(s: State, atts: Attestations) {
    forall j :: j in atts ==> exists i :: 0 <= i < |s.execs| && ReturnedBy(s.execs[i], j, atts[j])
  }

  // ---------------------------------------------------------------- the ledger report

  /** Some listed claim ends in this grant's hash. */
  predicate HashListed(c: Crypto, ledger: seq<LedgerEntry>, jti: string) {
    exists e :: e in ledger && e.jtiHash == c.sha256hex(jti)
  }

  /** The listed claim of a landed, unreclaimed grant. */
  lemma ClaimIsListed(cfg: Config, s: State, ledger: seq<LedgerEntry>, k: nat) returns (e: LedgerEntry)
    requires IdealHash(cfg.host.crypto) && Safe(cfg, s) && Lists(s.repo, ledger)
    requires k < |s.moves| && s.moves[k].jti !in s.reclaimed
    ensures e in ledger && e.ref == LedgerRefFor(cfg.host.crypto, s.moves[k].jti)
    ensures e.jtiHash == cfg.host.crypto.sha256hex(s.moves[k].jti) && HashListed(cfg.host.crypto, ledger, s.moves[k].jti)
  {
    var c := cfg.host.crypto;
    assert Claimed(cfg, s, s.moves[k]);
    var name := LedgerRefFor(c, s.moves[k].jti);
    LedgerRefInLedger(c, s.moves[k].jti);
    LedgerRefHash(c, s.moves[k].jti);
    e := LedgerEntry(name, s.repo.refs[name], HashOfLedgerRef(name));
  }

  lemma MissingIffUnlisted(c: Crypto, ledger: seq<LedgerEntry>, moves: seq<RefMove>, atts: Attestations, m: RefMove)
    ensures m in LedgerReportOf(c, ledger, moves, atts).missing <==> m in moves && !HashListed(c, ledger, m.jti)
  {
    var haveHash := set e | e in ledger :: e.jtiHash;
    assert c.sha256hex(m.jti) in haveHash <==> HashListed(c, ledger, m.jti);
  }

  /** A call that returned for this grant is the one that landed its move. */
  lemma ReturnedIsMover(cfg: Config, s: State, i: nat, k: nat, stored: Stored)
    requires Safe(cfg, s) && k < |s.moves| && i < |s.execs| && ReturnedBy(s.execs[i], s.moves[k].jti, stored)
    ensures var call := s.execs[i].call;
            && Precheck(call).None? && call.pin.Some? && s.moves[k] == MoveOf(i, call)
            && stored == TokenText(SealedToken(cfg.host.crypto, call))
  {
    assert ExecOk(cfg, s, i);
    var n :| 0 <= n < |s.moves| && s.moves[n] == MoveOf(i, s.execs[i].call);
    assert n == k;
  }

  /** A kept token is the one the landed move's own call sealed: this is where one use is needed. */
  lemma KeptIsSealedFor(cfg: Config, s: State, atts: Attestations, k: nat) returns (call: Call)
    requires Safe(cfg, s) && KeepsReturned(s, atts) && k < |s.moves| && s.moves[k].jti in atts
    ensures Precheck(call).None? && call.jti == s.moves[k].jti && call.ref == s.moves[k].ref
    ensures call.pin.value == s.moves[k].pin && atts[call.jti] == TokenText(SealedToken(cfg.host.crypto, call))
    ensures exists i :: 0 <= i < |s.execs| && s.execs[i].call == call
  {
    var i :| 0 <= i < |s.execs| && ReturnedBy(s.execs[i], s.moves[k].jti, atts[s.moves[k].jti]);
    call := s.execs[i].call;
    ReturnedIsMover(cfg, s, i, k, atts[s.moves[k].jti]);
  }

  lemma KeptAreTokens(cfg: Config, s: State, atts: Attestations, jti: string)
    requires Safe(cfg, s) && KeepsReturned(s, atts)
    ensures Truthy(Lookup(atts, jti)) <==> jti in atts
  {
    if jti in atts {
      var i :| 0 <= i < |s.execs| && ReturnedBy(s.execs[i], jti, atts[jti]);
      assert ExecOk(cfg, s, i);
      assert SealedToken(cfg.host.crypto, s.execs[i].call)[0] == 'c';
    }
  }

  // ---------------------------------------------------------------- the theorems

  /** The state is reachable, no grant id ends in white space, and the reader is given the whole ledger. */
  ghost predicate Reached(cfg: Config, acts: seq<Action>, s: State, refs: seq<string>, ledger: seq<LedgerEntry>) {
    && IdealHash(cfg.host.crypto) && LeewayCoversGap(cfg)
    && GovernedRun(acts) && Run(cfg, acts) == Some(s)
    && Unpadded(s) && Inspectable(refs) && Lists(s.repo, ledger)
  }

  /** And the evidence handed to recovery is genuine. */
  ghost predicate Recoverable(cfg: Config, acts: seq<Action>, s: State, t: Trust, refs: seq<string>,
                              atts: Attestations, ledger: seq<LedgerEntry>)
  {
    Reached(cfg, acts, s, refs, ledger) && Ideal(cfg.host.crypto) && Orderly(s, t) && KeepsReturned(s, atts)
  }

  /**
   * CONFIRMED exactly when the seal was produced and kept, the ref can be read back from it, and a claim
   * with the grant's hash is listed.
   */
  function Verdict(c: Crypto, m: Move, ledger: seq<LedgerEntry>, atts: Attestations): Outcome {
    if HashListed(c, ledger, m.jti) && m.jti in atts && '@' !in m.pin then Confirmed else Indeterminate
  }

  /** What the gate answers for a landed move whose token was kept. */
  lemma KeptTokenAnswer(cfg: Config, s: State, t: Trust, atts: Attestations, k: nat)
    requires Ideal(cfg.host.crypto) && Safe(cfg, s) && Orderly(s, t) && KeepsReturned(s, atts)
    requires k < |s.moves| && s.moves[k].ref != "" && s.moves[k].jti in atts
    ensures VerifyStored(cfg.host.crypto, atts[s.moves[k].jti], s.moves[k].jti, t.deployment, t.keys, t.asOf,
                         Some(GitRef(s.moves[k].ref))).Proven?
       <==> '@' !in s.moves[k].pin
  {
    var call := KeptIsSealedFor(cfg, s, atts, k);
    GateOnSealed(cfg.host.crypto, call, t, s.moves[k].ref);
    DescriptorRoundTrip(call.ref, call.pin.value, call.newSha);
  }

  /** The branch reconcileGit takes for a reported move. */
  lemma EntryBranch(c: Crypto, mv: RefMove, ledger: seq<LedgerEntry>, moves: seq<RefMove>, atts: Attestations, t: Trust)
    requires mv in moves && (Truthy(Lookup(atts, mv.jti)) <==> mv.jti in atts)
    ensures GitEntryOf(c, mv, LedgerReportOf(c, ledger, moves, atts), atts, t).outcome ==
            (if HashListed(c, ledger, mv.jti) && mv.jti in atts
                && VerifyStored(c, atts[mv.jti], mv.jti, t.deployment, t.keys, t.asOf, Some(GitRef(mv.ref))).Proven?
             then Confirmed else Indeterminate)
  {
    var r := LedgerReportOf(c, ledger, moves, atts);
    forall m | m in moves ensures m in r.missing <==> !HashListed(c, ledger, m.jti) {
      MissingIffUnlisted(c, ledger, moves, atts, m);
    }
  }

  lemma EntryIsExact(cfg: Config, s: State, t: Trust, refs: seq<string>, atts: Attestations, ledger: seq<LedgerEntry>,
                     k: nat)
    requires Ideal(cfg.host.crypto) && Safe(cfg, s)
    requires Orderly(s, t) && KeepsReturned(s, atts)
    requires k < |s.moves| && s.moves[k].ref != ""
    requires RefMove(s.moves[k].ref, s.moves[k].jti) in MovesIn(s.repo, refs)
    ensures var m := s.moves[k];
            var r := LedgerReportOf(cfg.host.crypto, ledger, MovesIn(s.repo, refs), atts);
            GitEntryOf(cfg.host.crypto, RefMove(m.ref, m.jti), r, atts, t).outcome
              == Verdict(cfg.host.crypto, m, ledger, atts)
  {
    var m := s.moves[k];
    KeptAreTokens(cfg, s, atts, m.jti);
    if m.jti in atts { KeptTokenAnswer(cfg, s, t, atts, k); }
    EntryBranch(cfg.host.crypto, RefMove(m.ref, m.jti), ledger, MovesIn(s.repo, refs), atts, t);
  }

  /** The n-th entry is about the n-th reported move. */
  lemma EntryAt(c: Crypto, r: LedgerReport, atts: Attestations, t: Trust, n: nat)
    requires n < |r.moves|
    ensures n < |GitEntries(c, r, atts, t)|
    ensures var e := GitEntries(c, r, atts, t)[n];
            e == GitEntryOf(c, r.moves[n], r, atts, t) && e.jti == Some(r.moves[n].jti) && e.about == r.moves[n].ref
  {
  }

  /** Entries are about reported moves, or RELEASED claims without one. */
  lemma EntriesCover(c: Crypto, r: LedgerReport, atts: Attestations, t: Trust, e: Entry)
    ensures e in GitEntries(c, r, atts, t) <==>
            (exists mv :: mv in r.moves && e == GitEntryOf(c, mv, r, atts, t))
            || exists l :: l in r.ledgerWithoutMove && e == ReleasedEntry(l)
  {
    var moved := seq(|r.moves|, k requires 0 <= k < |r.moves| => GitEntryOf(c, r.moves[k], r, atts, t));
    var freed := Map(r.ledgerWithoutMove, ReleasedEntry);
    if mv :| mv in r.moves && e == GitEntryOf(c, mv, r, atts, t) {
      var k :| 0 <= k < |r.moves| && r.moves[k] == mv;
      assert moved[k] == e;
    }
    if l :| l in r.ledgerWithoutMove && e == ReleasedEntry(l) {
      var k :| 0 <= k < |r.ledgerWithoutMove| && r.ledgerWithoutMove[k] == l;
      assert freed[k] == e;
    }
    assert e in GitEntries(c, r, atts, t) <==> e in moved || e in freed;
  }

  /**
   * RECOVERY IS EXACT. On every reachable state, each entry reconcileGit gives for a reflog marker is
   * about a move that really landed there under that grant, and says CONFIRMED exactly when that
   * move's seal was produced and kept, its pin holds no '@' and its claim is listed, as it is until it
   * is reclaimed; INDETERMINATE otherwise.
   */
  lemma RecoveryIsExact(cfg: Config, acts: seq<Action>, s: State, t: Trust, refs: seq<string>, atts: Attestations,
                        ledger: seq<LedgerEntry>, n: nat) returns (k: nat)
    requires Recoverable(cfg, acts, s, t, refs, atts, ledger)
    requires n < |MovesIn(s.repo, refs)|
    ensures k < |s.moves| && RefMove(s.moves[k].ref, s.moves[k].jti) == MovesIn(s.repo, refs)[n]
    ensures s.moves[k].jti !in s.reclaimed ==> HashListed(cfg.host.crypto, ledger, s.moves[k].jti)
    ensures var report := LedgerReportOf(cfg.host.crypto, ledger, MovesIn(s.repo, refs), atts);
            var e := GitEntries(cfg.host.crypto, report, atts, t)[n];
            e.jti == Some(s.moves[k].jti) && e.about == s.moves[k].ref
            && e.outcome == Verdict(cfg.host.crypto, s.moves[k], ledger, atts)
  {
    RecordedRun(cfg, acts);
    var mv := MovesIn(s.repo, refs)[n];
    EntryAt(cfg.host.crypto, LedgerReportOf(cfg.host.crypto, ledger, MovesIn(s.repo, refs), atts), atts, t, n);
    k := LandedBehind(cfg, s, refs, mv);
    if mv.jti !in s.reclaimed { var e := ClaimIsListed(cfg, s, ledger, k); }
    EntryIsExact(cfg, s, t, refs, atts, ledger, k);
  }

  /** What reconcileGit returns. */
  function EntriesOf(cfg: Config, s: State, refs: seq<string>, ledger: seq<LedgerEntry>, atts: Attestations, t: Trust)
    : seq<Entry>
  {
    GitEntries(cfg.host.crypto, LedgerReportOf(cfg.host.crypto, ledger, MovesIn(s.repo, refs), atts), atts, t)
  }

  /**
   * WHAT RECOVERY LEAVES OUT. A landed move is reported as a move if and only if it is recorded on an
   * inspected ref. Otherwise, and only then, its standing claim is reported RELEASED, whatever tokens
   * were kept.
   */
  lemma RecoveryIsComplete(cfg: Config, acts: seq<Action>, s: State, t: Trust, refs: seq<string>, atts: Attestations,
                           ledger: seq<LedgerEntry>, k: nat)
    requires Reached(cfg, acts, s, refs, ledger) && k < |s.moves|
    ensures var m := s.moves[k];
            var entries := EntriesOf(cfg, s, refs, ledger, atts, t);
            && ((exists e :: e in entries && e.jti == Some(m.jti)) <==> Recorded(cfg, s, k) && m.ref in refs)
            && (m.jti !in s.reclaimed ==>
                  (ReleasedClaim(cfg.host.crypto, m.jti) in entries <==> !(Recorded(cfg, s, k) && m.ref in refs)))
  {
    RecordedRun(cfg, acts);
    ReportedIffRecorded(cfg, s, refs, k);
    var report := LedgerReportOf(cfg.host.crypto, ledger, MovesIn(s.repo, refs), atts);
    NamedIffMoved(cfg.host.crypto, report, atts, t, s.moves[k].jti);
    if s.moves[k].jti !in s.reclaimed { ClaimIsFreeIff(cfg, s, t, refs, atts, ledger, k); }
  }

  /** The entry for a claim without a move. */
  function ReleasedClaim(c: Crypto, jti: string): Entry { Entry(Git, None, Released, LedgerRefFor(c, jti), None, None) }

  lemma NamedIffMoved(c: Crypto, r: LedgerReport, atts: Attestations, t: Trust, jti: string)
    ensures (exists e :: e in GitEntries(c, r, atts, t) && e.jti == Some(jti)) <==> exists mv :: mv in r.moves && mv.jti == jti
  {
    if mv :| mv in r.moves && mv.jti == jti {
      EntriesCover(c, r, atts, t, GitEntryOf(c, mv, r, atts, t));
      EntryNames(c, mv, r, atts, t);
    }
    if e :| e in GitEntries(c, r, atts, t) && e.jti == Some(jti) {
      EntriesCover(c, r, atts, t, e);
      if mv :| mv in r.moves && e == GitEntryOf(c, mv, r, atts, t) { EntryNames(c, mv, r, atts, t); }
    }
  }

  lemma EntryNames(c: Crypto, mv: RefMove, r: LedgerReport, atts: Attestations, t: Trust)
    ensures GitEntryOf(c, mv, r, atts, t).jti == Some(mv.jti)
  {
  }

  lemma ReleasedIffFree(c: Crypto, r: LedgerReport, atts: Attestations, t: Trust, l: LedgerEntry)
    requires forall x :: x in r.ledgerWithoutMove && x.ref == l.ref ==> x == l
    ensures ReleasedEntry(l) in GitEntries(c, r, atts, t) <==> l in r.ledgerWithoutMove
  {
    EntriesCover(c, r, atts, t, ReleasedEntry(l));
  }

  lemma ClaimIsFreeIff(cfg: Config, s: State, t: Trust, refs: seq<string>, atts: Attestations, ledger: seq<LedgerEntry>,
                       k: nat)
    requires IdealHash(cfg.host.crypto) && Safe(cfg, s) && Lists(s.repo, ledger)
    requires k < |s.moves| && s.moves[k].jti !in s.reclaimed
    ensures var entries := EntriesOf(cfg, s, refs, ledger, atts, t);
            ReleasedClaim(cfg.host.crypto, s.moves[k].jti) in entries <==>
            !exists mv :: mv in MovesIn(s.repo, refs) && mv.jti == s.moves[k].jti
  {
    var e := ClaimIsListed(cfg, s, ledger, k);
    ListedIsFreeIff(cfg.host.crypto, ledger, MovesIn(s.repo, refs), atts, t, e, s.moves[k].jti);
  }

  lemma ListedIsFreeIff(c: Crypto, ledger: seq<LedgerEntry>, moves: seq<RefMove>, atts: Attestations, t: Trust,
                        e: LedgerEntry, jti: string)
    requires IdealHash(c) && e in ledger && e.jtiHash == c.sha256hex(jti)
    requires forall i, j :: 0 <= i < j < |ledger| ==> ledger[i].ref != ledger[j].ref
    ensures ReleasedEntry(e) in GitEntries(c, LedgerReportOf(c, ledger, moves, atts), atts, t)
       <==> !exists mv :: mv in moves && mv.jti == jti
  {
    var r := LedgerReportOf(c, ledger, moves, atts);
    UnseenIsReported(c, ledger, moves, atts, e);
    ReleasedIffFree(c, r, atts, t, e);
  }

  // ---------------------------------------------------------------- ledger and reflog stay in step

  /** Every landed move is recorded on a ref that is inspected, and nothing has been reclaimed. */
  predicate AllInView(cfg: Config, s: State, refs: seq<string>) {
    && s.reclaimed == {}
    && forall k :: 0 <= k < |s.moves| ==> Recorded(cfg, s, k) && s.moves[k].ref in refs
  }

  /** No pushed claim still in the ledger ends in the hash of a landed grant under a name that is not that grant's. */
  predicate WellSharded(cfg: Config, s: State) {
    forall name, k :: name in s.pushed && name in s.repo.refs && InLedger(name) && 0 <= k < |s.moves| ==>
      (HashOfLedgerRef(name) == cfg.host.crypto.sha256hex(s.moves[k].jti) ==>
         name == LedgerRefFor(cfg.host.crypto, s.moves[k].jti))
  }

  /** A landed, recorded, inspected move has this hash. */
  predicate HashSeen(cfg: Config, s: State, refs: seq<string>, h: string) {
    exists k :: 0 <= k < |s.moves| && cfg.host.crypto.sha256hex(s.moves[k].jti) == h
                && Recorded(cfg, s, k) && s.moves[k].ref in refs
  }

  lemma SeenAreLanded(cfg: Config, s: State, refs: seq<string>, h: string)
    requires Safe(cfg, s) && LogsOk(cfg, s) && Unpadded(s) && Inspectable(refs)
    ensures (exists m :: m in MovesIn(s.repo, refs) && cfg.host.crypto.sha256hex(m.jti) == h) <==> HashSeen(cfg, s, refs, h)
  {
    if m :| m in MovesIn(s.repo, refs) && cfg.host.crypto.sha256hex(m.jti) == h {
      var k := LandedBehind(cfg, s, refs, m);
      ReportedIffRecorded(cfg, s, refs, k);
    }
    if HashSeen(cfg, s, refs, h) {
      var k :| 0 <= k < |s.moves| && cfg.host.crypto.sha256hex(s.moves[k].jti) == h
               && Recorded(cfg, s, k) && s.moves[k].ref in refs;
      ReportedIffRecorded(cfg, s, refs, k);
      assert RefMove(s.moves[k].ref, s.moves[k].jti) in MovesIn(s.repo, refs);
    }
  }

  lemma UnseenIsReported(c: Crypto, ledger: seq<LedgerEntry>, moves: seq<RefMove>, atts: Attestations, e: LedgerEntry)
    requires e in ledger
    ensures e in LedgerReportOf(c, ledger, moves, atts).ledgerWithoutMove
       <==> !exists m :: m in moves && c.sha256hex(m.jti) == e.jtiHash
  {
    var seen := set m: RefMove | m in moves :: c.sha256hex(m.jti);
    if m :| m in moves && c.sha256hex(m.jti) == e.jtiHash { assert e.jtiHash in seen; }
  }

  /**
   * LEDGER AND REFLOG STAY IN STEP. Over every run, only reclaimed grants are reported missing from the
   * ledger, and the claims reported without a move are exactly those whose hash belongs to no recorded
   * move on an inspected ref.
   */
  lemma LedgerInStep(cfg: Config, acts: seq<Action>, s: State, refs: seq<string>, atts: Attestations,
                     ledger: seq<LedgerEntry>)
    requires Reached(cfg, acts, s, refs, ledger)
    ensures var r := LedgerReportOf(cfg.host.crypto, ledger, MovesIn(s.repo, refs), atts);
            && (forall m :: m in r.missing ==> m.jti in s.reclaimed)
            && (forall e :: e in r.ledgerWithoutMove <==> e in ledger && !HashSeen(cfg, s, refs, e.jtiHash))
  {
    RecordedRun(cfg, acts);
    var c := cfg.host.crypto;
    var moves := MovesIn(s.repo, refs);
    var r := LedgerReportOf(c, ledger, moves, atts);
    forall m | m in r.missing ensures m.jti in s.reclaimed {
      MissingIffUnlisted(c, ledger, moves, atts, m);
      var k := LandedBehind(cfg, s, refs, m);
      if m.jti !in s.reclaimed { var e := ClaimIsListed(cfg, s, ledger, k); }
    }
    forall e | e in ledger ensures e in r.ledgerWithoutMove <==> !HashSeen(cfg, s, refs, e.jtiHash) {
      SeenAreLanded(cfg, s, refs, e.jtiHash);
      UnseenIsReported(c, ledger, moves, atts, e);
    }
  }

  /** A claim is pushed exactly when no landed grant has its hash. */
  predicate UnmovedIffPushed(cfg: Config, s: State, refs: seq<string>, e: LedgerEntry) {
    e.ref in s.pushed <==> !HashSeen(cfg, s, refs, e.jtiHash)
  }

  lemma UnmovedIsPushed(cfg: Config, s: State, refs: seq<string>, e: LedgerEntry)
    requires IdealHash(cfg.host.crypto) && Safe(cfg, s) && OriginsOk(cfg, s) && AllInView(cfg, s, refs)
    requires LedgerUntargeted(s) && WellSharded(cfg, s)
    requires e.ref in s.repo.refs && InLedger(e.ref) && e.jtiHash == HashOfLedgerRef(e.ref)
    ensures UnmovedIffPushed(cfg, s, refs, e)
  {
    var c := cfg.host.crypto;
    assert Accounted(c, s, e.ref);
    if e.ref !in s.pushed {
      var k :| 0 <= k < |s.moves| && (e.ref == LedgerRefFor(c, s.moves[k].jti) || e.ref == s.moves[k].ref);
      assert MoveOk(s, s.moves[k]);
      LedgerRefHash(c, s.moves[k].jti);
      assert Recorded(cfg, s, k) && s.moves[k].ref in refs;
    }
  }

  /**
   * WHEN PUSHED CLAIMS SHOW. With every landed move in view and no call aimed at the ledger, the claims
   * reported without a move are the pushed ones if and only if no pushed claim is mis-sharded.
   */
  lemma PushedClaimsShowIff(cfg: Config, acts: seq<Action>, s: State, refs: seq<string>, atts: Attestations,
                            ledger: seq<LedgerEntry>)
    requires Reached(cfg, acts, s, refs, ledger) && AllInView(cfg, s, refs) && LedgerUntargeted(s)
    ensures var r := LedgerReportOf(cfg.host.crypto, ledger, MovesIn(s.repo, refs), atts);
            (forall e :: e in r.ledgerWithoutMove <==> e in ledger && e.ref in s.pushed) <==> WellSharded(cfg, s)
  {
    LedgerInStep(cfg, acts, s, refs, atts, ledger);
    RecordedRun(cfg, acts);
    if WellSharded(cfg, s) {
      forall e | e in ledger ensures UnmovedIffPushed(cfg, s, refs, e) { UnmovedIsPushed(cfg, s, refs, e); }
    } else {
      var e := MisshardedIsSeen(cfg, s, refs, ledger);
    }
  }

  /** A mis-sharded pushed claim shares a landed move's hash, so it is not reported. */
  lemma MisshardedIsSeen(cfg: Config, s: State, refs: seq<string>, ledger: seq<LedgerEntry>) returns (e: LedgerEntry)
    requires Lists(s.repo, ledger) && AllInView(cfg, s, refs) && !WellSharded(cfg, s)
    ensures e in ledger && e.ref in s.pushed && HashSeen(cfg, s, refs, e.jtiHash)
  {
    var name, k :| name in s.pushed && name in s.repo.refs && InLedger(name) && 0 <= k < |s.moves|
                   && HashOfLedgerRef(name) == cfg.host.crypto.sha256hex(s.moves[k].jti)
                   && name != LedgerRefFor(cfg.host.crypto, s.moves[k].jti);
    e := LedgerEntry(name, s.repo.refs[name], HashOfLedgerRef(name));
    assert Recorded(cfg, s, k) && s.moves[k].ref in refs;
  }
}
