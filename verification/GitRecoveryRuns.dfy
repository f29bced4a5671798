/** Runs in which the reader's answer misleads: why recovery speaks of recorded moves and well-sharded claims. */
module GitRecoveryRuns {
  import opened Text
  import opened Crypto
  import opened GitStore
  import opened GitProtocol
  import opened GitSafety
  import opened GitReclaimBound
  import opened GitRecovery
  import opened GitMarkers
  import opened GitRecoveryExact
  import opened Reconcile

  /** All the reader says is that the grant's claim has no move. */
  predicate SaysReleased(cfg: Config, s: State, ledger: seq<LedgerEntry>, atts: Attestations, t: Trust, g: string) {
    var entries := EntriesOf(cfg, s, [REF_A], ledger, atts, t);
    ReleasedClaim(cfg.host.crypto, g) in entries && forall e :: e in entries ==> e.outcome == Released
  }

  /** With no marker in the log the claim of a landed move reads as one without a move. */
  lemma NoMarkerSaysReleased(cfg: Config, s: State, ledger: seq<LedgerEntry>, atts: Attestations, t: Trust, g: string)
    requires IdealHash(cfg.host.crypto) && Lists(s.repo, ledger) && LedgerRefFor(cfg.host.crypto, g) in s.repo.refs
    requires forall line :: line in Reflog(s.repo, REF_A) ==> line == "push"
    ensures SaysReleased(cfg, s, ledger, atts, t, g)
  {
    var c := cfg.host.crypto;
    var name := LedgerRefFor(c, g);
    var moves := MovesIn(s.repo, [REF_A]);
    forall mv | mv in moves ensures false {
      LogToMove(s.repo, [REF_A], mv);
      PushIsNoMarker(Reflog(s.repo, REF_A), mv.jti);
    }
    var r := LedgerReportOf(c, ledger, moves, atts);
    LedgerRefInLedger(c, g);
    var l := LedgerEntry(name, s.repo.refs[name], HashOfLedgerRef(name));
    UnseenIsReported(c, ledger, moves, atts, l);
    EntriesCover(c, r, atts, t, ReleasedEntry(l));
    forall e | e in GitEntries(c, r, atts, t) ensures e.outcome == Released { EntriesCover(c, r, atts, t, e); }
  }

  /**
   * A move on a ref without a reflog lands, is sealed and returned; given its token, the reader says
   * nothing of the move and calls the claim RELEASED.
   */
  lemma UnloggedMoveIsReleased(cfg: Config, g: string, oid: string, t: Trust) returns (acts: seq<Action>)
    requires IdealHash(cfg.host.crypto) && HasGrant(cfg, g, oid) && !cfg.host.logged(REF_A)
    ensures GovernedRun(acts) && Run(cfg, acts).Some?
    ensures var s := Run(cfg, acts).value;
            && s.moves == [Move(0, g, REF_A, "absent:", oid)]
            && |s.execs| > 0 && s.execs[0].pc.Done? && s.execs[0].pc.result.Success?
            && var atts := map[g := TokenText(s.execs[0].pc.result.token)];
            forall ledger :: Lists(s.repo, ledger) ==> SaysReleased(cfg, s, ledger, atts, t, g)
  {
    var s1;
    acts, s1 := FirstLands(cfg, g, oid);
    acts := Extend(cfg, acts, s1, true, Seal(0));
    var s2 := Next(cfg, s1, Seal(0));
    acts := Extend(cfg, acts, s2, true, Return(0));
    var s := Next(cfg, s2, Return(0));
    var atts := map[g := TokenText(s.execs[0].pc.result.token)];
    forall ledger | Lists(s.repo, ledger) ensures SaysReleased(cfg, s, ledger, atts, t, g) {
      NoMarkerSaysReleased(cfg, s, ledger, atts, t, g);
    }
  }

  lemma ClaimIsNotRefA(host: Host, g: string)
    ensures LedgerRefFor(host.crypto, g) != REF_A && !InLedger(REF_A) && !StartsWith(REF_A, "refs/heads/")
  {
    assert REF_A[5] == 't' && "refs/heads/"[5] == 'h' && LEDGER_DIR[5] == 'c' && LedgerRefFor(host.crypto, g)[5] == LEDGER_DIR[5];
  }

  /** A batch that writes the value its ref already holds only adds the claim, and logs nothing but that. */
  lemma RewriteBatch(host: Host, repo: Repo, call: Call, oid: string)
    requires Usable(host, oid) && call.pin == Some(oid) && OldOid(oid) == oid && Oid(call) == oid
    requires !InLedger(call.ref) && !StartsWith(call.ref, "refs/heads/") && repo.refs == map[call.ref := oid]
    ensures var landed := Attempt(host, repo, call);
            landed.Some? && LedgerRefFor(host.crypto, call.jti) in landed.value.refs
  {
    ClaimName(host, call.jti);
  }

  lemma RewriteLogs(host: Host, repo: Repo, call: Call, oid: string)
    requires Usable(host, oid) && call.pin == Some(oid) && OldOid(oid) == oid && Oid(call) == oid
    requires !InLedger(call.ref) && Attempt(host, repo, call).Some?
    requires forall line :: line in Reflog(repo, call.ref) ==> line == "push"
    ensures forall line :: line in Reflog(Attempt(host, repo, call).value, call.ref) ==> line == "push"
  {
    ClaimName(host, call.jti);
    forall line | line in Reflog(Attempt(host, repo, call).value, call.ref) ensures line == "push" {
      BatchLogs(host, repo, call, call.ref, line);
    }
  }

  lemma RewriteLands(cfg: Config, s: State, g: string, oid: string)
    requires Usable(cfg.host, oid) && s.now == 0 && s.moves == []
    requires s.execs == [Exec(Example(g, REF_A, oid, oid), Ready(0), 0)] && OldOid(oid) == oid
    requires s.repo.refs == map[REF_A := oid] && forall line :: line in Reflog(s.repo, REF_A) ==> line == "push"
    ensures Enabled(cfg, s, BatchLands(0, true))
    ensures var s' := Next(cfg, s, BatchLands(0, true));
            && s'.moves == [Move(0, g, REF_A, oid, oid)] && LedgerRefFor(cfg.host.crypto, g) in s'.repo.refs
            && forall line :: line in Reflog(s'.repo, REF_A) ==> line == "push"
  {
    ClaimIsNotRefA(cfg.host, g);
    RewriteBatch(cfg.host, s.repo, s.execs[0].call, oid);
    RewriteLogs(cfg.host, s.repo, s.execs[0].call, oid);
  }

  /** REF_A, pushed at oid, is about to be rewritten to oid under grant g. */
  lemma RewriteIsReady(cfg: Config, g: string, oid: string) returns (acts: seq<Action>, s: State)
    requires HasGrant(cfg, g, oid) && OldOid(oid) == oid
    ensures Reaches(cfg, acts, s, true) && s.now == 0 && s.moves == []
    ensures s.execs == [Exec(Example(g, REF_A, oid, oid), Ready(0), 0)]
    ensures s.repo.refs == map[REF_A := oid] && forall line :: line in Reflog(s.repo, REF_A) ==> line == "push"
  {
    var call := Example(g, REF_A, oid, oid);
    ExampleIsPlain(g, REF_A, oid, oid);
    var s2;
    acts, s2 := PushThenSpawn(cfg, g, oid, call);
    acts := Prepare(cfg, acts, s2, true, 0, 0);
    s := Goto(s2, 0, Ready(0));
  }

  lemma PushThenSpawn(cfg: Config, g: string, oid: string, call: Call) returns (acts: seq<Action>, s: State)
    requires HasGrant(cfg, g, oid) && Governed(call)
    ensures Reaches(cfg, acts, s, true) && s.now == 0 && s.moves == [] && s.execs == [Exec(call, Presented, 0)]
    ensures s.repo.refs == map[REF_A := oid] && forall line :: line in Reflog(s.repo, REF_A) ==> line == "push"
    ensures MarkerOf(g) !in ReflogMarkers(s.repo, REF_A)
  {
    var cmds := [Command(ZERO, oid, REF_A)];
    var s1 := PushStep(cfg, Init, cmds);
    acts := [];
    acts := Extend(cfg, acts, Init, true, Push(cmds));
    PushedA(cfg, g, oid);
    acts := Extend(cfg, acts, s1, true, Spawn(call));
    s := Next(cfg, s1, Spawn(call));
  }

  lemma PushedA(cfg: Config, g: string, oid: string)
    requires HasGrant(cfg, g, oid)
    ensures var s := PushStep(cfg, Init, [Command(ZERO, oid, REF_A)]);
            && s.now == 0 && s.moves == [] && s.execs == [] && s.repo.refs == map[REF_A := oid]
            && (forall line :: line in Reflog(s.repo, REF_A) ==> line == "push")
            && MarkerOf(g) !in ReflogMarkers(s.repo, REF_A)
  {
    assert REF_A[5] == 't' && LEDGER_DIR[5] == 'c' && "refs/heads/"[5] == 'h';
    PushCreates(cfg, Init, REF_A, g, oid);
  }

  /** A move that writes the value its ref already holds lands too, and leaves no marker even on a logged ref. */
  lemma SameValueIsReleased(cfg: Config, g: string, oid: string, t: Trust) returns (acts: seq<Action>)
    requires IdealHash(cfg.host.crypto) && HasGrant(cfg, g, oid)
    ensures GovernedRun(acts) && Run(cfg, acts).Some?
    ensures var s := Run(cfg, acts).value;
            && s.moves == [Move(0, g, REF_A, oid, oid)]
            && forall ledger, atts :: Lists(s.repo, ledger) ==> SaysReleased(cfg, s, ledger, atts, t, g)
  {
    assert OldOid(oid) == oid by { assert HexDigit(LowerChar(oid[2])) && "absent:"[2] == 's'; }
    var s3;
    acts, s3 := RewriteIsReady(cfg, g, oid);
    RewriteLands(cfg, s3, g, oid);
    acts := Extend(cfg, acts, s3, true, BatchLands(0, true));
    var s := Next(cfg, s3, BatchLands(0, true));
    forall ledger, atts | Lists(s.repo, ledger) ensures SaysReleased(cfg, s, ledger, atts, t, g) {
      NoMarkerSaysReleased(cfg, s, ledger, atts, t, g);
    }
  }

  /** And the reader reports that grant as a move in doubt, although it never landed anywhere. */
  lemma BlankTwinIsReported(cfg: Config, g: string, oid: string, atts: Attestations, t: Trust)
    returns (acts: seq<Action>, s: State)
    requires IdealHash(cfg.host.crypto) && HasGrant(cfg, g + " ", oid) && g != "" && TrimEnd(g) == g
    requires cfg.host.logged(REF_A) && cfg.exp(g) >= cfg.exp(g + " ")
    ensures Reaches(cfg, acts, s, true) && s.moves == [Move(0, g + " ", REF_A, "absent:", oid)]
    ensures forall ledger :: Lists(s.repo, ledger) ==> SaysInDoubt(cfg, s, ledger, atts, t, g)
  {
    acts, s := BlankTwinIsRefused(cfg, g, oid);
    forall ledger | Lists(s.repo, ledger) ensures SaysInDoubt(cfg, s, ledger, atts, t, g) {
      TwinIsUnlisted(cfg, s, ledger, g, oid);
      UnlistedIsInDoubt(cfg.host.crypto, RefMove(REF_A, g), ledger, MovesIn(s.repo, [REF_A]), atts, t);
    }
  }

  predicate SaysInDoubt(cfg: Config, s: State, ledger: seq<LedgerEntry>, atts: Attestations, t: Trust, g: string) {
    Entry(Git, Some(g), Indeterminate, REF_A, Some(LedgerClaimAbsent), None) in EntriesOf(cfg, s, [REF_A], ledger, atts, t)
  }

  lemma TwinIsUnlisted(cfg: Config, s: State, ledger: seq<LedgerEntry>, g: string, oid: string)
    requires IdealHash(cfg.host.crypto) && ListsOnly(s.repo, ledger)
    requires s.repo.refs == map[LedgerRefFor(cfg.host.crypto, g + " ") := oid, REF_A := oid]
    ensures !HashListed(cfg.host.crypto, ledger, g)
  {
    ClaimIsNotRefA(cfg.host, g);
    LedgerRefHash(cfg.host.crypto, g + " ");
    assert |g + " "| == |g| + 1;
    OnlyItsHash(cfg.host.crypto, s.repo, ledger, LedgerRefFor(cfg.host.crypto, g + " "), g);
  }

  /** Where this is the only ref of the ledger, and it carries another hash, a grant's hash is not listed. */
  lemma OnlyItsHash(c: Crypto, repo: Repo, ledger: seq<LedgerEntry>, name: string, g: string)
    requires ListsOnly(repo, ledger) && HashOfLedgerRef(name) != c.sha256hex(g)
    requires forall r :: r in repo.refs && InLedger(r) ==> r == name
    ensures !HashListed(c, ledger, g)
  {
  }

  lemma UnlistedIsInDoubt(c: Crypto, mv: RefMove, ledger: seq<LedgerEntry>, moves: seq<RefMove>, atts: Attestations, t: Trust)
    requires mv in moves && !HashListed(c, ledger, mv.jti)
    ensures Entry(Git, Some(mv.jti), Indeterminate, mv.ref, Some(LedgerClaimAbsent), None)
         in GitEntries(c, LedgerReportOf(c, ledger, moves, atts), atts, t)
  {
    var r := LedgerReportOf(c, ledger, moves, atts);
    MissingIffUnlisted(c, ledger, moves, atts, mv);
    EntriesCover(c, r, atts, t, GitEntryOf(c, mv, r, atts, t));
  }

  /** The grant's hash under a shard no hash has. */
  function StrayName(c: Crypto, g: string): string { LEDGER_DIR + "zz/" + c.sha256hex(g) }

  lemma StrayNameFacts(c: Crypto, g: string)
    requires IdealHash(c)
    ensures InLedger(StrayName(c, g)) && StrayName(c, g) != LedgerRefFor(c, g)
    ensures HashOfLedgerRef(StrayName(c, g)) == c.sha256hex(g) && !StartsWith(StrayName(c, g), "refs/heads/")
  {
    var h, name := c.sha256hex(g), StrayName(c, g);
    assert Hex(h) && name[5] == 'c' && "refs/heads/"[5] == 'h';
    assert name[|LEDGER_DIR|] == 'z' && LedgerRefFor(c, g)[|LEDGER_DIR|] == h[0];
    assert name[|name| - |h| - 1] == '/';
    assert forall k :: |name| - |h| <= k < |name| ==> name[k] == h[k - (|name| - |h|)];
    assert LastIndexOf(name, '/') == |name| - |h| - 1;
    assert name[|name| - |h|..] == h;
  }

  /** The claim this command creates. */
  function StrayPush(c: Crypto, g: string, oid: string): seq<Command> { [Command(ZERO, oid, StrayName(c, g))] }

  lemma StrayLands(cfg: Config, s: State, g: string, oid: string)
    requires IdealHash(cfg.host.crypto) && Usable(cfg.host, oid) && StrayName(cfg.host.crypto, g) !in s.repo.refs
    ensures var name := StrayName(cfg.host.crypto, g);
            var s' := PushStep(cfg, s, StrayPush(cfg.host.crypto, g, oid));
            && HookAccepts(StrayPush(cfg.host.crypto, g, oid)) && name in s'.pushed && name in s'.repo.refs
            && (name != REF_A ==> Reflog(s'.repo, REF_A) == Reflog(s.repo, REF_A))
  {
    StrayNameFacts(cfg.host.crypto, g);
    PushClaims(cfg, s, StrayName(cfg.host.crypto, g), oid);
  }

  /** The reader lists no such claim without a move. */
  ghost predicate SilentAbout(cfg: Config, s: State, name: string) {
    forall ledger, atts, e | Lists(s.repo, ledger) ::
      e in LedgerReportOf(cfg.host.crypto, ledger, MovesIn(s.repo, [REF_A]), atts).ledgerWithoutMove ==> e.ref != name
  }

  /** A claim whose hash a marker on REF_A explains is never listed without a move. */
  lemma MarkedIsSilent(cfg: Config, s: State, g: string, name: string)
    requires TrimEnd(g) == g && g != "" && MarkerOf(g) in Reflog(s.repo, REF_A)
    requires HashOfLedgerRef(name) == cfg.host.crypto.sha256hex(g)
    ensures SilentAbout(cfg, s, name)
  {
    TrimmedMarker(g);
    ReadLinesIn(Reflog(s.repo, REF_A), MarkerOf(g));
    LogToMove(s.repo, [REF_A], RefMove(REF_A, g));
    forall ledger, atts, e | Lists(s.repo, ledger)
        && e in LedgerReportOf(cfg.host.crypto, ledger, MovesIn(s.repo, [REF_A]), atts).ledgerWithoutMove
      ensures e.ref != name
    {
      UnseenIsReported(cfg.host.crypto, ledger, MovesIn(s.repo, [REF_A]), atts, e);
    }
  }

  /** A move of g has landed, and its stray claim has been pushed. */
  lemma LandsThenStray(cfg: Config, g: string, oid: string) returns (acts: seq<Action>, s: State)
    requires IdealHash(cfg.host.crypto) && HasGrant(cfg, g, oid) && cfg.host.logged(REF_A)
    ensures Reaches(cfg, acts, s, true) && s.moves == [Move(0, g, REF_A, "absent:", oid)]
    ensures StrayName(cfg.host.crypto, g) in s.pushed && StrayName(cfg.host.crypto, g) in s.repo.refs
    ensures Reflog(s.repo, REF_A) == [MarkerOf(g)]
  {
    var c := cfg.host.crypto;
    var s1;
    acts, s1 := FirstLands(cfg, g, oid);
    StrayNameFacts(c, g);
    StrayIsElsewhere(c, g);
    StrayLands(cfg, s1, g, oid);
    acts := Extend(cfg, acts, s1, true, Push(StrayPush(c, g, oid)));
    s := Next(cfg, s1, Push(StrayPush(c, g, oid)));
  }

  lemma StrayIsElsewhere(c: Crypto, g: string)
    ensures StrayName(c, g) != REF_A
  {
    assert REF_A[5] == 't' && LEDGER_DIR[5] == 'c' && StrayName(c, g)[5] == LEDGER_DIR[5];
  }

  /**
   * After a move of g has landed, the hook accepts a push that creates a claim with g's hash under
   * another shard; the reader does not report that claim, whose hash the landed move already explains.
   */
  lemma MisshardedPushIsSilent(cfg: Config, g: string, oid: string) returns (acts: seq<Action>)
    requires IdealHash(cfg.host.crypto) && HasGrant(cfg, g, oid) && TrimEnd(g) == g && cfg.host.logged(REF_A)
    ensures GovernedRun(acts) && Run(cfg, acts).Some?
    ensures var s := Run(cfg, acts).value;
            var name := StrayName(cfg.host.crypto, g);
            && s.moves == [Move(0, g, REF_A, "absent:", oid)] && name in s.pushed && name in s.repo.refs
            && SilentAbout(cfg, s, name)
  {
    var s;
    acts, s := LandsThenStray(cfg, g, oid);
    StrayNameFacts(cfg.host.crypto, g);
    MarkedIsSilent(cfg, s, g, StrayName(cfg.host.crypto, g));
  }
}
