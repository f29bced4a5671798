/** When GRANT_CONSUMED, said of a grant whose batch was refused, can be believed. */
module GitConsumed {
  import opened Text
  import opened Crypto
  import opened GitStore
  import opened GitProtocol
  import opened GitSafety
  import opened GitRecovery
  import opened GitReclaimBound

  function ClaimOf(cfg: Config, e: Exec): string { LedgerRefFor(cfg.host.crypto, e.call.jti) }

  /** A move of the call's grant had landed by its re-read of the ledger. */
  predicate HadLanded(s: State, e: Exec) {
    exists k :: 0 <= k < e.seen && k < |s.moves| && s.moves[k].jti == e.call.jti
  }

  /** Some call moves the very ref that is this grant's claim. */
  predicate AimedAt(s: State, name: string) {
    exists i :: 0 <= i < |s.execs| && s.execs[i].call.ref == name
  }

  /** The call found a claim: in the answer, or on its way there. */
  predicate FoundClaim(pc: Pc) {
    (pc.LedgerRead? && pc.claimed) || pc == Done(Refused(GrantAlreadyConsumedCrossRef))
  }

  /** Where a claim that was found came from. */
  predicate Explains(cfg: Config, s: State, e: Exec) {
    FoundClaim(e.pc) ==> HadLanded(s, e) || ClaimOf(cfg, e) in s.pushed || AimedAt(s, ClaimOf(cfg, e))
  }

  predicate AllExplained(cfg: Config, s: State) {
    forall i :: 0 <= i < |s.execs| ==> Explains(cfg, s, s.execs[i])
  }

  // ---------------------------------------------------------------- one step

  lemma ExplainedStays(cfg: Config, s: State, a: Action, e: Exec)
    requires Enabled(cfg, s, a) && Explains(cfg, s, e)
    ensures Explains(cfg, Next(cfg, s, a), e)
  {
    var s' := Next(cfg, s, a);
    if k :| 0 <= k < e.seen && k < |s.moves| && s.moves[k].jti == e.call.jti { assert s'.moves[k] == s.moves[k]; }
    if i :| 0 <= i < |s.execs| && s.execs[i].call.ref == ClaimOf(cfg, e) { assert s'.execs[i].call == s.execs[i].call; }
  }

  /** Everything in the ledger has a known origin: this grant's own move, a push, or a call aimed at the claim. */
  lemma ClaimHasOrigin(cfg: Config, s: State, e: Exec)
    requires IdealHash(cfg.host.crypto) && ExecsOk(cfg, s) && OriginsOk(cfg, s) && ClaimOf(cfg, e) in s.repo.refs
    ensures HadLanded(s, e.(seen := |s.moves|)) || ClaimOf(cfg, e) in s.pushed || AimedAt(s, ClaimOf(cfg, e))
  {
    var name := ClaimOf(cfg, e);
    LedgerRefInLedger(cfg.host.crypto, e.call.jti);
    assert Accounted(cfg.host.crypto, s, name);
    if name !in s.pushed {
      var k :| 0 <= k < |s.moves| && (name == LedgerRefFor(cfg.host.crypto, s.moves[k].jti) || name == s.moves[k].ref);
      assert MoveOk(s, s.moves[k]);
      if name == LedgerRefFor(cfg.host.crypto, s.moves[k].jti) {
        LedgerRefInjective(cfg.host.crypto, e.call.jti, s.moves[k].jti);
      }
    }
  }

  /** The re-read finds what is in the ledger. */
  lemma ReadExplains(cfg: Config, s: State, i: nat, heard: bool)
    requires IdealHash(cfg.host.crypto) && ExecsOk(cfg, s) && OriginsOk(cfg, s) && Enabled(cfg, s, ReadLedger(i, heard))
    ensures Explains(cfg, Next(cfg, s, ReadLedger(i, heard)), Next(cfg, s, ReadLedger(i, heard)).execs[i])
  {
    var e, s' := s.execs[i], Next(cfg, s, ReadLedger(i, heard));
    ReadsPresentIff(cfg.host, s.repo, ClaimOf(cfg, e));
    if FoundClaim(s'.execs[i].pc) {
      ClaimHasOrigin(cfg, s, e);
      assert forall j :: 0 <= j < |s.execs| ==> s'.execs[j].call == s.execs[j].call;
    }
  }

  lemma StepExplains(cfg: Config, s: State, a: Action)
    requires IdealHash(cfg.host.crypto) && ExecsOk(cfg, s) && OriginsOk(cfg, s) && AllExplained(cfg, s) && Enabled(cfg, s, a)
    ensures AllExplained(cfg, Next(cfg, s, a))
  {
    var s' := Next(cfg, s, a);
    forall i | 0 <= i < |s'.execs| ensures Explains(cfg, s', s'.execs[i]) {
      if i < |s.execs| {
        assert Explains(cfg, s, s.execs[i]);
        ExplainedStays(cfg, s, a, s.execs[i]);
        if a.ReadLedger? && a.i == i {
          ReadExplains(cfg, s, i, a.heard);
        } else {
          OnlyReadFinds(cfg, s, a, i);
          MovedOnExplains(cfg, s', s.execs[i], s'.execs[i]);
        }
      }
    }
  }

  /** No other step makes a call find a claim it had not found. */
  lemma OnlyReadFinds(cfg: Config, s: State, a: Action, i: nat)
    requires Enabled(cfg, s, a) && i < |s.execs| && !(a.ReadLedger? && a.i == i)
    ensures var e, e' := s.execs[i], Next(cfg, s, a).execs[i];
            e'.call == e.call && e'.seen == e.seen && (FoundClaim(e'.pc) ==> FoundClaim(e.pc))
  {
  }

  lemma MovedOnExplains(cfg: Config, s: State, e: Exec, e': Exec)
    requires Explains(cfg, s, e) && e'.call == e.call && e'.seen == e.seen && (FoundClaim(e'.pc) ==> FoundClaim(e.pc))
    ensures Explains(cfg, s, e')
  {
  }

  lemma {:induction false} ExplainedRun(cfg: Config, acts: seq<Action>)
    requires IdealHash(cfg.host.crypto) && LeewayCoversGap(cfg)
    requires GovernedRun(acts) && Run(cfg, acts).Some?
    ensures AllExplained(cfg, Run(cfg, acts).value)
    decreases |acts|
  {
    if acts != [] {
      var before := acts[..|acts| - 1];
      forall k | 0 <= k < |before| && before[k].Spawn? ensures Governed(before[k].call) { assert before[k] == acts[k]; }
      ExplainedRun(cfg, before);
      RecordedRun(cfg, before);
      StepExplains(cfg, Run(cfg, before).value, acts[|acts| - 1]);
    }
  }

  // ---------------------------------------------------------------- the theorem and its run

  /**
   * WHEN GRANT_CONSUMED TELLS THE TRUTH. Of a call that was told GRANT_CONSUMED after its batch was refused
   * (its grant not reclaimed, no call aimed at its claim), a move of its grant had landed by the re-read
   * if and only if no push created its claim.
   */
  lemma ConsumedIsTrueIff(cfg: Config, acts: seq<Action>, i: nat)
    requires IdealHash(cfg.host.crypto) && LeewayCoversGap(cfg)
    requires GovernedRun(acts) && Run(cfg, acts).Some?
    requires var s := Run(cfg, acts).value;
             && i < |s.execs| && s.execs[i].pc == Done(Refused(GrantAlreadyConsumedCrossRef))
             && s.execs[i].call.jti !in s.reclaimed && !AimedAt(s, ClaimOf(cfg, s.execs[i]))
    ensures var s := Run(cfg, acts).value;
            HadLanded(s, s.execs[i]) <==> ClaimOf(cfg, s.execs[i]) !in s.pushed
  {
    ExplainedRun(cfg, acts);
    RecordedRun(cfg, acts);
    var s := Run(cfg, acts).value;
    assert Explains(cfg, s, s.execs[i]);
  }

  /** The claim this command creates. */
  function ClaimPush(c: Crypto, g: string, oid: string): seq<Command> { [Command(ZERO, oid, LedgerRefFor(c, g))] }

  lemma ClaimPushLands(cfg: Config, g: string, oid: string)
    requires HasGrant(cfg, g, oid)
    ensures HookAccepts(ClaimPush(cfg.host.crypto, g, oid))
    ensures var s := PushStep(cfg, Init, ClaimPush(cfg.host.crypto, g, oid));
            && s.repo.refs == map[LedgerRefFor(cfg.host.crypto, g) := oid] && s.pushed == {LedgerRefFor(cfg.host.crypto, g)}
            && s.now == 0 && s.moves == [] && s.execs == [] && s.reclaimed == {} && Reflog(s.repo, REF_A) == []
  {
    ClaimName(cfg.host, g);
    assert REF_A[5] == 't' && LEDGER_DIR[5] == 'c';
    PushClaims(cfg, Init, LedgerRefFor(cfg.host.crypto, g), oid);
  }

  /** A pushed claim on a commit, and then a call for that grant that is about to have its batch refused. */
  lemma PushedThenReady(cfg: Config, g: string, oid: string) returns (acts: seq<Action>, s: State)
    requires HasGrant(cfg, g, oid)
    ensures Reaches(cfg, acts, s, true) && s.moves == [] && s.reclaimed == {} && LedgerRefFor(cfg.host.crypto, g) in s.pushed
    ensures s.execs == [Exec(Example(g, REF_A, "absent:", oid), Ready(0), 0)] && s.now == 0
    ensures s.repo.refs == map[LedgerRefFor(cfg.host.crypto, g) := oid]
  {
    var call := Example(g, REF_A, "absent:", oid);
    ExampleIsPlain(g, REF_A, "absent:", oid);
    ClaimPushLands(cfg, g, oid);
    acts := [];
    acts := Extend(cfg, acts, Init, true, Push(ClaimPush(cfg.host.crypto, g, oid)));
    var s1 := PushStep(cfg, Init, ClaimPush(cfg.host.crypto, g, oid));
    acts := Extend(cfg, acts, s1, true, Spawn(call));
    var s2 := Next(cfg, s1, Spawn(call));
    assert s2.execs == [Exec(call, Presented, 0)];
    acts := Prepare(cfg, acts, s2, true, 0, 0);
    s := Goto(s2, 0, Ready(0));
  }

  /** The hook accepts the push of a grant's claim; the grant, never used, is then refused as consumed. */
  lemma PushedClaimRefuses(cfg: Config, g: string, oid: string) returns (acts: seq<Action>, s: State)
    requires HasGrant(cfg, g, oid) && IsCommit(cfg.host, oid)
    ensures Reaches(cfg, acts, s, true) && s.moves == [] && s.reclaimed == {}
    ensures |s.execs| == 1 && s.execs[0].call == Example(g, REF_A, "absent:", oid)
    ensures s.execs[0].pc == Done(Refused(GrantAlreadyConsumedCrossRef))
  {
    var s0;
    acts, s0 := PushedThenReady(cfg, g, oid);
    acts := Extend(cfg, acts, s0, true, BatchFails(0));
    var s1 := Next(cfg, s0, BatchFails(0));
    acts := Extend(cfg, acts, s1, true, ReadLedger(0, true));
    ReadsPresentIff(cfg.host, s1.repo, LedgerRefFor(cfg.host.crypto, g));
    var s2 := Next(cfg, s1, ReadLedger(0, true));
    acts := Extend(cfg, acts, s2, true, ReadTarget(0, true));
    s := Next(cfg, s2, ReadTarget(0, true));
  }
}
