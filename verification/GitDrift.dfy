/** What is said of a grant after reading its claim: when STATE_DRIFT and the adapter's pre-check can be believed. */
module GitDrift {
  import opened Text
  import opened Crypto
  import opened Clock
  import opened Reclaim
  import opened GitStore
  import opened GitProtocol
  import opened GitSafety
  import opened GitReclaimBound

  /** The answer of call i is true of move k: a move seen at the re-read is not of its grant. */
  predicate DriftIsTrue(s: State, i: nat, k: nat) {
    i < |s.execs| && s.execs[i].pc.Done? && s.execs[i].pc.result.Drift? && k < s.execs[i].seen && k < |s.moves| ==>
      s.moves[k].jti != s.execs[i].call.jti
  }

  ghost predicate EveryDriftIsTrue(cfg: Config) {
    forall acts, i: nat, k: nat :: GovernedRun(acts) && Run(cfg, acts).Some? ==> DriftIsTrue(Run(cfg, acts).value, i, k)
  }

  /** Reclaim also waits for the longest stall between a refused batch and the re-read of its claim. */
  predicate LeewayCoversStall(cfg: Config) {
    EffectiveLeeway(cfg.leeway) >= CLOCK_SKEW_LEEWAY_MS + cfg.lag + cfg.gap + cfg.stall
  }

  /**
   * Every claim a move can leave still reads as one: it stands on a commit, reads are always answered,
   * and reclaim waits for them.
   */
  predicate ClaimsRead(cfg: Config) {
    forall oid :: oid in cfg.host.objects && Usable(cfg.host, oid) ==>
      IsCommit(cfg.host, oid) && !cfg.readsFail && LeewayCoversStall(cfg)
  }

  /** Call i once it has answered STATE_DRIFT. */
  function Drifted(cfg: Config, s: State, i: nat): Exec
    requires i < |s.execs| && s.execs[i].call.pin.Some?
  {
    var call := s.execs[i].call;
    Exec(call, Done(Drift(call.pin.value, ReadRef(cfg.host, s.repo, call.ref))), |s.moves|)
  }

  /** The second call's batch is refused, and it re-reads a claim that stands but is no commit, or is not answered. */
  lemma RefusedReadsDrift(cfg: Config, acts: seq<Action>, s: State, i: nat) returns (acts': seq<Action>)
    requires Reaches(cfg, acts, s, true) && i < |s.execs| && s.execs[i].pc == Ready(s.now) && s.execs[i].call.pin.Some?
    requires var name := LedgerRefFor(cfg.host.crypto, s.execs[i].call.jti);
             name in s.repo.refs && (cfg.readsFail || !IsCommit(cfg.host, s.repo.refs[name]))
    ensures Reaches(cfg, acts', AfterDrift(cfg, s, i), true)
  {
    acts' := Extend(cfg, acts, s, true, BatchFails(i));
    var s1 := Next(cfg, s, BatchFails(i));
    var read := ReadLedger(i, !cfg.readsFail);
    acts' := Extend(cfg, acts', s1, true, read);
    ReadsPresentIff(cfg.host, s.repo, LedgerRefFor(cfg.host.crypto, s.execs[i].call.jti));
    var s2 := Next(cfg, s1, read);
    acts' := Extend(cfg, acts', s2, true, ReadTarget(i, true));
    assert Next(cfg, s2, ReadTarget(i, true)).execs == AfterDrift(cfg, s, i).execs;
  }

  function AfterDrift(cfg: Config, s: State, i: nat): State
    requires i < |s.execs| && s.execs[i].call.pin.Some?
  {
    s.(execs := s.execs[i := Drifted(cfg, s, i)],
       deaf := if cfg.readsFail then s.deaf + {i} else s.deaf - {i},
       late := if s.execs[i].call.jti in s.reclaimed then s.late + {i} else s.late - {i})
  }

  /**
   * A tag is moved, to an object that is no commit or where a read may fail; the same grant, presented
   * for another tag, is then told STATE_DRIFT, grant unspent, although its claim stands and its batch can
   * never land.
   */
  lemma SpentGrantDrifts(cfg: Config, g: string, oid: string) returns (acts: seq<Action>)
    requires HasGrant(cfg, g, oid) && (cfg.readsFail || !IsCommit(cfg.host, oid))
    ensures GovernedRun(acts) && Run(cfg, acts).Some?
    ensures var s := Run(cfg, acts).value;
            && |s.execs| == 2 && s.execs[1].call == Example(g, REF_B, "absent:", oid)
            && s.execs[1].pc == Done(Drift("absent:", "absent:" + REF_B)) && s.execs[1].seen == 1
            && s.moves == [Move(0, g, REF_A, "absent:", oid)]
            && LedgerUntargeted(s) && s.reclaimed == {}
            && LedgerRefFor(cfg.host.crypto, g) in s.repo.refs && Attempt(cfg.host, s.repo, s.execs[1].call).None?
  {
    var s;
    acts, s := FirstLands(cfg, g, oid);
    acts := RefusedReadsDrift(cfg, acts, s, 1);
    TagNames(cfg, g);
    ClaimIsTaken(cfg.host, s.repo, s.execs[1].call);
  }

  lemma TagNames(cfg: Config, g: string)
    ensures REF_A != REF_B && !InLedger(REF_A) && !InLedger(REF_B)
    ensures LedgerRefFor(cfg.host.crypto, g) != REF_A && LedgerRefFor(cfg.host.crypto, g) != REF_B
  {
    assert REF_A[|REF_A| - 1] == 'a' && REF_B[|REF_B| - 1] == 'b';
    assert REF_A[5] == 't' && REF_B[5] == 't' && LEDGER_DIR[5] == 'c';
    ClaimName(cfg.host, g);
  }

  lemma ClaimIsTaken(host: Host, repo: Repo, call: Call)
    requires call.pin.Some? && LedgerRefFor(host.crypto, call.jti) in repo.refs
    requires repo.refs[LedgerRefFor(host.crypto, call.jti)] != ZERO
    ensures Attempt(host, repo, call).None?
  {
  }

  /**
   * A grant lands; the batch of its second call is refused over the standing claim and stalls; the claim is
   * reclaimed; and the re-read, answered and over a commit, finds nothing: STATE_DRIFT, grant unspent.
   */
  lemma StalledReadDrifts(cfg: Config, g: string, oid: string) returns (acts: seq<Action>, s: State)
    requires HasGrant(cfg, g, oid) && !LeewayCoversStall(cfg)
    ensures Reaches(cfg, acts, s, true) && s.moves == [Move(0, g, REF_A, "absent:", oid)] && s.reclaimed == {g}
    ensures |s.execs| == 2 && s.execs[1].call == Example(g, REF_B, "absent:", oid)
    ensures s.execs[1].pc.Done? && s.execs[1].pc.result.Drift? && s.execs[1].seen == 1
  {
    var s1;
    acts, s1 := RefusedThenReclaimed(cfg, g, oid);
    acts := Extend(cfg, acts, s1, true, ReadLedger(1, true));
    ReadsPresentIff(cfg.host, s1.repo, LedgerRefFor(cfg.host.crypto, g));
    var s2 := Next(cfg, s1, ReadLedger(1, true));
    acts := Extend(cfg, acts, s2, true, ReadTarget(1, true));
    s := Next(cfg, s2, ReadTarget(1, true));
  }

  lemma RefusedThenReclaimed(cfg: Config, g: string, oid: string) returns (acts: seq<Action>, s: State)
    requires HasGrant(cfg, g, oid) && !LeewayCoversStall(cfg)
    ensures Reaches(cfg, acts, s, true) && s.moves == [Move(0, g, REF_A, "absent:", oid)] && s.reclaimed == {g}
    ensures |s.execs| == 2 && s.execs[1].call == Example(g, REF_B, "absent:", oid)
    ensures s.execs[1].pc.BatchRefused? && s.now <= s.execs[1].pc.since + cfg.stall
    ensures LedgerRefFor(cfg.host.crypto, g) !in s.repo.refs
  {
    var s0;
    acts, s0 := FirstLands(cfg, g, oid);
    acts := Extend(cfg, acts, s0, true, Tick(cfg.gap));
    var s1 := Next(cfg, s0, Tick(cfg.gap));
    acts := Extend(cfg, acts, s1, true, BatchFails(1));
    var s2 := Next(cfg, s1, BatchFails(1));
    acts, s := ReclaimHappens(cfg, acts, s2, g, cfg.stall);
  }

  // ---------------------------------------------------------------- when the answer is true

  /** The call has found no claim. */
  predicate FoundNone(pc: Pc) { (pc.LedgerRead? && !pc.claimed) || (pc.Done? && pc.result.Drift?) }

  /** If this call found no claim, it had seen no move of its grant. */
  predicate SawNone(s: State, e: Exec) {
    FoundNone(e.pc) ==> e.seen <= |s.moves| && forall k :: 0 <= k < e.seen ==> s.moves[k].jti != e.call.jti
  }

  predicate NoneDenied(s: State) { forall i :: 0 <= i < |s.execs| ==> SawNone(s, s.execs[i]) }

  /** Where claims read, the claim of a landed move is found by every re-read that is still in time. */
  lemma LandedIsFound(cfg: Config, s: State, i: nat, heard: bool, k: nat)
    requires ClaimsRead(cfg) && Safe(cfg, s) && Enabled(cfg, s, ReadLedger(i, heard))
    requires k < |s.moves| && s.moves[k].jti == s.execs[i].call.jti
    ensures Next(cfg, s, ReadLedger(i, heard)).execs[i].pc == LedgerRead(true)
  {
    var m, name := s.moves[k], LedgerRefFor(cfg.host.crypto, s.moves[k].jti);
    assert MoveOk(s, m) && m.oid in cfg.host.objects && Usable(cfg.host, m.oid);
    assert ExecOk(cfg, s, i) && m.jti !in s.reclaimed;
    assert Claimed(cfg, s, m);
    var n :| 0 <= n < |s.moves| && s.moves[n].oid == s.repo.refs[name];
    assert MoveOk(s, s.moves[n]) && s.moves[n].oid in cfg.host.objects && Usable(cfg.host, s.moves[n].oid);
    ReadsPresentIff(cfg.host, s.repo, name);
  }

  lemma SawNoneLater(s: State, s': State, e: Exec, e': Exec)
    requires SawNone(s, e) && FoundNone(e.pc) && s.moves <= s'.moves && e'.call == e.call && e'.seen == e.seen
    ensures SawNone(s', e')
  {
    assert forall k :: 0 <= k < e.seen ==> s.moves[k] == s'.moves[k];
  }

  lemma StepDeniesNone(cfg: Config, s: State, a: Action)
    requires ClaimsRead(cfg) && Safe(cfg, s) && Enabled(cfg, s, a) && NoneDenied(s)
    ensures NoneDenied(Next(cfg, s, a))
  {
    var s' := Next(cfg, s, a);
    forall i | 0 <= i < |s'.execs| && FoundNone(s'.execs[i].pc) ensures SawNone(s', s'.execs[i]) {
      if a.ReadLedger? && a.i == i {
        forall k | 0 <= k < |s.moves| ensures s.moves[k].jti != s.execs[i].call.jti {
          if s.moves[k].jti == s.execs[i].call.jti { LandedIsFound(cfg, s, i, a.heard, k); }
        }
      } else {
        StillFoundNone(cfg, s, a, i);
        SawNoneLater(s, s', s.execs[i], s'.execs[i]);
      }
    }
  }

  /** No other step makes a call miss a claim, or see more moves. */
  lemma StillFoundNone(cfg: Config, s: State, a: Action, i: nat)
    requires Enabled(cfg, s, a) && !(a.ReadLedger? && a.i == i) && i < |Next(cfg, s, a).execs|
    requires FoundNone(Next(cfg, s, a).execs[i].pc)
    ensures i < |s.execs| && FoundNone(s.execs[i].pc)
    ensures var e, e' := s.execs[i], Next(cfg, s, a).execs[i]; e'.call == e.call && e'.seen == e.seen
  {
  }

  lemma {:induction false} NoneDeniedRun(cfg: Config, acts: seq<Action>)
    requires IdealHash(cfg.host.crypto) && LeewayCoversGap(cfg) && ClaimsRead(cfg)
    requires GovernedRun(acts) && Run(cfg, acts).Some?
    ensures NoneDenied(Run(cfg, acts).value)
    decreases |acts|
  {
    if acts != [] {
      var before := acts[..|acts| - 1];
      forall k | 0 <= k < |before| && before[k].Spawn? ensures Governed(before[k].call) { assert before[k] == acts[k]; }
      NoneDeniedRun(cfg, before);
      SafeRun(cfg, before);
      StepDeniesNone(cfg, Run(cfg, before).value, acts[|acts| - 1]);
    }
  }

  /**
   * STATE_DRIFT CAN BE BELIEVED if and only if refs can be moved to commits only, reads do not fail, and
   * reclaim waits 30 s plus clock lag plus gap plus stall: then in every run, whatever is reclaimed and
   * whatever calls are aimed at, a call is answered STATE_DRIFT only for a grant of which no move had
   * landed. (Where no ref can be moved at all, it is always true.)
   */
  lemma DriftIsTrueIff(cfg: Config, g: string)
    requires IdealHash(cfg.host.crypto) && g != "" && '|' !in g && cfg.exp(g) >= 0
    ensures EveryDriftIsTrue(cfg) <==> ClaimsRead(cfg)
  {
    if ClaimsRead(cfg) {
      forall acts, i: nat, k: nat | GovernedRun(acts) && Run(cfg, acts).Some? ensures DriftIsTrue(Run(cfg, acts).value, i, k) {
        if exists oid :: oid in cfg.host.objects && Usable(cfg.host, oid) {
          NoneDeniedRun(cfg, acts);
        } else {
          NothingMoves(cfg, acts);
        }
      }
    } else {
      var oid :| oid in cfg.host.objects && Usable(cfg.host, oid)
                 && !(IsCommit(cfg.host, oid) && !cfg.readsFail && LeewayCoversStall(cfg));
      DriftIsFalse(cfg, g, oid);
    }
  }

  /** Each of the three ways to deny a grant that landed. */
  lemma DriftIsFalse(cfg: Config, g: string, oid: string)
    requires HasGrant(cfg, g, oid) && !(IsCommit(cfg.host, oid) && !cfg.readsFail && LeewayCoversStall(cfg))
    ensures !EveryDriftIsTrue(cfg)
  {
    if LeewayCoversStall(cfg) {
      var acts := SpentGrantDrifts(cfg, g, oid);
      assert !DriftIsTrue(Run(cfg, acts).value, 1, 0);
    } else {
      var acts, s := StalledReadDrifts(cfg, g, oid);
      assert !DriftIsTrue(Run(cfg, acts).value, 1, 0);
    }
  }

  /** A call that is about to move a ref has passed the checks. */
  predicate Prechecked(e: Exec) {
    Governed(e.call) && (e.pc.Checked? || e.pc.Ready? ==> Precheck(e.call).None?)
  }

  /** Without an object to move a ref to, nothing lands. */
  lemma {:induction false} NothingMoves(cfg: Config, acts: seq<Action>)
    requires GovernedRun(acts) && Run(cfg, acts).Some?
    requires !exists oid :: oid in cfg.host.objects && Usable(cfg.host, oid)
    ensures var s := Run(cfg, acts).value; s.moves == [] && forall i :: 0 <= i < |s.execs| ==> Prechecked(s.execs[i])
    decreases |acts|
  {
    if acts != [] {
      var before, a := acts[..|acts| - 1], acts[|acts| - 1];
      forall k | 0 <= k < |before| && before[k].Spawn? ensures Governed(before[k].call) { assert before[k] == acts[k]; }
      NothingMoves(cfg, before);
      var s := Run(cfg, before).value;
      if a.BatchLands? { LandsOnUsable(cfg, s, a.i, a.heard); }
      StepPrechecks(cfg, s, a);
    }
  }

  lemma LandsOnUsable(cfg: Config, s: State, i: nat, heard: bool)
    requires Enabled(cfg, s, BatchLands(i, heard)) && Prechecked(s.execs[i])
    ensures Oid(s.execs[i].call) in cfg.host.objects && Usable(cfg.host, Oid(s.execs[i].call))
  {
    PassedChecks(s.execs[i].call);
    BatchMovesToStored(cfg.host, s.repo, s.execs[i].call);
  }

  lemma StepPrechecks(cfg: Config, s: State, a: Action)
    requires Enabled(cfg, s, a) && (a.Spawn? ==> Governed(a.call))
    requires forall i :: 0 <= i < |s.execs| ==> Prechecked(s.execs[i])
    ensures var s' := Next(cfg, s, a); forall i :: 0 <= i < |s'.execs| ==> Prechecked(s'.execs[i])
  {
    var s' := Next(cfg, s, a);
    forall i | 0 <= i < |s'.execs| ensures Prechecked(s'.execs[i]) {
      if i < |s.execs| { assert Prechecked(s.execs[i]); }
    }
  }

  // ---------------------------------------------------------------- a batch that was not heard of

  /** What the re-reads tell a call about the move its own batch made. */
  function OwnAnswer(host: Host, call: Call, oid: string): Result
    requires call.pin.Some?
  {
    if IsCommit(host, oid) then Refused(GrantAlreadyConsumedCrossRef) else Drift(call.pin.value, "absent:" + call.ref)
  }

  /**
   * Git is killed once its transaction is through: the call answers GRANT_CONSUMED for the grant its own
   * batch spent, or STATE_DRIFT, grant unspent, if the object is no commit. The move stands, unsealed.
   */
  lemma OwnMoveIsDenied(cfg: Config, g: string, oid: string) returns (acts: seq<Action>, s: State)
    requires HasGrant(cfg, g, oid)
    ensures Reaches(cfg, acts, s, true) && s.moves == [Move(0, g, REF_A, "absent:", oid)] && s.signed == {}
    ensures |s.execs| == 2 && s.execs[0].pc == Done(OwnAnswer(cfg.host, Example(g, REF_A, "absent:", oid), oid))
    ensures s.repo.refs == map[LedgerRefFor(cfg.host.crypto, g) := oid, REF_A := oid]
  {
    var s1;
    acts, s1 := LandsUnheard(cfg, g, oid);
    acts := Extend(cfg, acts, s1, true, ReadLedger(0, true));
    ReadsPresentIff(cfg.host, s1.repo, LedgerRefFor(cfg.host.crypto, g));
    var s2 := Next(cfg, s1, ReadLedger(0, true));
    acts := Extend(cfg, acts, s2, true, ReadTarget(0, true));
    s := Next(cfg, s2, ReadTarget(0, true));
  }

  lemma LandsUnheard(cfg: Config, g: string, oid: string) returns (acts: seq<Action>, s: State)
    requires HasGrant(cfg, g, oid)
    ensures Reaches(cfg, acts, s, true) && s.moves == [Move(0, g, REF_A, "absent:", oid)] && s.signed == {}
    ensures |s.execs| == 2 && s.execs[0] == Exec(Example(g, REF_A, "absent:", oid), BatchRefused(s.now), 0)
    ensures s.repo.refs == map[LedgerRefFor(cfg.host.crypto, g) := oid, REF_A := oid]
  {
    var a, b := Example(g, REF_A, "absent:", oid), Example(g, REF_B, "absent:", oid);
    ExampleIsPlain(g, REF_A, "absent:", oid);
    ExampleIsPlain(g, REF_B, "absent:", oid);
    acts := BothGetReady(cfg, a, b);
    var s0 := BothReady(cfg, a, b);
    ClaimName(cfg.host, g);
    CreateLands(cfg, s0, 0, oid);
    acts := Extend(cfg, acts, s0, true, BatchLands(0, false));
    s := Next(cfg, s0, BatchLands(0, false));
  }

  // ---------------------------------------------------------------- the adapter's pre-check

  /** consumeOnce on checked input: whether it reports the grant unclaimed. Any text readRef gives counts as a claim. */
  predicate ReportsUnclaimed(host: Host, repo: Option<Repo>, jti: string) {
    !(repo.Some? && ReadRef(host, repo.value, LedgerRefFor(host.crypto, jti)) != "")
  }

  /** The claim as the re-read of a refused batch would see it. */
  predicate Seen(host: Host, repo: Repo, jti: string) {
    !StartsWith(ReadRef(host, repo, LedgerRefFor(host.crypto, jti)), "absent:")
  }

  /** Given a repository the pre-check always reports the grant consumed, so it is right only where a claim is seen. */
  lemma PrecheckIsRightIff(host: Host, repo: Repo, jti: string)
    ensures !ReportsUnclaimed(host, Some(repo), jti) && ReportsUnclaimed(host, None, jti)
    ensures (ReportsUnclaimed(host, Some(repo), jti) <==> !Seen(host, repo, jti)) <==>
            LedgerRefFor(host.crypto, jti) in repo.refs && IsCommit(host, repo.refs[LedgerRefFor(host.crypto, jti)])
  {
    ReadsPresentIff(host, repo, LedgerRefFor(host.crypto, jti));
    assert |"absent:"| == 7;
  }
}
