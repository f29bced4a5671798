/** What every run of the git executor keeps: one use per grant, ledger and moves in step. */
module GitSafety {
  import opened Text
  import opened Crypto
  import opened Clock
  import opened Reclaim
  import opened GitStore
  import opened GitProtocol

  function MoveOf(i: nat, call: Call): Move
    requires call.pin.Some?
  {
    Move(i, call.jti, call.ref, call.pin.value, Oid(call))
  }

  /** Reclaim waits out the verifiers' leeway, their clock lag and the longest gap to the batch. */
  predicate LeewayCoversGap(cfg: Config) {
    EffectiveLeeway(cfg.leeway) >= CLOCK_SKEW_LEEWAY_MS + cfg.lag + cfg.gap
  }

  ghost predicate LedgerOk(cfg: Config, s: State) {
    && NonZero(s.repo)
    && (forall j :: j in s.reclaimed ==> cfg.exp(j) + EffectiveLeeway(cfg.leeway) < s.now)
    && (forall k :: 0 <= k < |s.moves| ==> Claimed(cfg, s, s.moves[k]))
    && (forall j :: j in s.reclaimed ==> Recreated(cfg, s, j))
  }

  /** A claim that stands after its grant was reclaimed was pushed, unless a call was aimed at it. */
  predicate Recreated(cfg: Config, s: State, jti: string) {
    var name := LedgerRefFor(cfg.host.crypto, jti);
    LedgerUntargeted(s) && name in s.repo.refs ==> name in s.pushed
  }

  /** Some landed move went to this object. */
  predicate MovedTo(s: State, oid: string) { exists k :: 0 <= k < |s.moves| && s.moves[k].oid == oid }

  /** No call has aimed its move at the ledger namespace itself. */
  predicate LedgerUntargeted(s: State) {
    forall i :: 0 <= i < |s.execs| ==> !InLedger(s.execs[i].call.ref)
  }

  /**
   * The claim of a landed move is in the ledger unless it was reclaimed: on the moved-to object, or on
   * that of a call aimed at the claim.
   */
  predicate Claimed(cfg: Config, s: State, m: Move) {
    var name := LedgerRefFor(cfg.host.crypto, m.jti);
    m.jti in s.reclaimed
    || (name in s.repo.refs && MovedTo(s, s.repo.refs[name]) && (LedgerUntargeted(s) ==> s.repo.refs[name] == m.oid))
  }

  ghost predicate MoveOk(s: State, m: Move) {
    && m.jti != "" && IsSha(m.oid) && Lower(m.oid) == m.oid && m.oid != ZERO
    && m.exec < |s.execs| && s.execs[m.exec].call.pin.Some? && m == MoveOf(m.exec, s.execs[m.exec].call)
  }

  /**
   * The re-read of the ledger told the two kinds of objects apart: if a move seen then carries this
   * grant, the claim was found exactly when that move's object is a commit and the read was answered. If
   * the grant had been reclaimed by then, a claim was found only where one was pushed (calls aimed at the
   * ledger aside).
   */
  predicate ReadRight(cfg: Config, s: State, e: Exec, claimed: bool, heard: bool, late: bool) {
    && e.seen <= |s.moves|
    && (!late ==> forall k :: 0 <= k < e.seen && s.moves[k].jti == e.call.jti ==>
          !LedgerUntargeted(s) || (claimed <==> heard && IsCommit(cfg.host, s.moves[k].oid)))
    && (late && claimed ==> !LedgerUntargeted(s) || LedgerRefFor(cfg.host.crypto, e.call.jti) in s.pushed)
  }

  /** The two answers of a call whose batch was refused. */
  predicate AfterRefusedBatch(pc: Pc) {
    pc.Done? && (pc.result.Drift? || pc.result == Refused(GrantAlreadyConsumedCrossRef))
  }

  ghost predicate ExecOk(cfg: Config, s: State, i: nat)
    requires i < |s.execs|
  {
    var e := s.execs[i];
    && Governed(e.call)
    && ((e.pc.Verified? || e.pc.Checked? || e.pc.Ready?) ==>
          e.pc.at <= s.now && e.pc.at <= cfg.exp(e.call.jti) + CLOCK_SKEW_LEEWAY_MS + cfg.lag)
    && (e.pc.BatchRefused? ==> e.pc.since <= cfg.exp(e.call.jti) + CLOCK_SKEW_LEEWAY_MS + cfg.lag + cfg.gap)
    && (!e.pc.Presented? && !e.pc.Verified? && !e.pc.Crashed? && !(e.pc.Done? && e.pc.result.Refused?) ==>
          Precheck(e.call).None?)
    && (e.pc.LedgerRead? ==> ReadRight(cfg, s, e, e.pc.claimed, i !in s.deaf, i in s.late))
    && (AfterRefusedBatch(e.pc) ==> ReadRight(cfg, s, e, !e.pc.result.Drift?, i !in s.deaf, i in s.late))
    && (e.pc.Landed? || e.pc.Sealed? || (e.pc.Done? && e.pc.result.Success?) ==>
          e.call.pin.Some? && MoveOf(i, e.call) in s.moves)
    && (e.pc.Sealed? ==> e.pc.token == SealedToken(cfg.host.crypto, e.call))
    && (e.pc.Done? && e.pc.result.Success? ==>
          e.pc.result == Success(SealedToken(cfg.host.crypto, e.call), SealedPreimage(cfg.host.crypto, e.call)))
  }

  ghost predicate ExecsOk(cfg: Config, s: State) {
    && (forall i :: 0 <= i < |s.execs| ==> ExecOk(cfg, s, i))
    && (forall k :: 0 <= k < |s.moves| ==> MoveOk(s, s.moves[k]) && s.moves[k].oid in cfg.host.objects)
    && (forall i :: i in s.signed ==> SignedOk(s, i))
  }

  /** Whatever was signed was signed for a landed move, over fields that passed the checks. */
  predicate SignedOk(s: State, i: nat) {
    && i < |s.execs| && Precheck(s.execs[i].call).None? && MoveOf(i, s.execs[i].call) in s.moves
  }

  ghost predicate Safe(cfg: Config, s: State) {
    OneUse(s.moves) && LedgerOk(cfg, s) && ExecsOk(cfg, s)
  }

  // ---------------------------------------------------------------- one step

  /** Calls are never forgotten or changed, so what holds of all calls held of all earlier ones. */
  lemma UntargetedBefore(cfg: Config, s: State, a: Action)
    requires Enabled(cfg, s, a)
    ensures LedgerUntargeted(Next(cfg, s, a)) ==> LedgerUntargeted(s)
  {
    var s' := Next(cfg, s, a);
    forall i | 0 <= i < |s.execs| ensures s'.execs[i].call == s.execs[i].call {}
  }

  /** The batch's compare-and-swap on the ledger ref is what stops a second landing. */
  lemma BatchNeedsFreeClaim(host: Host, repo: Repo, call: Call)
    requires call.pin.Some? && NonZero(repo) && Governed(call)
    requires Attempt(host, repo, call).Some?
    ensures var name := LedgerRefFor(host.crypto, call.jti);
            var repo' := Attempt(host, repo, call).value;
            && name !in repo.refs && name in repo'.refs && repo'.refs[name] == Oid(call)
            && call.ref in repo'.refs && repo'.refs[call.ref] == Oid(call)
            && Value(repo, call.ref) == OldOid(call.pin.value)
            && NonZero(repo')
            && (forall r :: r != name && r != call.ref ==>
                  (r in repo.refs <==> r in repo'.refs) && (r in repo.refs ==> repo.refs[r] == repo'.refs[r]))
  {
  }

  /** An earlier claim stands after the batch, and it is for another grant: its own claim was not free. */
  lemma LandKeepsClaim(cfg: Config, s: State, i: nat, heard: bool, k: nat)
    requires IdealHash(cfg.host.crypto) && Enabled(cfg, s, BatchLands(i, heard)) && Governed(s.execs[i].call)
    requires LedgerOk(cfg, s) && k < |s.moves| && s.execs[i].call.jti !in s.reclaimed
    ensures s.moves[k].jti != s.execs[i].call.jti && Claimed(cfg, Land(cfg, s, i, heard), s.moves[k])
  {
    var call, m := s.execs[i].call, s.moves[k];
    BatchNeedsFreeClaim(cfg.host, s.repo, call);
    UntargetedBefore(cfg, s, BatchLands(i, heard));
    assert LedgerUntargeted(s) ==> !InLedger(call.ref);
    assert Claimed(cfg, s, m);
    LedgerRefInLedger(cfg.host.crypto, m.jti);
    if LedgerRefFor(cfg.host.crypto, m.jti) == LedgerRefFor(cfg.host.crypto, call.jti) {
      LedgerRefInjective(cfg.host.crypto, m.jti, call.jti);
    }
    if m.jti !in s.reclaimed { LandMovesTo(cfg, s, i, heard, LedgerRefFor(cfg.host.crypto, m.jti)); }
  }

  /** After a batch a ref is where it was, or where that batch moved it. */
  lemma LandMovesTo(cfg: Config, s: State, i: nat, heard: bool, name: string)
    requires Enabled(cfg, s, BatchLands(i, heard)) && Governed(s.execs[i].call) && NonZero(s.repo)
    requires name in s.repo.refs && MovedTo(s, s.repo.refs[name]) && name != LedgerRefFor(cfg.host.crypto, s.execs[i].call.jti)
    ensures var s' := Land(cfg, s, i, heard); name in s'.repo.refs && MovedTo(s', s'.repo.refs[name])
  {
    var s' := Land(cfg, s, i, heard);
    BatchNeedsFreeClaim(cfg.host, s.repo, s.execs[i].call);
    var k :| 0 <= k < |s.moves| && s.moves[k].oid == s.repo.refs[name];
    assert s'.moves[k] == s.moves[k] && s'.moves[|s.moves|].oid == Oid(s.execs[i].call);
  }

  /** No batch brings back a reclaimed claim: it creates its own, and its grant is not reclaimed. */
  lemma LandRecreatesNone(cfg: Config, s: State, i: nat, heard: bool, jti: string)
    requires IdealHash(cfg.host.crypto) && Enabled(cfg, s, BatchLands(i, heard)) && Governed(s.execs[i].call)
    requires NonZero(s.repo) && Recreated(cfg, s, jti) && s.execs[i].call.jti != jti
    ensures Recreated(cfg, Land(cfg, s, i, heard), jti)
  {
    var call := s.execs[i].call;
    BatchNeedsFreeClaim(cfg.host, s.repo, call);
    UntargetedBefore(cfg, s, BatchLands(i, heard));
    assert LedgerUntargeted(s) ==> !InLedger(call.ref);
    LedgerRefInLedger(cfg.host.crypto, jti);
    if LedgerRefFor(cfg.host.crypto, jti) == LedgerRefFor(cfg.host.crypto, call.jti) {
      LedgerRefInjective(cfg.host.crypto, jti, call.jti);
    }
  }

  lemma LandKeepsLedger(cfg: Config, s: State, i: nat, heard: bool)
    requires IdealHash(cfg.host.crypto) && LeewayCoversGap(cfg)
    requires Safe(cfg, s) && Enabled(cfg, s, BatchLands(i, heard))
    ensures OneUse(Land(cfg, s, i, heard).moves) && LedgerOk(cfg, Land(cfg, s, i, heard))
  {
    var call, s' := s.execs[i].call, Land(cfg, s, i, heard);
    assert ExecOk(cfg, s, i);
    BatchNeedsFreeClaim(cfg.host, s.repo, call);
    assert call.jti !in s.reclaimed;
    forall k | 0 <= k < |s.moves| ensures s.moves[k].jti != call.jti && Claimed(cfg, s', s.moves[k]) {
      LandKeepsClaim(cfg, s, i, heard, k);
    }
    forall j | j in s.reclaimed ensures Recreated(cfg, s', j) { LandRecreatesNone(cfg, s, i, heard, j); }
    LandClaims(cfg, s, i, heard);
  }

  /** The new move's own claim. */
  lemma LandClaims(cfg: Config, s: State, i: nat, heard: bool)
    requires Enabled(cfg, s, BatchLands(i, heard)) && Governed(s.execs[i].call) && NonZero(s.repo)
    ensures var s' := Land(cfg, s, i, heard);
            s'.moves[|s.moves|] == MoveOf(i, s.execs[i].call) && Claimed(cfg, s', s'.moves[|s.moves|])
  {
    BatchNeedsFreeClaim(cfg.host, s.repo, s.execs[i].call);
    var s' := Land(cfg, s, i, heard);
    assert s'.moves[|s.moves|].oid == Oid(s.execs[i].call);
  }

  lemma PushKeepsLedger(cfg: Config, s: State, cmds: seq<Command>)
    requires LedgerOk(cfg, s)
    ensures LedgerOk(cfg, PushStep(cfg, s, cmds))
  {
    UntargetedBefore(cfg, s, Push(cmds));
    if HookAccepts(cmds) {
      ReceivePackNonZero(cfg.host, s.repo, cmds);
      forall k | 0 <= k < |s.moves| ensures Claimed(cfg, PushStep(cfg, s, cmds), s.moves[k]) {
        var m := s.moves[k];
        assert Claimed(cfg, s, m);
        if m.jti !in s.reclaimed {
          LedgerRefInLedger(cfg.host.crypto, m.jti);
          LedgerAppendOnly(cfg.host, s.repo, cmds, LedgerRefFor(cfg.host.crypto, m.jti));
        }
      }
    } else {
      forall k | 0 <= k < |s.moves| ensures Claimed(cfg, PushStep(cfg, s, cmds), s.moves[k]) {
        assert Claimed(cfg, s, s.moves[k]);
      }
    }
  }

  lemma ReclaimKeepsLedger(cfg: Config, s: State, a: Action)
    requires IdealHash(cfg.host.crypto) && LedgerOk(cfg, s) && a.ReclaimEntry? && Enabled(cfg, s, a)
    ensures LedgerOk(cfg, Next(cfg, s, a))
  {
    var s' := Next(cfg, s, a);
    UntargetedBefore(cfg, s, a);
    EligibleMeansDead(Some(a.grant), a.opts);
    forall k | 0 <= k < |s.moves| ensures Claimed(cfg, s', s.moves[k]) {
      assert Claimed(cfg, s, s.moves[k]);
      if s.moves[k].jti != a.jti
         && LedgerRefFor(cfg.host.crypto, s.moves[k].jti) == LedgerRefFor(cfg.host.crypto, a.jti) {
        LedgerRefInjective(cfg.host.crypto, s.moves[k].jti, a.jti);
      }
    }
  }

  lemma StepKeepsLedger(cfg: Config, s: State, a: Action)
    requires IdealHash(cfg.host.crypto) && LeewayCoversGap(cfg)
    requires Safe(cfg, s) && Enabled(cfg, s, a)
    ensures OneUse(Next(cfg, s, a).moves) && LedgerOk(cfg, Next(cfg, s, a))
  {
    UntargetedBefore(cfg, s, a);
    match a
    case BatchLands(i, heard) => LandKeepsLedger(cfg, s, i, heard);
    case Push(cmds) => PushKeepsLedger(cfg, s, cmds);
    case ReclaimEntry(_, _, _) => ReclaimKeepsLedger(cfg, s, a);
    case _ => QuietKeepsLedger(cfg, s, Next(cfg, s, a));
  }

  /** A step that touches no ref and no history of the ledger. */
  lemma QuietKeepsLedger(cfg: Config, s: State, s': State)
    requires LedgerOk(cfg, s) && s'.repo == s.repo && s'.moves == s.moves && s'.pushed == s.pushed
    requires s'.reclaimed == s.reclaimed && s.now <= s'.now && (LedgerUntargeted(s') ==> LedgerUntargeted(s))
    ensures LedgerOk(cfg, s')
  {
    forall k | 0 <= k < |s.moves| ensures Claimed(cfg, s', s.moves[k]) { ClaimedStays(cfg, s, s', s.moves[k]); }
    forall j | j in s.reclaimed ensures Recreated(cfg, s', j) { assert Recreated(cfg, s, j); }
  }

  lemma ClaimedStays(cfg: Config, s: State, s': State, m: Move)
    requires Claimed(cfg, s, m) && s'.repo.refs == s.repo.refs && s'.moves == s.moves
    requires s'.reclaimed == s.reclaimed && (LedgerUntargeted(s') ==> LedgerUntargeted(s))
    ensures Claimed(cfg, s', m)
  {
  }

  /** Steps of other calls, pushes, ticks and reclaims leave a call's facts standing. */
  lemma ExecOkFrame(cfg: Config, s: State, s': State, i: nat)
    requires i < |s.execs| && i < |s'.execs| && s.execs[i] == s'.execs[i]
    requires ExecOk(cfg, s, i)
    requires s.moves <= s'.moves && s.reclaimed <= s'.reclaimed && s.now <= s'.now
    requires (LedgerUntargeted(s') ==> LedgerUntargeted(s)) && s.pushed <= s'.pushed
    requires (i in s.deaf <==> i in s'.deaf) && (i in s.late <==> i in s'.late)
    ensures ExecOk(cfg, s', i)
  {
    var e := s.execs[i];
    if e.call.pin.Some? && MoveOf(i, e.call) in s.moves {
      var k :| 0 <= k < |s.moves| && s.moves[k] == MoveOf(i, e.call);
      assert s'.moves[k] == MoveOf(i, e.call);
    }
  }

  /** Reading a ref finds something exactly when it is there and peels to a commit. */
  lemma ReadsPresentIff(host: Host, repo: Repo, ref: string)
    ensures !StartsWith(ReadRef(host, repo, ref), "absent:") <==> ref in repo.refs && IsCommit(host, repo.refs[ref])
  {
    if ref in repo.refs && IsCommit(host, repo.refs[ref]) {
      var oid := host.objects[repo.refs[ref]].value;
      assert HexDigit(LowerChar(oid[2]));
      assert "absent:"[2] == 's';
    }
  }

  /** So the claim of a landed move is seen if and only if the moved-to object is a commit. */
  lemma ClaimIsSeenIffCommit(cfg: Config, s: State, m: Move)
    requires Claimed(cfg, s, m) && m.jti !in s.reclaimed && LedgerUntargeted(s)
    ensures !StartsWith(ReadRef(cfg.host, s.repo, LedgerRefFor(cfg.host.crypto, m.jti)), "absent:")
       <==> IsCommit(cfg.host, m.oid)
  {
    ReadsPresentIff(cfg.host, s.repo, LedgerRefFor(cfg.host.crypto, m.jti));
  }

  /** The re-read of the ledger is where the invariant pays. */
  lemma ReadLedgerOk(cfg: Config, s: State, i: nat, heard: bool)
    requires Safe(cfg, s) && Enabled(cfg, s, ReadLedger(i, heard))
    ensures ExecOk(cfg, Next(cfg, s, ReadLedger(i, heard)), i)
  {
    var s' := Next(cfg, s, ReadLedger(i, heard));
    UntargetedBefore(cfg, s, ReadLedger(i, heard));
    var e := s.execs[i];
    assert ExecOk(cfg, s, i);
    forall k | 0 <= k < |s.moves| && s.moves[k].jti == e.call.jti && e.call.jti !in s.reclaimed && LedgerUntargeted(s)
      ensures s'.execs[i].pc.claimed <==> heard && IsCommit(cfg.host, s.moves[k].oid)
    {
      ClaimIsSeenIffCommit(cfg, s, s.moves[k]);
    }
  }

  lemma LandOk(cfg: Config, s: State, i: nat, heard: bool)
    requires Safe(cfg, s) && Enabled(cfg, s, BatchLands(i, heard))
    ensures ExecOk(cfg, Land(cfg, s, i, heard), i)
  {
    assert ExecOk(cfg, s, i);
    assert Land(cfg, s, i, heard).moves[|s.moves|] == MoveOf(i, s.execs[i].call);
  }

  lemma ActorOk(cfg: Config, s: State, a: Action, i: nat)
    requires Safe(cfg, s) && Enabled(cfg, s, a) && i < |s.execs|
    requires Next(cfg, s, a).execs[i] != s.execs[i]
    ensures ExecOk(cfg, Next(cfg, s, a), i)
  {
    assert ExecOk(cfg, s, i);
    match a
    case BatchLands(k, heard) => LandOk(cfg, s, k, heard);
    case ReadLedger(k, heard) => ReadLedgerOk(cfg, s, k, heard);
    case _ => QuietActorOk(cfg, s, a, i);
  }

  /** The other steps of a call itself: its own facts are enough. */
  lemma QuietActorOk(cfg: Config, s: State, a: Action, i: nat)
    requires i < |s.execs| && ExecOk(cfg, s, i) && Enabled(cfg, s, a) && !a.BatchLands? && !a.ReadLedger?
    requires Next(cfg, s, a).execs[i] != s.execs[i]
    ensures ExecOk(cfg, Next(cfg, s, a), i)
  {
    var s' := Next(cfg, s, a);
    if a.Verify? || a.Check? || a.ReadReflog? {
      EarlyActorOk(cfg, s, a, i);
    } else if a.ReadTarget? {
      AnsweredOk(cfg, s, i, a.heard);
    } else if a.Seal? {
      SealedOk(cfg, s, i);
    } else if a.Return? {
      ReturnedOk(cfg, s, i);
    } else if a.Crash? || a.BatchFails? {
      ExecOkAt(cfg, s, s', i);
    }
  }

  /** Up to the batch: the instant of verification and the outcome of the checks. */
  lemma EarlyActorOk(cfg: Config, s: State, a: Action, i: nat)
    requires i < |s.execs| && ExecOk(cfg, s, i) && Enabled(cfg, s, a)
    requires (a.Verify? || a.Check? || a.ReadReflog?) && a.i == i
    ensures ExecOk(cfg, Next(cfg, s, a), i)
  {
  }

  lemma AnsweredOk(cfg: Config, s: State, i: nat, heard: bool)
    requires i < |s.execs| && ExecOk(cfg, s, i) && Enabled(cfg, s, ReadTarget(i, heard))
    ensures ExecOk(cfg, Next(cfg, s, ReadTarget(i, heard)), i)
  {
    UntargetedBefore(cfg, s, ReadTarget(i, heard));
  }

  lemma SealedOk(cfg: Config, s: State, i: nat)
    requires i < |s.execs| && ExecOk(cfg, s, i) && Enabled(cfg, s, Seal(i))
    ensures ExecOk(cfg, Next(cfg, s, Seal(i)), i)
  {
  }

  lemma ReturnedOk(cfg: Config, s: State, i: nat)
    requires i < |s.execs| && ExecOk(cfg, s, i) && Enabled(cfg, s, Return(i))
    ensures ExecOk(cfg, Next(cfg, s, Return(i)), i)
  {
  }

  /** A call that gives up or crashes keeps nothing but its checks. */
  lemma ExecOkAt(cfg: Config, s: State, s': State, i: nat)
    requires i < |s.execs| && i < |s'.execs| && ExecOk(cfg, s, i) && s'.execs[i].call == s.execs[i].call
    requires s'.execs[i].pc.Crashed?
             || (s.execs[i].pc.Ready? && s'.execs[i].pc == BatchRefused(s.now) && s.now <= s.execs[i].pc.at + cfg.gap)
    ensures ExecOk(cfg, s', i)
  {
  }

  lemma StepKeepsMoves(cfg: Config, s: State, a: Action)
    requires Safe(cfg, s) && Enabled(cfg, s, a)
    ensures var s' := Next(cfg, s, a);
            forall k :: 0 <= k < |s'.moves| ==> MoveOk(s', s'.moves[k]) && s'.moves[k].oid in cfg.host.objects
  {
    var s' := Next(cfg, s, a);
    forall k | 0 <= k < |s'.moves| ensures MoveOk(s', s'.moves[k]) && s'.moves[k].oid in cfg.host.objects {
      if k < |s.moves| {
        MoveOkLater(cfg, s, a, k);
      } else {
        assert ExecOk(cfg, s, a.i);
        NewMoveOk(cfg, s, a.i, a.heard);
      }
    }
  }

  lemma MoveOkLater(cfg: Config, s: State, a: Action, k: nat)
    requires Enabled(cfg, s, a) && k < |s.moves| && MoveOk(s, s.moves[k])
    ensures var s' := Next(cfg, s, a); k < |s'.moves| && s'.moves[k] == s.moves[k] && MoveOk(s', s.moves[k])
  {
  }

  /** What a landed batch moved to: a stored object with a lower-case, non-zero id. */
  lemma NewMoveOk(cfg: Config, s: State, i: nat, heard: bool)
    requires Enabled(cfg, s, BatchLands(i, heard)) && ExecOk(cfg, s, i)
    ensures var s' := Land(cfg, s, i, heard); MoveOk(s', s'.moves[|s.moves|]) && s'.moves[|s.moves|].oid in cfg.host.objects
  {
    PassedChecks(s.execs[i].call);
    BatchMovesToStored(cfg.host, s.repo, s.execs[i].call);
    assert Land(cfg, s, i, heard).moves[|s.moves|] == MoveOf(i, s.execs[i].call);
  }

  lemma PassedChecks(call: Call)
    requires Precheck(call).None? && Governed(call)
    ensures call.jti != "" && call.pin.Some? && IsSha(Oid(call)) && Lower(Oid(call)) == Oid(call) && Oid(call) != ZERO
  {
    LowerIsSha(call.newSha);
  }

  lemma BatchMovesToStored(host: Host, repo: Repo, call: Call)
    requires call.pin.Some? && Governed(call) && Attempt(host, repo, call).Some?
    ensures Oid(call) in host.objects
  {
  }

  lemma LowerIsSha(s: string)
    requires IsSha(s)
    ensures IsSha(Lower(s)) && Lower(Lower(s)) == Lower(s)
  {
    LowerTwice(s);
    assert forall i :: 0 <= i < |s| ==> LowerChar(LowerChar(s[i])) == LowerChar(s[i]);
  }

  lemma StepKeepsSigned(cfg: Config, s: State, a: Action)
    requires Safe(cfg, s) && Enabled(cfg, s, a)
    ensures var s' := Next(cfg, s, a); forall i :: i in s'.signed ==> SignedOk(s', i)
  {
    var s' := Next(cfg, s, a);
    if a.Seal? { assert ExecOk(cfg, s, a.i); }
    forall i | i in s'.signed ensures SignedOk(s', i) {
      assert i in s.signed ==> SignedOk(s, i);
      SignedLater(cfg, s, a, i);
    }
  }

  lemma SignedLater(cfg: Config, s: State, a: Action, i: nat)
    requires Enabled(cfg, s, a) && SignedOk(s, i)
    ensures SignedOk(Next(cfg, s, a), i)
  {
    var s' := Next(cfg, s, a);
    assert s'.execs[i].call == s.execs[i].call && s.moves <= s'.moves;
  }

  lemma StepKeepsExecs(cfg: Config, s: State, a: Action)
    requires Safe(cfg, s) && Enabled(cfg, s, a) && (a.Spawn? ==> Governed(a.call))
    ensures ExecsOk(cfg, Next(cfg, s, a))
  {
    var s' := Next(cfg, s, a);
    UntargetedBefore(cfg, s, a);
    forall i | 0 <= i < |s'.execs| ensures ExecOk(cfg, s', i) {
      if i < |s.execs| {
        if s'.execs[i] == s.execs[i] {
          ExecOkFrame(cfg, s, s', i);
        } else {
          ActorOk(cfg, s, a, i);
        }
      }
    }
    StepKeepsMoves(cfg, s, a);
    StepKeepsSigned(cfg, s, a);
  }

  // ---------------------------------------------------------------- whole runs

  lemma {:induction false} SafeRun(cfg: Config, acts: seq<Action>)
    requires IdealHash(cfg.host.crypto) && LeewayCoversGap(cfg)
    requires GovernedRun(acts) && Run(cfg, acts).Some?
    ensures Safe(cfg, Run(cfg, acts).value)
    decreases |acts|
  {
    if acts != [] {
      var before := acts[..|acts| - 1];
      forall k | 0 <= k < |before| && before[k].Spawn? ensures Governed(before[k].call) {
        assert before[k] == acts[k];
      }
      SafeRun(cfg, before);
      var s, a := Run(cfg, before).value, acts[|acts| - 1];
      StepKeepsLedger(cfg, s, a);
      StepKeepsExecs(cfg, s, a);
    }
  }

  /**
   * ONE USE. Over every interleaving of any number of calls with pushes, ticks, crashes and reclaims,
   * each grant lands at most one move, and its claim stands in the ledger until it is reclaimed.
   */
  lemma OneUseOverRuns(cfg: Config, acts: seq<Action>)
    requires IdealHash(cfg.host.crypto) && LeewayCoversGap(cfg)
    requires GovernedRun(acts) && Run(cfg, acts).Some?
    ensures var s := Run(cfg, acts).value;
            && OneUse(s.moves)
            && (forall k :: 0 <= k < |s.moves| && s.moves[k].jti !in s.reclaimed ==>
                  LedgerRefFor(cfg.host.crypto, s.moves[k].jti) in s.repo.refs)
  {
    SafeRun(cfg, acts);
    var s := Run(cfg, acts).value;
    forall k | 0 <= k < |s.moves| && s.moves[k].jti !in s.reclaimed
      ensures LedgerRefFor(cfg.host.crypto, s.moves[k].jti) in s.repo.refs
    {
      assert Claimed(cfg, s, s.moves[k]);
    }
  }

  /**
   * WHEN STATE_DRIFT TELLS THE TRUTH. A call whose batch was refused answers STATE_DRIFT (the grant is
   * unspent) or GRANT_CONSUMED. If its grant had already landed a move by the re-read, the answer is
   * GRANT_CONSUMED when that move's object is a commit and the re-read was answered, and STATE_DRIFT
   * when not; but if the grant had been reclaimed by then, it is STATE_DRIFT unless somebody pushed the
   * claim. (A call aimed at the ledger makes either answer possible.)
   */
  lemma DriftMeansUnspent(cfg: Config, acts: seq<Action>, i: nat, k: nat)
    requires IdealHash(cfg.host.crypto) && LeewayCoversGap(cfg)
    requires GovernedRun(acts) && Run(cfg, acts).Some?
    requires var s := Run(cfg, acts).value;
             && i < |s.execs| && AfterRefusedBatch(s.execs[i].pc) && k < s.execs[i].seen && k < |s.moves|
             && LedgerUntargeted(s) && s.moves[k].jti == s.execs[i].call.jti
    ensures var s := Run(cfg, acts).value;
            && (i !in s.late ==> (s.execs[i].pc.result.Drift? <==> i in s.deaf || !IsCommit(cfg.host, s.moves[k].oid)))
            && (i in s.late && LedgerRefFor(cfg.host.crypto, s.execs[i].call.jti) !in s.pushed ==>
                  s.execs[i].pc.result.Drift?)
  {
    SafeRun(cfg, acts);
    var s := Run(cfg, acts).value;
    assert ExecOk(cfg, s, i);
  }

  /**
   * TOGETHER OR NOT AT ALL. A step either lands no move and creates no executor claim, or it lands
   * exactly one: the claim was absent and now stands, and the target went from the pinned value to
   * the new one, all in that step.
   */
  lemma ClaimAndMoveTogether(cfg: Config, s: State, a: Action)
    requires Safe(cfg, s) && Enabled(cfg, s, a)
    ensures var s' := Next(cfg, s, a);
            if a.BatchLands? then
              var call := s.execs[a.i].call;
              var name := LedgerRefFor(cfg.host.crypto, call.jti);
              && s'.moves == s.moves + [MoveOf(a.i, call)]
              && name !in s.repo.refs && name in s'.repo.refs && s'.repo.refs[name] == Oid(call)
              && Value(s.repo, call.ref) == OldOid(call.pin.value) && Value(s'.repo, call.ref) == Oid(call)
            else
              && s'.moves == s.moves
              && (!a.Push? ==> s'.repo.refs.Keys <= s.repo.refs.Keys)
  {
    if a.BatchLands? {
      assert ExecOk(cfg, s, a.i);
      BatchNeedsFreeClaim(cfg.host, s.repo, s.execs[a.i].call);
    }
  }
}
