/** Recovery is exact: what reconcileGit says about every state the executors, pushes and crashes can reach. */
module GitRecovery {
  import opened Text
  import opened Crypto
  import opened GitStore
  import opened GitProtocol
  import opened GitSafety
  import opened Reconcile
  import Attestation

  // ---------------------------------------------------------------- the target descriptor

  lemma LastIndexIs(s: string, c: char, at: nat)
    requires at < |s| && s[at] == c && forall k :: at < k < |s| ==> s[k] != c
    ensures LastIndexOf(s, c) == at
  {
  }

  /** The ref is read back exactly when the pinned old value holds no '@'. */
  lemma DescriptorRoundTrip(ref: string, pin: string, newSha: string)
    requires IsSha(newSha)
    ensures GitRefOfTarget(GitTargetDescriptor(ref, pin, newSha)) == Some(ref) <==> '@' !in pin
  {
    var d := GitTargetDescriptor(ref, pin, newSha);
    var tail := "->" + newSha;
    assert forall k :: 0 <= k < |newSha| ==> HexDigit(LowerChar(newSha[k]));
    assert '@' !in tail;
    assert d == "git:" + ref + "@" + pin + tail;
    var here := 4 + |ref|;
    assert d[here] == '@';
    assert forall k :: here + 1 <= k < here + 1 + |pin| ==> d[k] == pin[k - here - 1];
    assert forall k :: here + 1 + |pin| <= k < |d| ==> d[k] == tail[k - here - 1 - |pin|];
    if '@' in pin {
      var j :| 0 <= j < |pin| && pin[j] == '@';
      assert d[here + 1 + j] == '@';
      assert LastIndexOf(d, '@') > here;
    } else {
      LastIndexIs(d, '@', here);
      assert d[4..here] == ref;
    }
  }

  /** For a hexadecimal pin that is always; for an absent: pin it is a condition on the pin. */
  lemma HexPinHasNoAt(pin: string)
    requires IsSha(pin)
    ensures '@' !in pin
  {
    assert forall k :: 0 <= k < |pin| ==> HexDigit(LowerChar(pin[k]));
  }

  /** Cutting inside an absent: pin leaves its ':' behind. */
  lemma WrongCutShows(ref: string, pin: string, newSha: string)
    requires StartsWith(pin, "absent:") && '@' in pin
    ensures var r := GitRefOfTarget(GitTargetDescriptor(ref, pin, newSha)); r.Some? && ':' in r.value
  {
    var d := GitTargetDescriptor(ref, pin, newSha);
    var here := 4 + |ref|;
    var j :| 0 <= j < |pin| && pin[j] == '@';
    assert pin == "absent:" + pin[7..] && j > 6;
    assert d[here + 1 + j] == '@';
    var at := LastIndexOf(d, '@');
    assert d[here + 7] == ':' && at > here + 7;
    assert d[4..at][|ref| + 7] == d[here + 7];
  }

  /** A ref name holds no ':'. Whatever such a name is recovered from a descriptor, it is the true one. */
  lemma RecoveredRefIsTrue(ref: string, pin: string, newSha: string)
    requires IsSha(newSha) && IsCallerSuppliedPin(Some(pin))
    requires var r := GitRefOfTarget(GitTargetDescriptor(ref, pin, newSha)); r.Some? && ':' !in r.value
    ensures GitRefOfTarget(GitTargetDescriptor(ref, pin, newSha)) == Some(ref)
  {
    DescriptorRoundTrip(ref, pin, newSha);
    if IsSha(pin) {
      HexPinHasNoAt(pin);
    } else if '@' in pin {
      WrongCutShows(ref, pin, newSha);
    }
  }

  // ---------------------------------------------------------------- the gate on a produced token

  lemma FieldsAreFree(c: Crypto, call: Call)
    requires IdealHash(c) && Precheck(call).None?
    ensures '|' !in call.jti && '|' !in call.deployment && call.jti != ""
    ensures '|' !in c.sha256hex(Join([call.ref, call.pin.value, call.newSha, call.operation], US))
    ensures '|' !in GitTargetDescriptor(call.ref, call.pin.value, call.newSha)
  {
    DigestFree(c, Join([call.ref, call.pin.value, call.newSha, call.operation], US), '|');
    var fields := [call.ref, call.jti, call.deployment, call.pin.value, call.newSha];
    assert '|' !in fields[0] && '|' !in fields[1] && '|' !in fields[2] && '|' !in fields[3] && '|' !in fields[4];
  }

  /** A produced token passes the gate for its own grant exactly when the ref can be read back. */
  lemma GateOnSealed(c: Crypto, call: Call, t: Trust, ref: string)
    requires Ideal(c) && Precheck(call).None? && SignerInForce(t, call.kid, call.key) && call.deployment == t.deployment
    requires ref != ""
    ensures VerifyStored(c, TokenText(SealedToken(c, call)), call.jti, t.deployment, t.keys, t.asOf, Some(GitRef(ref))).Proven?
       <==> GitRefOfTarget(GitTargetDescriptor(call.ref, call.pin.value, call.newSha)) == Some(ref)
  {
    FieldsAreFree(c, call);
    var mutation := c.sha256hex(Join([call.ref, call.pin.value, call.newSha, call.operation], US));
    var target := GitTargetDescriptor(call.ref, call.pin.value, call.newSha);
    Attestation.SealedVerifies(c, call.key, call.kid, call.jti, call.deployment, mutation, target,
                               Attestation.Intended(call.jti, t.deployment));
    Attestation.PreimageFields(call.jti, call.deployment, mutation, target);
    Attestation.TokenSegments(c, call.key, call.kid, SealedPreimage(c, call));
  }

  /** A produced token never passes for a ref (a colon-free name) other than its own. */
  lemma NeverProvenForAnotherRef(c: Crypto, call: Call, t: Trust, ref: string)
    requires Ideal(c) && Precheck(call).None? && SignerInForce(t, call.kid, call.key) && call.deployment == t.deployment
    requires ref != "" && ':' !in ref && ref != call.ref
    ensures VerifyStored(c, TokenText(SealedToken(c, call)), call.jti, t.deployment, t.keys, t.asOf, Some(GitRef(ref))).Doubt?
  {
    GateOnSealed(c, call, t, ref);
    if GitRefOfTarget(GitTargetDescriptor(call.ref, call.pin.value, call.newSha)) == Some(ref) {
      RecoveredRefIsTrue(call.ref, call.pin.value, call.newSha);
    }
  }

  // ---------------------------------------------------------------- what the logs and the ledger record

  /** A reflog line is a push, or the marker of a landed move on this ref (or of its claim). */
  predicate Explained(c: Crypto, moves: seq<Move>, ref: string, line: string) {
    line == "push"
    || exists k :: 0 <= k < |moves| && line == MarkerOf(moves[k].jti)
                   && (ref == moves[k].ref || ref == LedgerRefFor(c, moves[k].jti))
  }

  /** Move k was on a logged ref, changed its value, and that ref has not been deleted since. */
  predicate Recorded(cfg: Config, s: State, k: nat)
    requires k < |s.moves|
  {
    cfg.host.logged(s.moves[k].ref) && s.moves[k].oid != OldOid(s.moves[k].pin) && k !in s.lost
  }

  /** The marker of move k stands in its ref's reflog exactly when the move is recorded. */
  predicate MarkedIffRecorded(cfg: Config, s: State, k: nat)
    requires k < |s.moves|
  {
    && s.moves[k].ref != LedgerRefFor(cfg.host.crypto, s.moves[k].jti)
    && (MarkerOf(s.moves[k].jti) in Reflog(s.repo, s.moves[k].ref) <==> Recorded(cfg, s, k))
  }

  /** Where a ledger ref came from: a push, a landed move's claim, or a call aimed at the ledger. */
  predicate Accounted(c: Crypto, s: State, name: string) {
    name in s.pushed || exists k :: 0 <= k < |s.moves| && (name == LedgerRefFor(c, s.moves[k].jti) || name == s.moves[k].ref)
  }

  predicate ReclaimedName(c: Crypto, s: State, name: string) {
    exists j :: j in s.reclaimed && name == LedgerRefFor(c, j)
  }

  ghost predicate LogsOk(cfg: Config, s: State) {
    var c := cfg.host.crypto;
    && (forall ref, line :: line in Reflog(s.repo, ref) ==> Explained(c, s.moves, ref, line))
    && (forall k :: 0 <= k < |s.moves| ==> MarkedIffRecorded(cfg, s, k))
    && (forall k :: k in s.lost ==> k < |s.moves|)
  }

  ghost predicate OriginsOk(cfg: Config, s: State) {
    var c := cfg.host.crypto;
    && (forall name :: name in s.repo.refs && InLedger(name) ==> Accounted(c, s, name))
    && (forall name :: name in s.pushed && InLedger(name) ==> name in s.repo.refs || ReclaimedName(c, s, name))
    && (forall k :: 0 <= k < |s.moves| && s.moves[k].jti !in s.reclaimed ==> LedgerRefFor(c, s.moves[k].jti) !in s.pushed)
  }

  lemma WriteLogs(host: Host, repo: Repo, ref: string, newOid: string, oldOid: string, msg: string, at: string)
    requires newOid != ZERO && RefWrite(host, repo, ref, newOid, oldOid, msg).Some?
    ensures Reflog(RefWrite(host, repo, ref, newOid, oldOid, msg).value, at)
         == Reflog(repo, at) + (if at == ref && newOid != oldOid && host.logged(ref) then [msg] else [])
  {
    assert Reflog(repo, at) + [] == Reflog(repo, at);
  }

  lemma BatchLogs(host: Host, repo: Repo, call: Call, ref: string, line: string)
    requires call.pin.Some? && Governed(call) && Attempt(host, repo, call).Some?
    ensures line in Reflog(Attempt(host, repo, call).value, ref) <==>
            line in Reflog(repo, ref)
            || (line == MarkerOf(call.jti)
                && ((ref == LedgerRefFor(host.crypto, call.jti) && host.logged(ref))
                    || (ref == call.ref && host.logged(ref) && Oid(call) != OldOid(call.pin.value))))
  {
    var msg, name := MarkerOf(call.jti), LedgerRefFor(host.crypto, call.jti);
    var claimed := RefWrite(host, repo, name, Oid(call), ZERO, msg).value;
    WriteLogs(host, repo, name, Oid(call), ZERO, msg, ref);
    WriteLogs(host, claimed, call.ref, Oid(call), OldOid(call.pin.value), msg, ref);
  }

  lemma ExplainedLater(c: Crypto, moves: seq<Move>, m: Move, ref: string, line: string)
    requires Explained(c, moves, ref, line)
    ensures Explained(c, moves + [m], ref, line)
  {
    if line != "push" {
      var k :| 0 <= k < |moves| && line == MarkerOf(moves[k].jti)
               && (ref == moves[k].ref || ref == LedgerRefFor(c, moves[k].jti));
      assert (moves + [m])[k] == moves[k];
    }
  }

  lemma MarkerInjective(a: string, b: string)
    requires MarkerOf(a) == MarkerOf(b)
    ensures a == b
  {
    assert MarkerOf(a)[|MARKER_PREFIX|..] == a && MarkerOf(b)[|MARKER_PREFIX|..] == b;
  }

  /** A marker that explains a line is the marker of a landed move's grant. */
  lemma MarkerIsOfGrant(c: Crypto, moves: seq<Move>, ref: string, jti: string) returns (k: nat)
    requires Explained(c, moves, ref, MarkerOf(jti))
    ensures k < |moves| && moves[k].jti == jti
  {
    assert MarkerOf(jti)[0] == 'c' && "push"[0] == 'p';
    k :| 0 <= k < |moves| && MarkerOf(jti) == MarkerOf(moves[k].jti)
         && (ref == moves[k].ref || ref == LedgerRefFor(c, moves[k].jti));
    MarkerInjective(jti, moves[k].jti);
  }

  /** Another grant's batch leaves an earlier move's record as it was. */
  lemma LandKeepsMark(cfg: Config, s: State, i: nat, heard: bool, k: nat)
    requires Enabled(cfg, s, BatchLands(i, heard)) && Governed(s.execs[i].call)
    requires k < |s.moves| && MarkedIffRecorded(cfg, s, k) && s.moves[k].jti != s.execs[i].call.jti
    ensures MarkedIffRecorded(cfg, Land(cfg, s, i, heard), k)
  {
    var m, call := s.moves[k], s.execs[i].call;
    BatchLogs(cfg.host, s.repo, call, m.ref, MarkerOf(m.jti));
    if MarkerOf(m.jti) == MarkerOf(call.jti) { MarkerInjective(m.jti, call.jti); }
  }

  /** The new move is recorded at once or never: its marker stood nowhere before. */
  lemma LandMarksNew(cfg: Config, s: State, i: nat, heard: bool)
    requires LogsOk(cfg, s) && Enabled(cfg, s, BatchLands(i, heard)) && Governed(s.execs[i].call)
    requires forall k :: 0 <= k < |s.moves| ==> s.moves[k].jti != s.execs[i].call.jti
    ensures MarkedIffRecorded(cfg, Land(cfg, s, i, heard), |s.moves|)
  {
    var call := s.execs[i].call;
    BatchLogs(cfg.host, s.repo, call, call.ref, MarkerOf(call.jti));
    if MarkerOf(call.jti) in Reflog(s.repo, call.ref) {
      var k := MarkerIsOfGrant(cfg.host.crypto, s.moves, call.ref, call.jti);
      assert false;
    }
  }

  lemma LandKeepsLogs(cfg: Config, s: State, i: nat, heard: bool)
    requires LogsOk(cfg, s) && Enabled(cfg, s, BatchLands(i, heard)) && Governed(s.execs[i].call)
    requires OneUse(Land(cfg, s, i, heard).moves)
    ensures LogsOk(cfg, Land(cfg, s, i, heard))
  {
    var s' := Land(cfg, s, i, heard);
    var call := s.execs[i].call;
    var m := MoveOf(i, call);
    assert s'.moves == s.moves + [m];
    assert s'.moves[|s.moves|] == m;
    forall ref, line | line in Reflog(s'.repo, ref) ensures Explained(cfg.host.crypto, s'.moves, ref, line) {
      BatchLogs(cfg.host, s.repo, call, ref, line);
      if line in Reflog(s.repo, ref) { ExplainedLater(cfg.host.crypto, s.moves, m, ref, line); }
    }
    forall k | 0 <= k < |s.moves| ensures s.moves[k].jti != call.jti && MarkedIffRecorded(cfg, s', k) {
      assert s'.moves[k] == s.moves[k] && s'.moves[k].jti != s'.moves[|s.moves|].jti;
      LandKeepsMark(cfg, s, i, heard, k);
    }
    LandMarksNew(cfg, s, i, heard);
  }

  lemma PushKeepsLogs(cfg: Config, s: State, cmds: seq<Command>)
    requires LogsOk(cfg, s)
    ensures LogsOk(cfg, PushStep(cfg, s, cmds))
  {
    var s' := PushStep(cfg, s, cmds);
    forall ref, line | line in Reflog(s'.repo, ref) ensures Explained(cfg.host.crypto, s'.moves, ref, line) {
      if line != "push" && HookAccepts(cmds) { ReceivePackLogs(cfg.host, s.repo, cmds, ref, line); }
      if line != "push" { assert Explained(cfg.host.crypto, s.moves, ref, line); }
    }
    forall k | 0 <= k < |s'.moves| ensures MarkedIffRecorded(cfg, s', k) {
      assert MarkedIffRecorded(cfg, s, k);
      assert MarkerOf(s.moves[k].jti)[0] == 'c' && "push"[0] == 'p';
      if HookAccepts(cmds) { ReceivePackLogs(cfg.host, s.repo, cmds, s.moves[k].ref, MarkerOf(s.moves[k].jti)); }
    }
  }

  lemma ReclaimKeepsLogs(cfg: Config, s: State, jti: string)
    requires LogsOk(cfg, s)
    ensures LogsOk(cfg, ReclaimStep(cfg, s, jti))
  {
    var s' := ReclaimStep(cfg, s, jti);
    forall ref, line | line in Reflog(s'.repo, ref) ensures Explained(cfg.host.crypto, s'.moves, ref, line) {
      assert line in Reflog(s.repo, ref);
    }
    forall k | 0 <= k < |s'.moves| ensures MarkedIffRecorded(cfg, s', k) { assert MarkedIffRecorded(cfg, s, k); }
  }

  lemma StepKeepsLogs(cfg: Config, s: State, a: Action)
    requires LogsOk(cfg, s) && Enabled(cfg, s, a) && (a.BatchLands? ==> Governed(s.execs[a.i].call))
    requires OneUse(Next(cfg, s, a).moves)
    ensures LogsOk(cfg, Next(cfg, s, a))
  {
    match a
    case BatchLands(i, heard) => LandKeepsLogs(cfg, s, i, heard);
    case Push(cmds) => PushKeepsLogs(cfg, s, cmds);
    case ReclaimEntry(jti, _, _) => ReclaimKeepsLogs(cfg, s, jti);
    case _ => QuietKeepsLogs(cfg, s, Next(cfg, s, a));
  }

  lemma QuietKeepsLogs(cfg: Config, s: State, s': State)
    requires LogsOk(cfg, s) && s'.moves == s.moves && s'.lost == s.lost && s'.repo == s.repo
    ensures LogsOk(cfg, s')
  {
    forall ref, line | line in Reflog(s'.repo, ref) ensures Explained(cfg.host.crypto, s'.moves, ref, line) {
      assert line in Reflog(s.repo, ref);
    }
    forall k | 0 <= k < |s'.moves| ensures MarkedIffRecorded(cfg, s', k) { assert MarkedIffRecorded(cfg, s, k); }
  }

  lemma AccountedLater(c: Crypto, s: State, s': State, name: string)
    requires Accounted(c, s, name) && s.pushed <= s'.pushed && s.moves <= s'.moves
    ensures Accounted(c, s', name)
  {
    if name !in s.pushed {
      var k :| 0 <= k < |s.moves| && (name == LedgerRefFor(c, s.moves[k].jti) || name == s.moves[k].ref);
      assert s'.moves[k] == s.moves[k];
    }
  }

  lemma ReclaimedLater(c: Crypto, s: State, s': State, name: string)
    requires ReclaimedName(c, s, name) && s.reclaimed <= s'.reclaimed
    ensures ReclaimedName(c, s', name)
  {
    var j :| j in s.reclaimed && name == LedgerRefFor(c, j);
    assert j in s'.reclaimed;
  }

  /** A live grant without a claim never had one pushed: only reclaim removes a pushed claim. */
  lemma FreeClaimNeverPushed(cfg: Config, s: State, jti: string)
    requires IdealHash(cfg.host.crypto) && OriginsOk(cfg, s)
    requires jti !in s.reclaimed && LedgerRefFor(cfg.host.crypto, jti) !in s.repo.refs
    ensures LedgerRefFor(cfg.host.crypto, jti) !in s.pushed
  {
    var c := cfg.host.crypto;
    var mine := LedgerRefFor(c, jti);
    LedgerRefInLedger(c, jti);
    if ReclaimedName(c, s, mine) {
      var j :| j in s.reclaimed && mine == LedgerRefFor(c, j);
      LedgerRefInjective(c, j, jti);
    }
  }

  /** Every name after a landed batch was there before, or is the new claim or the new target. */
  lemma LandedNames(cfg: Config, s: State, i: nat, heard: bool, name: string)
    requires Enabled(cfg, s, BatchLands(i, heard)) && Governed(s.execs[i].call) && NonZero(s.repo) && OriginsOk(cfg, s)
    ensures var s' := Land(cfg, s, i, heard);
            (name in s'.repo.refs && InLedger(name) ==> Accounted(cfg.host.crypto, s', name))
            && (name in s.repo.refs ==> name in s'.repo.refs)
  {
    var call, s' := s.execs[i].call, Land(cfg, s, i, heard);
    BatchNeedsFreeClaim(cfg.host, s.repo, call);
    assert s'.moves[|s.moves|] == MoveOf(i, call);
    if name in s.repo.refs && InLedger(name) { AccountedLater(cfg.host.crypto, s, s', name); }
  }

  lemma LandKeepsOrigins(cfg: Config, s: State, i: nat, heard: bool)
    requires IdealHash(cfg.host.crypto) && LeewayCoversGap(cfg)
    requires Safe(cfg, s) && OriginsOk(cfg, s) && Enabled(cfg, s, BatchLands(i, heard))
    ensures OriginsOk(cfg, Land(cfg, s, i, heard))
  {
    var c, s', call := cfg.host.crypto, Land(cfg, s, i, heard), s.execs[i].call;
    assert ExecOk(cfg, s, i);
    forall name | name in s'.repo.refs && InLedger(name) ensures Accounted(c, s', name) { LandedNames(cfg, s, i, heard, name); }
    forall name | name in s'.pushed && InLedger(name) ensures name in s'.repo.refs || ReclaimedName(c, s', name) {
      LandedNames(cfg, s, i, heard, name);
      if name !in s.repo.refs { ReclaimedLater(c, s, s', name); }
    }
    NewClaimNotPushed(cfg, s, i, heard);
  }

  /** The grant that lands was live, so nobody had pushed its claim. */
  lemma NewClaimNotPushed(cfg: Config, s: State, i: nat, heard: bool)
    requires IdealHash(cfg.host.crypto) && LeewayCoversGap(cfg)
    requires LedgerOk(cfg, s) && i < |s.execs| && ExecOk(cfg, s, i) && OriginsOk(cfg, s) && Enabled(cfg, s, BatchLands(i, heard))
    ensures LedgerRefFor(cfg.host.crypto, s.execs[i].call.jti) !in s.pushed
  {
    BatchNeedsFreeClaim(cfg.host, s.repo, s.execs[i].call);
    assert s.execs[i].call.jti !in s.reclaimed;
    FreeClaimNeverPushed(cfg, s, s.execs[i].call.jti);
  }

  lemma PushKeepsOrigins(cfg: Config, s: State, cmds: seq<Command>)
    requires LedgerOk(cfg, s) && OriginsOk(cfg, s)
    ensures OriginsOk(cfg, PushStep(cfg, s, cmds))
  {
    var c := cfg.host.crypto;
    var s' := PushStep(cfg, s, cmds);
    forall name | name in s'.repo.refs && InLedger(name) ensures Accounted(c, s', name) {
      if name in s.repo.refs { AccountedLater(c, s, s', name); }
    }
    forall name | name in s'.pushed && InLedger(name) ensures name in s'.repo.refs || ReclaimedName(c, s', name) {
      if name in s.repo.refs {
        if HookAccepts(cmds) { LedgerAppendOnly(cfg.host, s.repo, cmds, name); }
      } else if name in s.pushed {
        ReclaimedLater(c, s, s', name);
      }
    }
    forall k | 0 <= k < |s'.moves| && s'.moves[k].jti !in s'.reclaimed
      ensures LedgerRefFor(c, s'.moves[k].jti) !in s'.pushed
    {
      assert Claimed(cfg, s, s.moves[k]);
    }
  }

  lemma ReclaimKeepsOrigins(cfg: Config, s: State, jti: string)
    requires OriginsOk(cfg, s)
    ensures OriginsOk(cfg, ReclaimStep(cfg, s, jti))
  {
    var c := cfg.host.crypto;
    var s' := ReclaimStep(cfg, s, jti);
    forall name | name in s'.repo.refs && InLedger(name) ensures Accounted(c, s', name) {
      AccountedLater(c, s, s', name);
    }
    assert jti in s'.reclaimed;
    forall name | name in s'.pushed && InLedger(name) ensures name in s'.repo.refs || ReclaimedName(c, s', name) {
      if name !in s.repo.refs { ReclaimedLater(c, s, s', name); }
    }
  }

  lemma StepKeepsOrigins(cfg: Config, s: State, a: Action)
    requires IdealHash(cfg.host.crypto) && LeewayCoversGap(cfg)
    requires Safe(cfg, s) && OriginsOk(cfg, s) && Enabled(cfg, s, a)
    ensures OriginsOk(cfg, Next(cfg, s, a))
  {
    match a
    case BatchLands(i, heard) => LandKeepsOrigins(cfg, s, i, heard);
    case Push(cmds) => PushKeepsOrigins(cfg, s, cmds);
    case ReclaimEntry(jti, _, _) => ReclaimKeepsOrigins(cfg, s, jti);
    case _ => QuietKeepsOrigins(cfg, s, Next(cfg, s, a));
  }

  lemma QuietKeepsOrigins(cfg: Config, s: State, s': State)
    requires OriginsOk(cfg, s)
    requires s'.moves == s.moves && s'.pushed == s.pushed && s'.repo == s.repo && s'.reclaimed == s.reclaimed
    ensures OriginsOk(cfg, s')
  {
    forall name | name in s'.repo.refs && InLedger(name) ensures Accounted(cfg.host.crypto, s', name) {
      AccountedLater(cfg.host.crypto, s, s', name);
    }
    forall name | name in s'.pushed && InLedger(name) && name !in s'.repo.refs
      ensures ReclaimedName(cfg.host.crypto, s', name)
    {
      ReclaimedLater(cfg.host.crypto, s, s', name);
    }
  }

  lemma {:induction false} RecordedRun(cfg: Config, acts: seq<Action>)
    requires IdealHash(cfg.host.crypto) && LeewayCoversGap(cfg)
    requires GovernedRun(acts) && Run(cfg, acts).Some?
    ensures Safe(cfg, Run(cfg, acts).value)
    ensures LogsOk(cfg, Run(cfg, acts).value) && OriginsOk(cfg, Run(cfg, acts).value)
    decreases |acts|
  {
    SafeRun(cfg, acts);
    if acts != [] {
      var before := acts[..|acts| - 1];
      forall k | 0 <= k < |before| && before[k].Spawn? ensures Governed(before[k].call) {
        assert before[k] == acts[k];
      }
      RecordedRun(cfg, before);
      var s, a := Run(cfg, before).value, acts[|acts| - 1];
      if a.BatchLands? { assert ExecOk(cfg, s, a.i); }
      StepKeepsLogs(cfg, s, a);
      StepKeepsOrigins(cfg, s, a);
    }
  }
}
