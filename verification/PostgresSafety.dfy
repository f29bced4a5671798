/** What every run of the Postgres executor keeps, and what the recovery reader then says. */
module PostgresSafety {
  import opened Text
  import opened Crypto
  import opened PgTables
  import opened Postgres
  import Attestation

  predicate InLock(pc: Pc) { pc.Locked? || InClaim(pc) }

  predicate InClaim(pc: Pc) { pc.Claimed? || pc.Mutated? || pc.Sealed? || pc.Persisted? }

  /** Row locks exclude: one open transaction per challenge, one per (deployment, jti). */
  predicate Exclusive(s: State) {
    && (forall i, j :: 0 <= i < j < |s.sessions| && InLock(s.sessions[i].pc) && InLock(s.sessions[j].pc) ==>
          s.sessions[i].pc.nonce != s.sessions[j].pc.nonce)
    && (forall i, j :: 0 <= i < j < |s.sessions| && InClaim(s.sessions[i].pc) && InClaim(s.sessions[j].pc) ==>
          KeyOf(s.sessions[i].call) != KeyOf(s.sessions[j].call))
  }

  predicate Unspent(t: Tables, nonce: string) { nonce in t.challenges && !t.challenges[nonce].consumed }

  /** The call's transaction committed, and its acknowledgement did or did not arrive. */
  predicate HasCommit(s: State, i: nat, acked: bool) {
    exists k :: 0 <= k < |s.commits| && s.commits[k].session == i && s.commits[k].acked == acked
  }

  predicate SessionOk(s: State, x: Session, i: nat) {
    && (!x.pc.Presented? && !(x.pc.Done? && x.pc.result.Refused?) && !x.pc.Crashed? ==> x.call.deployment != "")
    && (InLock(x.pc) ==> x.pc.nonce in s.tables.challenges)
    && (InClaim(x.pc) ==> KeyOf(x.call) !in s.tables.grants && Unspent(s.tables, x.pc.nonce))
    && (x.pc.Sealed? || x.pc.Persisted? ==> KeyOf(x.call).1 != "")
    && (HasCommit(s, i, true) ==> x.pc.Committed? || x.pc.Crashed? || (x.pc.Done? && x.pc.result.Success?))
    && (HasCommit(s, i, false) ==> x.pc == Done(Refused(SealFailed)))
    && (x.pc.Committed? || (x.pc.Done? && x.pc.result.Success?) ==> HasCommit(s, i, true))
  }

  predicate SessionsOk(s: State) {
    forall i :: 0 <= i < |s.sessions| ==> SessionOk(s, s.sessions[i], i)
  }

  /** The k-th commit's call. */
  function CallOf(s: State, k: nat): Call
    requires k < |s.commits| && s.commits[k].session < |s.sessions|
  {
    s.sessions[s.commits[k].session].call
  }

  /** Row, evidence and challenge of the k-th commit are exactly what its transaction wrote. */
  predicate CommitOk(c: Crypto, s: State, k: nat)
    requires k < |s.commits|
  {
    var x := s.commits[k];
    && x.session < |s.sessions| && x.key == KeyOf(CallOf(s, k)) && x.key.0 != "" && x.key.1 != ""
    && x.key in s.tables.grants && s.tables.grants[x.key] == SealedRow(c, CallOf(s, k), x.mutation)
    && k < |s.tables.evidence|
    && s.tables.evidence[k] == Evidence(x.key.0, x.key.1, Token(c, CallOf(s, k), x.mutation))
    && x.nonce in s.tables.challenges && s.tables.challenges[x.nonce].consumed
  }

  predicate OneEach(commits: seq<Commit>) {
    forall j, k :: 0 <= j < k < |commits| ==>
      commits[j].key != commits[k].key && commits[j].nonce != commits[k].nonce && commits[j].session != commits[k].session
  }

  ghost predicate TablesOk(c: Crypto, s: State) {
    && OneEach(s.commits) && |s.tables.evidence| == |s.commits|
    && (forall k :: 0 <= k < |s.commits| ==> CommitOk(c, s, k))
    && (forall key :: key in s.tables.grants ==> exists k :: 0 <= k < |s.commits| && s.commits[k].key == key)
  }

  ghost predicate Safe(c: Crypto, s: State) {
    Exclusive(s) && SessionsOk(s) && TablesOk(c, s)
  }

  // ---------------------------------------------------------------- one step

  /** Steps that touch neither the ledger, the evidence nor the history. */
  lemma QuietKeepsTables(c: Crypto, s: State, s': State)
    requires TablesOk(c, s) && s'.commits == s.commits
    requires s'.tables.grants == s.tables.grants && s'.tables.evidence == s.tables.evidence
    requires forall n :: n in s.tables.challenges ==> n in s'.tables.challenges && s'.tables.challenges[n] == s.tables.challenges[n]
    requires |s.sessions| <= |s'.sessions| && forall i :: 0 <= i < |s.sessions| ==> s'.sessions[i].call == s.sessions[i].call
    ensures TablesOk(c, s')
  {
    forall k | 0 <= k < |s.commits| ensures CommitOk(c, s', k) {
      assert CommitOk(c, s, k);
    }
  }

  lemma NewCommitIsNew(c: Crypto, s: State, i: nat, k: nat)
    requires TablesOk(c, s) && SessionsOk(s) && i < |s.sessions| && s.sessions[i].pc.Persisted? && k < |s.commits|
    ensures s.commits[k].session != i && s.commits[k].key != KeyOf(s.sessions[i].call)
    ensures s.commits[k].nonce != s.sessions[i].pc.nonce
  {
    assert SessionOk(s, s.sessions[i], i);
    assert CommitOk(c, s, k);
    assert !HasCommit(s, i, true) && !HasCommit(s, i, false);
  }

  /** COMMIT adds one row, one piece of evidence and one history entry, and leaves the earlier ones alone. */
  lemma CommitKeepsEach(c: Crypto, s: State, i: nat, at: string, acked: bool, k: nat)
    requires TablesOk(c, s) && SessionsOk(s) && i < |s.sessions| && s.sessions[i].pc.Persisted? && k <= |s.commits|
    ensures CommitOk(c, CommitStep(c, s, i, at, acked), k)
  {
    assert SessionOk(s, s.sessions[i], i);
    assert forall j :: 0 <= j < |s.sessions| ==> CommitStep(c, s, i, at, acked).sessions[j].call == s.sessions[j].call;
    if k < |s.commits| {
      assert CommitOk(c, s, k);
      NewCommitIsNew(c, s, i, k);
    }
  }

  /** Every row of the ledger is some transaction's, the new one included. */
  lemma CommitKeepsKeys(c: Crypto, s: State, i: nat, at: string, acked: bool, key: GrantKey)
    requires TablesOk(c, s) && SessionsOk(s) && i < |s.sessions| && s.sessions[i].pc.Persisted?
    requires key in CommitStep(c, s, i, at, acked).tables.grants
    ensures var s' := CommitStep(c, s, i, at, acked); exists k :: 0 <= k < |s'.commits| && s'.commits[k].key == key
  {
    var s', n := CommitStep(c, s, i, at, acked), |s.commits|;
    if key in s.tables.grants {
      var k :| 0 <= k < n && s.commits[k].key == key;
      assert s'.commits[k].key == key;
    } else {
      assert s'.commits[n].key == key;
    }
  }

  lemma CommitKeepsTables(c: Crypto, s: State, i: nat, at: string, acked: bool)
    requires TablesOk(c, s) && SessionsOk(s) && i < |s.sessions| && s.sessions[i].pc.Persisted?
    ensures TablesOk(c, CommitStep(c, s, i, at, acked))
  {
    var s' := CommitStep(c, s, i, at, acked);
    var n := |s.commits|;
    forall k | 0 <= k < |s'.commits| ensures CommitOk(c, s', k) { CommitKeepsEach(c, s, i, at, acked, k); }
    forall k | 0 <= k < n
      ensures s.commits[k].session != i && s.commits[k].key != s'.commits[n].key && s.commits[k].nonce != s'.commits[n].nonce
    {
      NewCommitIsNew(c, s, i, k);
    }
    forall key | key in s'.tables.grants ensures exists k :: 0 <= k < |s'.commits| && s'.commits[k].key == key {
      CommitKeepsKeys(c, s, i, at, acked, key);
    }
  }

  /** What a new position may hold: only rows it held before, or rows nobody else holds. */
  predicate Grabs(s: State, i: nat, pc: Pc)
    requires i < |s.sessions|
  {
    forall j :: 0 <= j < |s.sessions| && j != i ==>
      && (InLock(pc) && InLock(s.sessions[j].pc) ==> pc.nonce != s.sessions[j].pc.nonce)
      && (InClaim(pc) && InClaim(s.sessions[j].pc) ==> KeyOf(s.sessions[i].call) != KeyOf(s.sessions[j].call))
  }

  lemma NextGrabs(c: Crypto, s: State, i: nat, kind: Kind)
    requires Exclusive(s) && i < |s.sessions| && Ready(s, i, kind)
    ensures Grabs(s, i, NextPc(c, s, i, kind))
  {
    var pc := NextPc(c, s, i, kind);
    if kind.Lock? {
      assert forall j :: 0 <= j < |s.sessions| && InLock(s.sessions[j].pc) ==> HoldsNonce(s.sessions[j], s.sessions[j].pc.nonce);
    } else if kind.Claim? {
      assert forall j :: 0 <= j < |s.sessions| && InClaim(s.sessions[j].pc) ==> HoldsKey(s.sessions[j], KeyOf(s.sessions[j].call));
    }
  }

  lemma GotoKeepsExclusive(s: State, s': State, i: nat, pc: Pc)
    requires Exclusive(s) && i < |s.sessions| && Grabs(s, i, pc)
    requires s'.sessions == s.sessions[i := s.sessions[i].(pc := pc)]
    ensures Exclusive(s')
  {
  }

  /** A session that did not move keeps its facts, as long as nobody took its key or spent its challenge. */
  lemma OthersKeep(s: State, s': State, i: nat)
    requires i < |s.sessions| && SessionOk(s, s.sessions[i], i)
    requires s'.commits == s.commits && s'.tables.grants == s.tables.grants
    requires forall n :: n in s.tables.challenges ==> n in s'.tables.challenges && s'.tables.challenges[n] == s.tables.challenges[n]
    ensures SessionOk(s', s.sessions[i], i)
  {
  }

  lemma ActorKeeps(c: Crypto, s: State, i: nat, kind: Kind)
    requires i < |s.sessions| && SessionOk(s, s.sessions[i], i) && Ready(s, i, kind)
    ensures SessionOk(s, s.sessions[i].(pc := NextPc(c, s, i, kind)), i)
  {
  }

  lemma DoKeeps(c: Crypto, s: State, i: nat, kind: Kind)
    requires Safe(c, s) && i < |s.sessions| && Ready(s, i, kind)
    ensures Safe(c, Step(c, s, Do(i, kind)))
  {
    var s', pc := Step(c, s, Do(i, kind)), NextPc(c, s, i, kind);
    NextGrabs(c, s, i, kind);
    GotoKeepsExclusive(s, s', i, pc);
    QuietKeepsTables(c, s, s');
    ActorKeeps(c, s, i, kind);
    forall j | 0 <= j < |s'.sessions| ensures SessionOk(s', s'.sessions[j], j) {
      assert SessionOk(s, s.sessions[j], j);
      if j != i { OthersKeep(s, s', j); }
    }
  }

  lemma OtherCommits(s: State, s': State, j: nat, acked: bool)
    requires |s'.commits| == |s.commits| + 1 && s'.commits[..|s.commits|] == s.commits
    ensures var last := s'.commits[|s.commits|];
            HasCommit(s', j, acked) <==> HasCommit(s, j, acked) || (last.session == j && last.acked == acked)
  {
    if k :| 0 <= k < |s.commits| && s.commits[k].session == j && s.commits[k].acked == acked {
      assert s'.commits[k] == s'.commits[..|s.commits|][k];
    }
    if k :| 0 <= k < |s.commits| && s'.commits[k].session == j && s'.commits[k].acked == acked {
      assert s.commits[k] == s'.commits[..|s.commits|][k];
    }
  }

  lemma CommitKeepsOthers(c: Crypto, s: State, i: nat, at: string, acked: bool, j: nat)
    requires Safe(c, s) && i < |s.sessions| && s.sessions[i].pc.Persisted? && j < |s.sessions|
    ensures SessionOk(CommitStep(c, s, i, at, acked), CommitStep(c, s, i, at, acked).sessions[j], j)
  {
    var s' := CommitStep(c, s, i, at, acked);
    assert SessionOk(s, s.sessions[j], j) && SessionOk(s, s.sessions[i], i);
    assert s'.commits[|s.commits|].session == i && s'.commits[|s.commits|].acked == acked;
    OtherCommits(s, s', j, true);
    OtherCommits(s, s', j, false);
  }

  lemma CommitKeeps(c: Crypto, s: State, i: nat, at: string, acked: bool)
    requires Safe(c, s) && i < |s.sessions| && s.sessions[i].pc.Persisted?
    ensures Safe(c, CommitStep(c, s, i, at, acked))
  {
    var s' := CommitStep(c, s, i, at, acked);
    GotoKeepsExclusive(s, s', i, s'.sessions[i].pc);
    CommitKeepsTables(c, s, i, at, acked);
    forall j | 0 <= j < |s'.sessions| ensures SessionOk(s', s'.sessions[j], j) {
      CommitKeepsOthers(c, s, i, at, acked, j);
    }
  }

  lemma OutsideKeeps(c: Crypto, s: State, a: Action)
    requires Safe(c, s) && Enabled(c, s, a) && !a.Do? && !a.CommitTx?
    ensures Safe(c, Step(c, s, a))
  {
    var s' := Step(c, s, a);
    QuietKeepsTables(c, s, s');
    forall j | 0 <= j < |s'.sessions| ensures SessionOk(s', s'.sessions[j], j) {
      if j < |s.sessions| {
        OthersKeep(s, s', j);
      } else {
        forall k | 0 <= k < |s.commits| ensures s.commits[k].session != j { assert CommitOk(c, s, k); }
      }
    }
  }

  lemma StepKeeps(c: Crypto, s: State, a: Action)
    requires Safe(c, s) && Enabled(c, s, a)
    ensures Safe(c, Step(c, s, a))
  {
    match a
    case Do(i, kind) => DoKeeps(c, s, i, kind);
    case CommitTx(i, at, acked) => CommitKeeps(c, s, i, at, acked);
    case _ => OutsideKeeps(c, s, a);
  }

  lemma WatchingChangesNothing(c: Crypto, s: State, watches: map<nat, Watch>)
    requires Safe(c, s)
    ensures Safe(c, s.(watches := watches))
  {
    var s' := s.(watches := watches);
    QuietKeepsTables(c, s, s');
    forall j | 0 <= j < |s.sessions| ensures SessionOk(s', s'.sessions[j], j) {
      assert SessionOk(s, s.sessions[j], j);
      OthersKeep(s, s', j);
    }
  }

  lemma {:induction false} SafeRun(c: Crypto, acts: seq<Action>)
    requires Run(c, acts).Some?
    ensures Safe(c, Run(c, acts).value)
    decreases |acts|
  {
    if acts != [] {
      SafeRun(c, acts[..|acts| - 1]);
      var s, a := Run(c, acts[..|acts| - 1]).value, acts[|acts| - 1];
      StepKeeps(c, s, a);
      var s' := Step(c, s, a);
      WatchingChangesNothing(c, s', Watches(s, a, s'));
    }
  }
}
