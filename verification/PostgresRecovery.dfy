/** Machine and reader compose: what reconcilePostgres says about every state the executor can commit. */
module PostgresRecovery {
  import opened Text
  import opened Crypto
  import opened PgTables
  import opened Postgres
  import opened PostgresSafety
  import opened Reconcile
  import opened ReconcileAll
  import Attestation

  lemma {:induction false} FirstTokenAt(evidence: seq<Evidence>, key: GrantKey, k: nat)
    requires k < |evidence| && (evidence[k].deployment, evidence[k].jti) == key
    requires forall j :: 0 <= j < k ==> (evidence[j].deployment, evidence[j].jti) != key
    ensures FirstToken(evidence, key) == Some(evidence[k].token)
  {
    if k > 0 { FirstTokenAt(evidence[1..], key, k - 1); }
  }

  /** The row is sealed, carries this call's preimage, and the one stored token carries it too. */
  predicate Evidenced(c: Crypto, s: State, k: nat)
    requires k < |s.commits| && s.commits[k].session < |s.sessions|
  {
    var key, m, call := s.commits[k].key, s.commits[k].mutation, CallOf(s, k);
    && key == KeyOf(call)
    && key in s.tables.grants && s.tables.grants[key].status == "sealed"
    && s.tables.grants[key].preimage == Some(GatePreimage(c, call, m))
    && s.tables.grants[key].attestationRef == Some(c.sign(call.key, GatePreimage(c, call, m)))
    && FirstToken(s.tables.evidence, key) == Some(Token(c, call, m))
  }

  lemma CommitIsEvidenced(c: Crypto, s: State, k: nat)
    requires TablesOk(c, s) && k < |s.commits|
    ensures s.commits[k].session < |s.sessions| && Evidenced(c, s, k)
  {
    assert CommitOk(c, s, k);
    forall j | 0 <= j < k
      ensures (s.tables.evidence[j].deployment, s.tables.evidence[j].jti) != s.commits[k].key
    {
      assert CommitOk(c, s, j);
    }
    FirstTokenAt(s.tables.evidence, s.commits[k].key, k);
  }

  predicate DidCommit(s: State, i: nat) {
    exists k :: 0 <= k < |s.commits| && s.commits[k].session == i
  }

  /** What the answer of a call says about its transaction. */
  predicate AnswerIsRight(s: State, i: nat)
    requires i < |s.sessions|
  {
    var pc := s.sessions[i].pc;
    && (pc.Done? && pc.result.Success? ==> HasCommit(s, i, true))
    && (pc.Done? && pc.result.Refused? && pc.result.why != SealFailed ==> !DidCommit(s, i))
    && (pc.Done? && pc.result == Refused(SealFailed) ==> (DidCommit(s, i) <==> HasCommit(s, i, false)))
    && (HasCommit(s, i, false) ==> pc == Done(Refused(SealFailed)))
  }

  /**
   * EVERY COMMITTED ROW IS SEALED, ONCE. In every reachable state the committed rows are exactly the
   * committed transactions, one mutation and one challenge each, every row is sealed and has a stored
   * token over that row's exact preimage. A refused call committed nothing, except that one told
   * SEAL_FAILED committed if and only if its COMMIT took effect and the acknowledgement was lost.
   */
  lemma CommittedMeansSealed(c: Crypto, acts: seq<Action>, s: State)
    requires Run(c, acts) == Some(s)
    ensures OneEach(s.commits)
    ensures forall key :: key in s.tables.grants <==> exists k :: 0 <= k < |s.commits| && s.commits[k].key == key
    ensures forall k :: 0 <= k < |s.commits| ==> s.commits[k].session < |s.sessions| && Evidenced(c, s, k)
    ensures |s.tables.evidence| == |s.commits|
    ensures forall i :: 0 <= i < |s.sessions| ==> AnswerIsRight(s, i)
  {
    SafeRun(c, acts);
    forall k | 0 <= k < |s.commits|
      ensures s.commits[k].session < |s.sessions| && Evidenced(c, s, k) && s.commits[k].key in s.tables.grants
    {
      CommitIsEvidenced(c, s, k);
    }
    forall i | 0 <= i < |s.sessions| ensures AnswerIsRight(s, i) { assert SessionOk(s, s.sessions[i], i); }
  }

  /** ALL OR NOTHING. The grants and the evidence change in a COMMIT step only, by one row and its token. */
  lemma OnlyCommitWrites(c: Crypto, s: State, a: Action)
    requires Safe(c, s) && Enabled(c, s, a)
    ensures var s' := Next(c, s, a);
            if a.CommitTx? then
              && KeyOf(s.sessions[a.i].call) !in s.tables.grants
              && s'.tables.grants.Keys == s.tables.grants.Keys + {KeyOf(s.sessions[a.i].call)}
              && |s'.tables.evidence| == |s.tables.evidence| + 1
              && s'.tables.articles == Mutate(s.tables.articles, s.sessions[a.i].pc.mutation, a.at)
            else
              && s'.tables.grants == s.tables.grants && s'.tables.evidence == s.tables.evidence
              && (a.Do? ==> s'.tables == s.tables)
  {
    if a.CommitTx? { assert SessionOk(s, s.sessions[a.i], a.i); }
  }

  // ---------------------------------------------------------------- the reader

  lemma MutationDigestFree(c: Crypto, m: Mutation)
    requires Ideal(c)
    ensures '|' !in "sha256:" + MutationDigest(c, m)
  {
    if m.NoRow? {
      DigestFree(c, Join(["", "", ""], US), '|');
    } else {
      DigestFree(c, Join([m.id, m.title, m.body], US), '|');
    }
  }

  /** The signed grant id and deployment are read back exactly when neither holds the delimiter. */
  lemma BindingFields(c: Crypto, call: Call, m: Mutation)
    requires Ideal(c)
    ensures var f := Split(GatePreimage(c, call, m), '|');
            (|f| >= 3 && f[0] == Attestation.GATE_PREIMAGE_V && f[1] == KeyOf(call).1 && f[2] == call.deployment)
            <==> ('|' !in KeyOf(call).1 && '|' !in call.deployment)
  {
    var jti, dep, mutation := KeyOf(call).1, call.deployment, "sha256:" + MutationDigest(c, m);
    var p := GatePreimage(c, call, m);
    SplitFree(p, '|');
    if '|' !in jti && '|' !in dep {
      MutationDigestFree(c, m);
      var head := [Attestation.GATE_PREIMAGE_V, jti, dep, mutation];
      SplitAppend(head, call.targetId, '|');
      PreimageIs(jti, dep, MutationDigest(c, m), call.targetId);
    }
  }

  lemma PreimageIs(jti: string, dep: string, mutation: string, target: string)
    ensures Attestation.Preimage(jti, dep, mutation, target)
         == Join([Attestation.GATE_PREIMAGE_V, jti, dep, "sha256:" + mutation], '|') + ['|'] + target
  {
    var fields := [Attestation.GATE_PREIMAGE_V, jti, dep, "sha256:" + mutation];
    JoinSnoc(fields, target, '|');
    assert fields + [target] == [Attestation.GATE_PREIMAGE_V, jti, dep, "sha256:" + mutation, target];
  }

  /** A stored token passes the gate, for the target its own row names, exactly when the binding reads back. */
  lemma StoredTokenVerdict(c: Crypto, call: Call, m: Mutation, t: Trust, expected: Option<Expected>)
    requires Ideal(c) && SignerInForce(t, call.kid, call.key) && call.deployment == t.deployment && KeyOf(call).1 != ""
    requires var f := Split(GatePreimage(c, call, m), '|'); expected == if |f| >= 5 then Some(Exact(f[4])) else None
    ensures VerifyStored(c, TokenText(Token(c, call, m)), KeyOf(call).1, t.deployment, t.keys, t.asOf, expected).Proven?
       <==> ('|' !in KeyOf(call).1 && '|' !in t.deployment)
  {
    var p := GatePreimage(c, call, m);
    Attestation.TokenSegments(c, call.key, call.kid, p);
    assert Segment(c.b64(p)) && Segment(c.sign(call.key, p));
    assert "" !in [Attestation.ATOMIC_ATTEST_V, call.kid, c.b64(p), c.sign(call.key, p)];
    BindingFields(c, call, m);
  }

  /** The answer the reader owes for one grant. */
  function Expectation(s: State, t: Trust, jti: string): Outcome {
    if (t.deployment, jti) !in s.tables.grants then Rejected
    else if '|' !in jti && '|' !in t.deployment then Confirmed else Indeterminate
  }

  /** The reader's answer for a row that carries its call's preimage, beside that call's token. */
  lemma BoundToOwn(c: Crypto, call: Call, m: Mutation, row: GrantRow, t: Trust)
    requires Ideal(c) && SignerInForce(t, call.kid, call.key) && call.deployment == t.deployment && KeyOf(call).1 != ""
    ensures var e := BoundEntry(c, KeyOf(call).1, row, GatePreimage(c, call, m), Token(c, call, m), t);
            && e.rowStatus == Some(row.status)
            && e.outcome == (if '|' !in KeyOf(call).1 && '|' !in t.deployment then Confirmed else Indeterminate)
  {
    var p := GatePreimage(c, call, m);
    Attestation.TokenSegments(c, call.key, call.kid, p);
    var f := Split(p, '|');
    StoredTokenVerdict(c, call, m, t, if |f| >= 5 then Some(Exact(f[4])) else None);
  }

  lemma EntryForCommit(c: Crypto, s: State, t: Trust, k: nat)
    requires Ideal(c) && TablesOk(c, s) && k < |s.commits|
    requires s.commits[k].session < |s.sessions| && s.commits[k].key.0 == t.deployment
    requires SignerInForce(t, CallOf(s, k).kid, CallOf(s, k).key)
    ensures var e := PgEntryOf(c, s.tables, s.commits[k].key.1, t);
            Enforce(e, PgBacked(e)).outcome == Expectation(s, t, s.commits[k].key.1)
  {
    CommitIsEvidenced(c, s, k);
    assert CommitOk(c, s, k);
    var call, m := CallOf(s, k), s.commits[k].mutation;
    BoundToOwn(c, call, m, s.tables.grants[s.commits[k].key], t);
    assert Token(c, call, m)[0] == 'c' && GatePreimage(c, call, m)[0] == 'c';
  }

  /**
   * NEVER INDETERMINATE. On every reachable state, with keys in force, reconcilePostgres answers CONFIRMED
   * for exactly the grants whose transaction committed and REJECTED for all others; only a '|' inside a
   * committed grant's id or deployment turns that CONFIRMED into INDETERMINATE.
   */
  lemma PostgresRecoveryIsExact(c: Crypto, acts: seq<Action>, s: State, t: Trust, jti: string)
    requires Ideal(c) && Run(c, acts) == Some(s)
    requires forall i :: 0 <= i < |s.sessions| ==> SignerInForce(t, s.sessions[i].call.kid, s.sessions[i].call.key)
    ensures var e := PgEntryOf(c, s.tables, jti, t); Enforce(e, PgBacked(e)).outcome == Expectation(s, t, jti)
  {
    SafeRun(c, acts);
    if (t.deployment, jti) in s.tables.grants {
      var k :| 0 <= k < |s.commits| && s.commits[k].key == (t.deployment, jti);
      CommitIsEvidenced(c, s, k);
      EntryForCommit(c, s, t, k);
    }
  }
}
