/** Runs of the Postgres executor whose answer says less, or more, than what became of the tables. */
module PostgresRuns {
  import opened Text
  import opened Crypto
  import opened PgTables
  import opened Postgres
  import opened PostgresSafety
  import opened PostgresDrift
  import opened PostgresRecovery
  import opened Reconcile
  import opened ReconcileAll
  import Attestation

  ghost predicate Reaches(c: Crypto, acts: seq<Action>, s: State) { Run(c, acts) == Some(s) }

  lemma Extend(c: Crypto, acts: seq<Action>, s: State, a: Action) returns (acts': seq<Action>)
    requires Reaches(c, acts, s) && Enabled(c, s, a)
    ensures Reaches(c, acts', Next(c, s, a))
  {
    acts' := acts + [a];
    assert acts'[..|acts|] == acts;
  }

  /** A step of call i that writes no table and starts no watch. */
  lemma Moves(c: Crypto, acts: seq<Action>, s: State, i: nat, kind: Kind) returns (acts': seq<Action>)
    requires Reaches(c, acts, s) && i < |s.sessions| && Ready(s, i, kind)
    requires !kind.Lock? && !(kind.Write? && s.sessions[i].call.operation == "publish")
    ensures Reaches(c, acts', Goto(s, i, NextPc(c, s, i, kind)))
  {
    acts' := Extend(c, acts, s, Do(i, kind));
    var s' := Next(c, s, Do(i, kind));
    assert s'.watches == s.watches;
    assert s' == Goto(s, i, NextPc(c, s, i, kind));
  }

  // ---------------------------------------------------------------- from the claim to the end

  /** A deploy whose signer names itself properly. */
  predicate Deploys(call: Call) {
    call.operation == "deploy" && KeyOf(call).0 != "" && KeyOf(call).1 != "" && call.kid != "" && '|' !in call.kid
  }

  function RemovalNow(s: State, call: Call): Mutation { Removal(call.targetId, ArticleAt(s.tables, call.targetId)) }

  lemma SealsAndPersists(c: Crypto, t: Tables, call: Call, m: Mutation)
    requires Ideal(c) && Deploys(call) && FirstToken(t.evidence, KeyOf(call)).None?
    ensures var p := GatePreimage(c, call, m);
            && SealAccepts(c, call, p, Sha256Pref(c, p), Signature(c, call, m))
            && PersistAccepts(c, t, KeyOf(call), p, Signature(c, call, m), Token(c, call, m))
  {
    var p := GatePreimage(c, call, m);
    assert p[0] == 'c' && Token(c, call, m)[0] == 'c';
    assert Segment(c.sign(call.key, p));
    Attestation.TokenSegments(c, call.key, call.kid, p);
  }

  predicate FreeToWrite(s: State, i: nat, call: Call) {
    forall j :: 0 <= j < |s.sessions| && j != i ==> !HoldsArticle(s.sessions[j], call.targetId)
  }

  lemma GotoTwice(s: State, i: nat, p: Pc, q: Pc)
    requires i < |s.sessions|
    ensures Goto(Goto(s, i, p), i, q) == Goto(s, i, q)
  {
  }

  /** Seal and evidence, once the deletion is written. */
  lemma SealThenPersist(c: Crypto, acts: seq<Action>, s: State, i: nat, call: Call, nonce: string, m: Mutation)
    returns (acts': seq<Action>)
    requires Ideal(c) && Reaches(c, acts, s) && i < |s.sessions| && s.sessions[i] == Session(call, Mutated(nonce, m))
    requires Deploys(call) && FirstToken(s.tables.evidence, KeyOf(call)).None?
    ensures Reaches(c, acts', Goto(s, i, Persisted(nonce, m)))
  {
    SealsAndPersists(c, s.tables, call, m);
    acts' := Moves(c, acts, s, i, Seal);
    var s1 := Goto(s, i, Sealed(nonce, m));
    acts' := Moves(c, acts', s1, i, Persist);
    GotoTwice(s, i, Sealed(nonce, m), Persisted(nonce, m));
  }

  /** Write, seal and evidence: the transaction is ready to commit, and no table has changed. */
  lemma UpToCommit(c: Crypto, acts: seq<Action>, s: State, i: nat, call: Call, nonce: string)
    returns (acts': seq<Action>)
    requires Ideal(c) && Reaches(c, acts, s) && i < |s.sessions| && s.sessions[i] == Session(call, Claimed(nonce))
    requires Deploys(call) && FreeToWrite(s, i, call) && FirstToken(s.tables.evidence, KeyOf(call)).None?
    ensures Reaches(c, acts', Goto(s, i, Persisted(nonce, RemovalNow(s, call))))
  {
    var m := RemovalNow(s, call);
    acts' := Moves(c, acts, s, i, Write);
    acts' := SealThenPersist(c, acts', Goto(s, i, Mutated(nonce, m)), i, call, nonce, m);
    GotoTwice(s, i, Mutated(nonce, m), Persisted(nonce, m));
  }

  /** How the call ends once its COMMIT has taken effect. */
  function Ending(c: Crypto, call: Call, m: Mutation, acked: bool): Pc {
    Done(if acked then Success(Token(c, call, m), GatePreimage(c, call, m)) else Refused(SealFailed))
  }

  /** A call's watch once mutation m has been written. */
  function AfterWrite(s: State, m: Mutation, after: Tables, j: nat): Watch {
    if Waiting(s, j) && !m.NoRow? && m.id == s.sessions[j].call.targetId
    then WatchOf(s, j).(between := Some(ArticleAt(after, m.id))) else WatchOf(s, j)
  }

  /** COMMIT takes effect; the answer depends on whether the caller hears of it. */
  lemma CommitAndAnswer(c: Crypto, acts: seq<Action>, s: State, i: nat, call: Call, nonce: string, m: Mutation, acked: bool)
    returns (acts': seq<Action>, s': State)
    requires Reaches(c, acts, s) && i < |s.sessions| && s.sessions[i] == Session(call, Persisted(nonce, m))
    ensures Reaches(c, acts', s') && s'.sessions == s.sessions[i := Session(call, Ending(c, call, m, acked))]
    ensures s'.tables == Apply(c, s.tables, call, nonce, m, "") && s'.now == s.now
    ensures s'.commits == s.commits + [Commit(i, KeyOf(call), nonce, m, WatchOf(s, i), acked)]
    ensures forall j :: j in s.watches ==> j in s'.watches && s'.watches[j] == AfterWrite(s, m, s'.tables, j)
  {
    acts' := Extend(c, acts, s, CommitTx(i, "", acked));
    s' := Next(c, s, CommitTx(i, "", acked));
    if acked {
      var s1 := s';
      acts' := Extend(c, acts', s1, Do(i, Return));
      s' := Next(c, s1, Do(i, Return));
    }
  }

  /** Call i has committed its deletion, and nothing else has happened. */
  predicate Ended(c: Crypto, s: State, i: nat, call: Call, nonce: string, acked: bool, s': State)
    requires i < |s.sessions|
  {
    var m := RemovalNow(s, call);
    && s'.sessions == s.sessions[i := Session(call, Ending(c, call, m, acked))]
    && s'.tables == Apply(c, s.tables, call, nonce, m, "") && s'.now == s.now
    && s'.commits == s.commits + [Commit(i, KeyOf(call), nonce, m, WatchOf(s, i), acked)]
    && forall j :: j in s.watches && j != i ==> j in s'.watches && s'.watches[j] == AfterWrite(s, m, s'.tables, j)
  }

  /** Moving one call on leaves the others' watches as they were. */
  lemma OthersWait(s: State, i: nat, pc: Pc, j: nat)
    requires i < |s.sessions| && j != i
    ensures Waiting(Goto(s, i, pc), j) == Waiting(s, j) && WatchOf(Goto(s, i, pc), j) == WatchOf(s, j)
    ensures j < |s.sessions| ==> Goto(s, i, pc).sessions[j] == s.sessions[j]
  {
  }

  lemma Finish(c: Crypto, acts: seq<Action>, s: State, i: nat, call: Call, nonce: string, acked: bool)
    returns (acts': seq<Action>, s': State)
    requires Ideal(c) && Reaches(c, acts, s) && i < |s.sessions| && s.sessions[i] == Session(call, Claimed(nonce))
    requires Deploys(call) && FreeToWrite(s, i, call) && FirstToken(s.tables.evidence, KeyOf(call)).None?
    ensures Reaches(c, acts', s') && Ended(c, s, i, call, nonce, acked, s')
  {
    var m := RemovalNow(s, call);
    acts' := UpToCommit(c, acts, s, i, call, nonce);
    var ready := Goto(s, i, Persisted(nonce, m));
    acts', s' := CommitAndAnswer(c, acts', ready, i, call, nonce, m, acked);
    assert ready.sessions[i := Session(call, Ending(c, call, m, acked))] == s.sessions[i := Session(call, Ending(c, call, m, acked))];
    forall j | j in s.watches && j != i ensures AfterWrite(ready, m, s'.tables, j) == AfterWrite(s, m, s'.tables, j) {
      OthersWait(s, i, Persisted(nonce, m), j);
    }
  }

  /** A checked call whose key and challenge are free, and nobody in its way. */
  predicate Unhindered(s: State, i: nat, call: Call, nonce: string) {
    && CheckClaim(s.tables, call, nonce).None? && Deploys(call) && FirstToken(s.tables.evidence, KeyOf(call)).None?
    && forall j :: 0 <= j < |s.sessions| && j != i ==>
         !HoldsKey(s.sessions[j], KeyOf(call)) && !HoldsArticle(s.sessions[j], call.targetId)
  }

  /** From the check to the end. */
  lemma ClaimAndFinish(c: Crypto, acts: seq<Action>, s: State, i: nat, call: Call, nonce: string, acked: bool)
    returns (acts': seq<Action>, s': State)
    requires Ideal(c) && Reaches(c, acts, s) && i < |s.sessions| && s.sessions[i] == Session(call, Locked(nonce))
    requires Unhindered(s, i, call, nonce)
    ensures Reaches(c, acts', s') && Ended(c, s, i, call, nonce, acked, s')
  {
    acts' := Moves(c, acts, s, i, Claim);
    var claimed := Goto(s, i, Claimed(nonce));
    acts', s' := Finish(c, acts', claimed, i, call, nonce, acked);
  }

  // ---------------------------------------------------------------- two challenged deploys of one article

  const TARGET := "1"

  function DeployOf(jti: string, nonce: string): Call {
    Call(V1(Some(jti), Some("s"), "d", Some(nonce)), TARGET, "deploy", "", "", "d", "", "kid", "key")
  }

  /** Nothing stands in the way of the deploy under this grant. */
  predicate FreeFor(s: State, i: nat, jti: string, nonce: string) {
    && jti != "" && ("d", jti) !in s.tables.grants && Unspent(s.tables, nonce)
    && FirstToken(s.tables.evidence, ("d", jti)).None?
    && forall j :: 0 <= j < |s.sessions| && j != i ==>
         !HoldsKey(s.sessions[j], ("d", jti)) && !HoldsArticle(s.sessions[j], TARGET)
  }

  /** A checked deploy runs to its end. */
  lemma DeployRuns(c: Crypto, acts: seq<Action>, s: State, i: nat, jti: string, nonce: string, acked: bool)
    returns (acts': seq<Action>, s': State)
    requires Ideal(c) && Reaches(c, acts, s) && i < |s.sessions|
    requires s.sessions[i] == Session(DeployOf(jti, nonce), Locked(nonce)) && FreeFor(s, i, jti, nonce)
    ensures Reaches(c, acts', s') && Ended(c, s, i, DeployOf(jti, nonce), nonce, acked, s')
    ensures KeyOf(DeployOf(jti, nonce)) == ("d", jti)
  {
    acts', s' := ClaimAndFinish(c, acts, s, i, DeployOf(jti, nonce), nonce, acked);
  }

  function ChallengeFor(c: Crypto, a: Article): Challenge { Challenge(TARGET, DigestOf(c, TARGET, Some(a)), 0, false) }

  /** The article as it is now, and challenges issued for `a`, one for each of two grants. */
  function Scene(c: Crypto, a: Article, p: Pc, q: Pc): State {
    Init.(tables := Tables(map[], [], map[TARGET := a], map["n" := ChallengeFor(c, a), "m" := ChallengeFor(c, a)]),
          sessions := [Session(DeployOf("g", "n"), p), Session(DeployOf("h", "m"), q)])
  }

  lemma SceneIssued(c: Crypto, a: Article) returns (acts: seq<Action>)
    ensures Reaches(c, acts, Scene(c, a, Presented, Presented).(sessions := []))
  {
    acts := [];
    acts := Extend(c, acts, Init, Edit(TARGET, Some(a)));
    var s1 := Next(c, Init, Edit(TARGET, Some(a)));
    acts := Extend(c, acts, s1, Issue("n", ChallengeFor(c, a)));
    var s2 := Next(c, s1, Issue("n", ChallengeFor(c, a)));
    acts := Extend(c, acts, s2, Issue("m", ChallengeFor(c, a)));
    assert Next(c, s2, Issue("m", ChallengeFor(c, a))) == Scene(c, a, Presented, Presented).(sessions := []);
  }

  lemma ScenePresented(c: Crypto, a: Article) returns (acts: seq<Action>)
    ensures Reaches(c, acts, Scene(c, a, Presented, Presented))
  {
    acts := SceneIssued(c, a);
    var s := Scene(c, a, Presented, Presented).(sessions := []);
    acts := Extend(c, acts, s, Spawn(DeployOf("g", "n")));
    var s1 := Next(c, s, Spawn(DeployOf("g", "n")));
    assert s1.sessions == [Session(DeployOf("g", "n"), Presented)];
    acts := Extend(c, acts, s1, Spawn(DeployOf("h", "m")));
    assert Next(c, s1, Spawn(DeployOf("h", "m"))) == Scene(c, a, Presented, Presented);
  }

  /** A presented call whose challenge holds gets past the gate's check. */
  lemma PassesCheck(c: Crypto, acts: seq<Action>, s: State, i: nat, call: Call, nonce: string) returns (acts': seq<Action>)
    requires Reaches(c, acts, s) && i < |s.sessions| && s.sessions[i] == Session(call, Presented)
    requires BeforeBegin(c, call) == Go(Some(nonce)) && CheckState(c, s.tables, call, Some(nonce), s.now).None?
    requires forall j :: 0 <= j < |s.sessions| && j != i ==> !HoldsNonce(s.sessions[j], nonce)
    ensures var watch := Watch(ArticleAt(s.tables, call.targetId), None);
            Reaches(c, acts', Goto(s, i, Locked(nonce)).(watches := s.watches[i := watch]))
  {
    acts' := Moves(c, acts, s, i, Begin);
    var s1 := Goto(s, i, Begun(Some(nonce)));
    acts' := Extend(c, acts', s1, Do(i, Lock));
    assert Next(c, s1, Do(i, Lock)).sessions == Goto(s, i, Locked(nonce)).sessions;
  }

  /** Both calls have passed their checks of the same article. */
  function BothChecked(c: Crypto, a: Article): State {
    Scene(c, a, Locked("n"), Locked("m")).(watches := map[0 := Watch(Some(a), None), 1 := Watch(Some(a), None)])
  }

  lemma SceneChecked(c: Crypto, a: Article) returns (acts: seq<Action>)
    ensures Reaches(c, acts, BothChecked(c, a))
  {
    acts := ScenePresented(c, a);
    var s := Scene(c, a, Presented, Presented);
    acts := PassesCheck(c, acts, s, 0, DeployOf("g", "n"), "n");
    var s1 := Scene(c, a, Locked("n"), Presented).(watches := map[0 := Watch(Some(a), None)]);
    assert Goto(s, 0, Locked("n")).(watches := s.watches[0 := Watch(Some(a), None)]) == s1;
    acts := PassesCheck(c, acts, s1, 1, DeployOf("h", "m"), "m");
    assert Goto(s1, 1, Locked("m")).(watches := s1.watches[1 := Watch(Some(a), None)]) == BothChecked(c, a);
  }

  // ---------------------------------------------------------------- the runs

  /** Between the check and the write, another writer replaces the article. */
  lemma Edited(c: Crypto, a: Article, b: Article)
    ensures Enabled(c, BothChecked(c, a), Edit(TARGET, Some(b)))
    ensures var s := Next(c, BothChecked(c, a), Edit(TARGET, Some(b)));
            && s.sessions == BothChecked(c, a).sessions && s.commits == []
            && s.tables == BothChecked(c, a).tables.(articles := map[TARGET := b])
            && WatchOf(s, 0) == Watch(Some(a), Some(Some(b)))
  {
  }

  /**
   * For any two contents of the governed article there is a run in which the challenge was issued for the
   * first, the gate's check passed on the first, and the deploy deletes the second and answers success.
   */
  lemma CheckedRowMayChange(c: Crypto, a: Article, b: Article) returns (acts: seq<Action>, s: State)
    requires Ideal(c)
    ensures Run(c, acts) == Some(s) && |s.sessions| > 0 && s.sessions[0].pc.Done? && s.sessions[0].pc.result.Success?
    ensures |s.commits| == 1
    ensures s.commits[0] == Commit(0, ("d", "g"), "n", Deleted(TARGET, b.title, b.body), Watch(Some(a), Some(Some(b))), true)
  {
    acts := SceneChecked(c, a);
    var s0 := BothChecked(c, a);
    acts := Extend(c, acts, s0, Edit(TARGET, Some(b)));
    var s1 := Next(c, s0, Edit(TARGET, Some(b)));
    Edited(c, a, b);
    acts, s := DeployRuns(c, acts, s1, 0, "g", "n", true);
  }

  /** The second grant's call is the first to delete the article. */
  lemma FirstDeploys(c: Crypto, a: Article) returns (acts: seq<Action>, s: State)
    requires Ideal(c)
    ensures Reaches(c, acts, s) && |s.sessions| == 2 && s.sessions[0] == Session(DeployOf("g", "n"), Locked("n"))
    ensures s.sessions[1].pc.Done? && s.sessions[1].pc.result.Success? && WatchOf(s, 0) == Watch(Some(a), Some(None))
    ensures s.commits == [Commit(1, ("d", "h"), "m", Deleted(TARGET, a.title, a.body), Watch(Some(a), None), true)]
    ensures TARGET !in s.tables.articles && ("d", "g") !in s.tables.grants && Unspent(s.tables, "n")
    ensures FirstToken(s.tables.evidence, ("d", "g")).None?
  {
    acts := SceneChecked(c, a);
    var s0 := BothChecked(c, a);
    acts, s := DeployRuns(c, acts, s0, 1, "h", "m", true);
    assert s.watches[0] == AfterWrite(s0, Deleted(TARGET, a.title, a.body), s.tables, 0);
  }

  /**
   * Two grants to deploy the same article both pass the check. The first deletes it; the second then
   * finds no row, and still seals, stores evidence, commits and answers success over an empty mutation.
   */
  lemma EmptyDeploySucceeds(c: Crypto, a: Article) returns (acts: seq<Action>, s: State)
    requires Ideal(c)
    ensures Run(c, acts) == Some(s) && |s.sessions| == 2 && |s.commits| == 2
    ensures forall i :: 0 <= i < 2 ==> s.sessions[i].pc.Done? && s.sessions[i].pc.result.Success?
    ensures s.commits[0] == Commit(1, ("d", "h"), "m", Deleted(TARGET, a.title, a.body), Watch(Some(a), None), true)
    ensures s.commits[1] == Commit(0, ("d", "g"), "n", NoRow, Watch(Some(a), Some(None)), true)
  {
    var s1;
    acts, s1 := FirstDeploys(c, a);
    acts, s := DeployRuns(c, acts, s1, 0, "g", "n", true);
  }

  /**
   * COMMIT takes effect and its acknowledgement is lost: the call answers SEAL_FAILED over tables that
   * hold its deletion, its sealed row and its evidence, and the reader confirms the grant.
   */
  lemma LostAckIsSealFailed(c: Crypto, a: Article, t: Trust) returns (acts: seq<Action>, s: State)
    requires Ideal(c) && SignerInForce(t, "kid", "key") && t.deployment == "d"
    ensures Run(c, acts) == Some(s) && |s.sessions| > 0 && s.sessions[0].pc == Done(Refused(SealFailed))
    ensures TARGET !in s.tables.articles && ("d", "g") in s.tables.grants
    ensures var e := PgEntryOf(c, s.tables, "g", t); Enforce(e, PgBacked(e)).outcome == Confirmed
  {
    acts := SceneChecked(c, a);
    var s0 := BothChecked(c, a);
    acts, s := DeployRuns(c, acts, s0, 0, "g", "n", false);
    LostAckRecovers(c, acts, s, t);
  }

  lemma LostAckRecovers(c: Crypto, acts: seq<Action>, s: State, t: Trust)
    requires Ideal(c) && SignerInForce(t, "kid", "key") && t.deployment == "d"
    requires Run(c, acts) == Some(s) && ("d", "g") in s.tables.grants
    requires forall i :: 0 <= i < |s.sessions| ==> s.sessions[i].call.kid == "kid" && s.sessions[i].call.key == "key"
    ensures var e := PgEntryOf(c, s.tables, "g", t); Enforce(e, PgBacked(e)).outcome == Confirmed
  {
    PostgresRecoveryIsExact(c, acts, s, t, "g");
  }
}
