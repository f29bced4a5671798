/** How much leeway reclaim needs: an exact bound, and what happens below it. */
module GitReclaimBound {
  import opened Text
  import opened Crypto
  import opened Clock
  import opened Reclaim
  import opened GitStore
  import opened GitProtocol
  import opened GitSafety

  /** An object the executor may move a ref to. */
  predicate Usable(host: Host, oid: string) {
    oid in host.objects && IsSha(oid) && Lower(oid) == oid && oid != ZERO
  }

  /** The run acts leads to s, and if governed it only spawned governed calls. */
  ghost predicate Reaches(cfg: Config, acts: seq<Action>, s: State, governed: bool) {
    Run(cfg, acts) == Some(s) && (governed ==> GovernedRun(acts))
  }

  lemma Extend(cfg: Config, acts: seq<Action>, s: State, governed: bool, a: Action) returns (acts': seq<Action>)
    requires Reaches(cfg, acts, s, governed) && Enabled(cfg, s, a)
    requires governed && a.Spawn? ==> Governed(a.call)
    ensures Reaches(cfg, acts', Next(cfg, s, a), governed)
  {
    acts' := acts + [a];
    assert acts'[..|acts|] == acts;
  }

  /** A well-formed call on a ref without history gets from presentation to the point before its batch. */
  lemma Prepare(cfg: Config, acts: seq<Action>, s: State, governed: bool, e: nat, lag: int)
    returns (acts': seq<Action>)
    requires Reaches(cfg, acts, s, governed) && e < |s.execs| && s.execs[e].pc.Presented?
    requires lag <= cfg.lag && !IsExpiredAt(cfg.exp(s.execs[e].call.jti), s.now - lag)
    requires Precheck(s.execs[e].call).None?
    requires MarkerOf(s.execs[e].call.jti) !in ReflogMarkers(s.repo, s.execs[e].call.ref)
    ensures Reaches(cfg, acts', Goto(s, e, Ready(s.now)), governed)
  {
    acts' := Extend(cfg, acts, s, governed, Verify(e, lag));
    var s1 := Next(cfg, s, Verify(e, lag));
    acts' := Extend(cfg, acts', s1, governed, Check(e));
    var s2 := Next(cfg, s1, Check(e));
    acts' := Extend(cfg, acts', s2, governed, ReadReflog(e, true));
    assert Next(cfg, s2, ReadReflog(e, true)).execs == Goto(s, e, Ready(s.now)).execs;
  }

  /** A well-formed call for grant g on a ref that is neither a branch nor in the ledger. */
  predicate Plain(call: Call, g: string) {
    && call.jti == g && Precheck(call).None? && !InLedger(call.ref) && !StartsWith(call.ref, "refs/heads/")
  }

  predicate Creates(call: Call, oid: string) {
    call.pin == Some("absent:") && Oid(call) == oid
  }

  predicate ZeroesOut(call: Call, oid: string) {
    call.pin == Some(oid) && OldOid(oid) == oid && Oid(call) == ZERO
  }

  lemma ClaimName(host: Host, g: string)
    ensures InLedger(LedgerRefFor(host.crypto, g)) && !StartsWith(LedgerRefFor(host.crypto, g), "refs/heads/")
  {
    LedgerRefInLedger(host.crypto, g);
    assert LedgerRefFor(host.crypto, g)[5] == LEDGER_DIR[5] == 'c' && "refs/heads/"[5] == 'h';
  }

  /** Grant g presented twice, for two refs, each call verified at the last possible instant. */
  function BothReady(cfg: Config, a: Call, b: Call): State {
    var at := cfg.exp(a.jti) + CLOCK_SKEW_LEEWAY_MS + cfg.lag;
    Init.(now := at, execs := [Exec(a, Ready(at), 0), Exec(b, Ready(at), 0)])
  }

  function BothWaiting(cfg: Config, a: Call, b: Call): State {
    Init.(now := cfg.exp(a.jti) + CLOCK_SKEW_LEEWAY_MS + cfg.lag, execs := [Exec(a, Presented, 0), Exec(b, Presented, 0)])
  }

  lemma BothSpawn(cfg: Config, a: Call, b: Call) returns (acts: seq<Action>)
    requires Governed(a) && Governed(b)
    ensures Reaches(cfg, acts, Init.(execs := [Exec(a, Presented, 0), Exec(b, Presented, 0)]), true)
  {
    acts := [];
    acts := Extend(cfg, acts, Init, true, Spawn(a));
    var s1 := Next(cfg, Init, Spawn(a));
    assert s1.execs == [Exec(a, Presented, 0)];
    acts := Extend(cfg, acts, s1, true, Spawn(b));
    assert Next(cfg, s1, Spawn(b)).execs == [Exec(a, Presented, 0), Exec(b, Presented, 0)];
  }

  /** Both calls are presented, and the clock stands at the last instant the grant is accepted. */
  lemma BothPresented(cfg: Config, a: Call, b: Call) returns (acts: seq<Action>)
    requires cfg.exp(a.jti) >= 0 && Governed(a) && Governed(b)
    ensures Reaches(cfg, acts, BothWaiting(cfg, a, b), true)
  {
    acts := BothSpawn(cfg, a, b);
    var s2 := Init.(execs := [Exec(a, Presented, 0), Exec(b, Presented, 0)]);
    var wait := Tick(cfg.exp(a.jti) + CLOCK_SKEW_LEEWAY_MS + cfg.lag);
    acts := Extend(cfg, acts, s2, true, wait);
    assert Next(cfg, s2, wait) == BothWaiting(cfg, a, b);
  }

  lemma BothGetReady(cfg: Config, a: Call, b: Call) returns (acts: seq<Action>)
    requires cfg.exp(a.jti) >= 0 && a.jti == b.jti
    requires Precheck(a).None? && Precheck(b).None? && Governed(a) && Governed(b)
    ensures Reaches(cfg, acts, BothReady(cfg, a, b), true)
  {
    acts := BothPresented(cfg, a, b);
    var s3 := BothWaiting(cfg, a, b);
    acts := Prepare(cfg, acts, s3, true, 0, cfg.lag);
    acts := SecondGetsReady(cfg, acts, a, b, Goto(s3, 0, Ready(s3.now)));
  }

  lemma SecondGetsReady(cfg: Config, acts: seq<Action>, a: Call, b: Call, s: State) returns (acts': seq<Action>)
    requires cfg.exp(a.jti) >= 0 && a.jti == b.jti && Precheck(b).None?
    requires s == Goto(BothWaiting(cfg, a, b), 0, Ready(BothWaiting(cfg, a, b).now)) && Reaches(cfg, acts, s, true)
    ensures Reaches(cfg, acts', BothReady(cfg, a, b), true)
  {
    acts' := Prepare(cfg, acts, s, true, 1, cfg.lag);
    assert Goto(s, 1, Ready(s.now)).execs == BothReady(cfg, a, b).execs;
  }

  /** Landing a create-only call: its ref and its claim appear, nothing else changes. */
  lemma CreateLands(cfg: Config, s: State, e: nat, oid: string)
    requires Usable(cfg.host, oid)
    requires e < |s.execs| && s.execs[e].pc.Ready? && Plain(s.execs[e].call, s.execs[e].call.jti)
    requires Creates(s.execs[e].call, oid)
    requires s.now <= s.execs[e].pc.at + cfg.gap
    requires s.execs[e].call.ref !in s.repo.refs
    requires LedgerRefFor(cfg.host.crypto, s.execs[e].call.jti) !in s.repo.refs
    ensures Enabled(cfg, s, BatchLands(e, true))
    ensures Next(cfg, s, BatchLands(e, true)).repo.refs
         == s.repo.refs[LedgerRefFor(cfg.host.crypto, s.execs[e].call.jti) := oid][s.execs[e].call.ref := oid]
  {
    ClaimName(cfg.host, s.execs[e].call.jti);
  }

  /** Time passes until the leeway is over, and the claim is reclaimed. */
  lemma ReclaimHappens(cfg: Config, acts: seq<Action>, s: State, g: string, wait: nat)
    returns (acts': seq<Action>, s': State)
    requires Reaches(cfg, acts, s, true) && cfg.exp(g) + EffectiveLeeway(cfg.leeway) < s.now + wait
    ensures Reaches(cfg, acts', s', true)
    ensures s'.now == s.now + wait && s'.execs == s.execs && s'.moves == s.moves
    ensures s'.reclaimed == s.reclaimed + {g} && s'.pushed == s.pushed
    ensures s'.repo.refs == s.repo.refs - {LedgerRefFor(cfg.host.crypto, g)}
  {
    acts' := Extend(cfg, acts, s, true, Tick(wait));
    var later := Next(cfg, s, Tick(wait));
    var grant := GrantMeta(Some(true), None, At(cfg.exp(g)), Some(true), "", "");
    var opts := CleanupOpts(later.now, cfg.leeway, None, None, "", "");
    assert CleanupEligibleAt(Some(grant), opts).Eligible?;
    acts' := Extend(cfg, acts', later, true, ReclaimEntry(g, grant, opts));
    s' := Next(cfg, later, ReclaimEntry(g, grant, opts));
  }

  /** With a shorter leeway the second call still lands after the first one's claim was reclaimed. */
  lemma ShortLeewaySpendsTwice(cfg: Config, oid: string, a: Call, b: Call) returns (acts: seq<Action>)
    requires Usable(cfg.host, oid) && cfg.exp(a.jti) >= 0
    requires Plain(a, a.jti) && Plain(b, a.jti) && Creates(a, oid) && Creates(b, oid) && a.ref != b.ref
    requires !LeewayCoversGap(cfg)
    ensures GovernedRun(acts) && Run(cfg, acts).Some? && !OneUse(Run(cfg, acts).value.moves)
  {
    acts := BothGetReady(cfg, a, b);
    var s0 := BothReady(cfg, a, b);
    ClaimName(cfg.host, a.jti);
    CreateLands(cfg, s0, 0, oid);
    acts := Extend(cfg, acts, s0, true, BatchLands(0, true));
    var s1 := Next(cfg, s0, BatchLands(0, true));
    var s2;
    acts, s2 := ReclaimHappens(cfg, acts, s1, a.jti, cfg.gap);
    assert s2.execs[1] == s0.execs[1];
    CreateLands(cfg, s2, 1, oid);
    acts := Extend(cfg, acts, s2, true, BatchLands(1, true));
    var s3 := Next(cfg, s2, BatchLands(1, true));
    assert s3.moves[0].jti == s3.moves[1].jti;
  }

  // ---------------------------------------------------------------- the bound

  const REF_A := "refs/tags/a"
  const REF_B := "refs/tags/b"

  function Example(g: string, ref: string, pin: string, newSha: string): Call {
    Call(g, "d", "d", ref, Some(pin), newSha, "publish", "kid", "key")
  }

  lemma ExampleIsPlain(g: string, ref: string, pin: string, newSha: string)
    requires g != "" && '|' !in g && ref in [REF_A, REF_B]
    requires IsSha(newSha) && (pin == "absent:" || IsSha(pin))
    ensures Plain(Example(g, ref, pin, newSha), g)
    ensures pin == "absent:" ==> Creates(Example(g, ref, pin, newSha), Lower(newSha))
  {
    assert '|' !in newSha && (IsSha(pin) ==> '|' !in pin) by {
      assert forall i :: 0 <= i < |newSha| ==> HexDigit(LowerChar(newSha[i]));
      assert IsSha(pin) ==> forall i :: 0 <= i < |pin| ==> HexDigit(LowerChar(pin[i]));
    }
    var fields := [ref, g, "d", pin, newSha];
    assert Free(fields, '|');
    assert ref[5] == 't' && LEDGER_DIR[5] == 'c' && "refs/heads/"[5] == 'h';
  }

  /** One call creates REF_A at oid under grant g, while another is about to create REF_B under it. */
  lemma FirstLands(cfg: Config, g: string, oid: string) returns (acts: seq<Action>, s: State)
    requires HasGrant(cfg, g, oid)
    ensures Reaches(cfg, acts, s, true) && s.moves == [Move(0, g, REF_A, "absent:", oid)]
    ensures |s.execs| == 2 && s.execs[0] == Exec(Example(g, REF_A, "absent:", oid), Landed, 0)
    ensures s.execs[1].call == Example(g, REF_B, "absent:", oid) && s.execs[1].pc == Ready(s.now)
    ensures s.reclaimed == {} && s.signed == {} && s.pushed == {}
    ensures s.now == cfg.exp(g) + CLOCK_SKEW_LEEWAY_MS + cfg.lag
    ensures s.repo.refs == map[LedgerRefFor(cfg.host.crypto, g) := oid, REF_A := oid]
    ensures Reflog(s.repo, REF_A) == if cfg.host.logged(REF_A) then [MarkerOf(g)] else []
  {
    var a, b := Example(g, REF_A, "absent:", oid), Example(g, REF_B, "absent:", oid);
    ExampleIsPlain(g, REF_A, "absent:", oid);
    ExampleIsPlain(g, REF_B, "absent:", oid);
    acts := BothGetReady(cfg, a, b);
    var s0 := BothReady(cfg, a, b);
    ClaimName(cfg.host, g);
    CreateLands(cfg, s0, 0, oid);
    acts := Extend(cfg, acts, s0, true, BatchLands(0, true));
    s := Next(cfg, s0, BatchLands(0, true));
  }

  ghost predicate EveryRunIsOneUse(cfg: Config) {
    forall acts :: GovernedRun(acts) && Run(cfg, acts).Some? ==> OneUse(Run(cfg, acts).value.moves)
  }

  /** A grant that expires after the deployment started, and an object to move refs to. */
  predicate HasGrant(cfg: Config, g: string, oid: string) {
    g != "" && '|' !in g && cfg.exp(g) >= 0 && Usable(cfg.host, oid)
  }

  /**
   * THE RECLAIM BOUND IS EXACT. Every governed run keeps one use if and only if reclaim waits at least
   * 30 s plus the verifiers' clock lag plus the longest gap between verification and batch.
   */
  lemma ReclaimBoundIsExact(cfg: Config, g: string, oid: string)
    requires IdealHash(cfg.host.crypto) && HasGrant(cfg, g, oid)
    ensures EveryRunIsOneUse(cfg) <==> EffectiveLeeway(cfg.leeway) >= CLOCK_SKEW_LEEWAY_MS + cfg.lag + cfg.gap
  {
    if LeewayCoversGap(cfg) {
      forall acts | GovernedRun(acts) && Run(cfg, acts).Some? ensures OneUse(Run(cfg, acts).value.moves) {
        OneUseOverRuns(cfg, acts);
      }
    } else {
      ExampleIsPlain(g, REF_A, "absent:", oid);
      ExampleIsPlain(g, REF_B, "absent:", oid);
      assert REF_A[|REF_A| - 1] == 'a' && REF_B[|REF_B| - 1] == 'b';
      var acts := ShortLeewaySpendsTwice(cfg, oid, Example(g, REF_A, "absent:", oid), Example(g, REF_B, "absent:", oid));
      assert !EveryRunIsOneUse(cfg);
    }
  }

  /** The shipped 30 s is enough exactly when no verifier lags and batches follow verification at once. */
  lemma DefaultLeewayIsTight(cfg: Config, g: string, oid: string)
    requires IdealHash(cfg.host.crypto) && HasGrant(cfg, g, oid) && cfg.leeway == None
    ensures EveryRunIsOneUse(cfg) <==> cfg.lag == 0 && cfg.gap == 0
  {
    ReclaimBoundIsExact(cfg, g, oid);
  }

  // ---------------------------------------------------------------- the all-zero new value

  /** The state between two deletions: nothing on ref, no claim for g, k moves of g already landed. */
  predicate Respendable(cfg: Config, s: State, ref: string, g: string, k: nat) {
    && s.now == 0 && ref !in s.repo.refs && LedgerRefFor(cfg.host.crypto, g) !in s.repo.refs
    && Reflog(s.repo, ref) == []
    && |s.moves| == k && forall m :: 0 <= m < k ==> s.moves[m].jti == g
  }

  lemma PushIsNoMarker(log: seq<string>, g: string)
    requires forall line :: line in log ==> line == "push"
    ensures MarkerOf(g) !in ReadLines(log)
  {
    ReadLinesIn(log, MarkerOf(g));
    TrimKeeps("push");
    assert MarkerOf(g)[0] == 'c' && "push"[0] == 'p';
    forall k | 0 <= k < |log| ensures Trim(log[k]) != MarkerOf(g) { assert log[k] in log; }
  }

  /** What an accepted push of one new ref does. */
  lemma PushOne(cfg: Config, s: State, ref: string, oid: string)
    requires HookAccepts([Command(ZERO, oid, ref)])
    ensures PushStep(cfg, s, [Command(ZERO, oid, ref)]).repo ==
            (var w := RefWrite(cfg.host, s.repo, ref, oid, ZERO, "push"); if w.Some? then w.value else s.repo)
  {
    var cmds := [Command(ZERO, oid, ref)];
    var w := RefWrite(cfg.host, s.repo, ref, oid, ZERO, "push");
    var r := if w.Some? then w.value else s.repo;
    assert cmds[1..] == [] && ReceivePack(cfg.host, r, []) == r;
  }

  /** The hook accepts the push of a new claim, which lands and touches no other ref. */
  lemma PushClaims(cfg: Config, s: State, name: string, oid: string)
    requires Usable(cfg.host, oid) && InLedger(name) && !StartsWith(name, "refs/heads/") && name !in s.repo.refs
    ensures HookAccepts([Command(ZERO, oid, name)])
    ensures var s' := PushStep(cfg, s, [Command(ZERO, oid, name)]);
            && s'.repo.refs == s.repo.refs[name := oid] && name in s'.pushed
            && forall ref :: ref != name ==> Reflog(s'.repo, ref) == Reflog(s.repo, ref)
  {
    PushOne(cfg, s, name, oid);
  }

  lemma PushCreates(cfg: Config, s: State, ref: string, g: string, oid: string)
    requires Usable(cfg.host, oid) && ref !in s.repo.refs && Reflog(s.repo, ref) == []
    requires !InLedger(ref) && !StartsWith(ref, "refs/heads/")
    ensures var s' := PushStep(cfg, s, [Command(ZERO, oid, ref)]);
            && s'.repo.refs == s.repo.refs[ref := oid]
            && MarkerOf(g) !in ReflogMarkers(s'.repo, ref)
            && forall line :: line in Reflog(s'.repo, ref) ==> line == "push"
  {
    PushOne(cfg, s, ref, oid);
    var s' := PushStep(cfg, s, [Command(ZERO, oid, ref)]);
    assert forall line :: line in Reflog(s'.repo, ref) ==> line == "push";
    PushIsNoMarker(Reflog(s'.repo, ref), g);
  }

  /** A batch to the all-zero id over the pinned value deletes its ref and leaves no claim. */
  lemma DeleteBatch(host: Host, repo: Repo, call: Call, oid: string)
    requires Usable(host, oid) && Plain(call, call.jti) && ZeroesOut(call, oid)
    requires LedgerRefFor(host.crypto, call.jti) !in repo.refs && call.ref in repo.refs && repo.refs[call.ref] == oid
    ensures var landed := Attempt(host, repo, call);
            && landed.Some? && call.ref !in landed.value.refs && Reflog(landed.value, call.ref) == []
            && LedgerRefFor(host.crypto, call.jti) !in landed.value.refs
  {
    ClaimName(host, call.jti);
  }

  lemma DeleteLands(cfg: Config, s: State, e: nat, oid: string)
    requires Usable(cfg.host, oid)
    requires e < |s.execs| && s.execs[e].pc == Ready(s.now) && Plain(s.execs[e].call, s.execs[e].call.jti)
    requires ZeroesOut(s.execs[e].call, oid)
    requires LedgerRefFor(cfg.host.crypto, s.execs[e].call.jti) !in s.repo.refs
    requires s.execs[e].call.ref in s.repo.refs && s.repo.refs[s.execs[e].call.ref] == oid
    ensures Enabled(cfg, s, BatchLands(e, true))
    ensures var s' := Next(cfg, s, BatchLands(e, true));
            var call := s.execs[e].call;
            && call.ref !in s'.repo.refs && LedgerRefFor(cfg.host.crypto, call.jti) !in s'.repo.refs
            && Reflog(s'.repo, call.ref) == [] && s'.moves == s.moves + [MoveOf(e, call)]
  {
    DeleteBatch(cfg.host, s.repo, s.execs[e].call, oid);
  }

  lemma DeleteOnce(cfg: Config, call: Call, oid: string, acts: seq<Action>, s: State, k: nat)
    returns (acts': seq<Action>, s': State)
    requires Usable(cfg.host, oid) && cfg.exp(call.jti) >= 0 && Plain(call, call.jti) && ZeroesOut(call, oid)
    requires Reaches(cfg, acts, s, false) && Respendable(cfg, s, call.ref, call.jti, k)
    ensures Reaches(cfg, acts', s', false) && Respendable(cfg, s', call.ref, call.jti, k + 1)
  {
    var s1;
    acts', s1 := PushAndReady(cfg, call, oid, acts, s);
    ClaimName(cfg.host, call.jti);
    var e := |s.execs|;
    DeleteLands(cfg, s1, e, oid);
    acts' := Extend(cfg, acts', s1, false, BatchLands(e, true));
    s' := Next(cfg, s1, BatchLands(e, true));
  }

  /** The ref is pushed at oid, and a new call on it is ready. */
  lemma PushAndReady(cfg: Config, call: Call, oid: string, acts: seq<Action>, s: State)
    returns (acts': seq<Action>, s': State)
    requires Usable(cfg.host, oid) && cfg.exp(call.jti) >= 0 && Plain(call, call.jti)
    requires Reaches(cfg, acts, s, false) && s.now == 0 && call.ref !in s.repo.refs && Reflog(s.repo, call.ref) == []
    ensures Reaches(cfg, acts', s', false) && s'.now == 0 && s'.moves == s.moves
    ensures s'.execs == s.execs + [Exec(call, Ready(0), 0)] && s'.repo.refs == s.repo.refs[call.ref := oid]
  {
    var push := Push([Command(ZERO, oid, call.ref)]);
    acts' := Extend(cfg, acts, s, false, push);
    PushCreates(cfg, s, call.ref, call.jti, oid);
    acts', s' := SpawnAndReady(cfg, call, acts', Next(cfg, s, push));
  }

  lemma SpawnAndReady(cfg: Config, call: Call, acts: seq<Action>, s: State) returns (acts': seq<Action>, s': State)
    requires Reaches(cfg, acts, s, false) && s.now == 0 && cfg.exp(call.jti) >= 0 && Precheck(call).None?
    requires MarkerOf(call.jti) !in ReflogMarkers(s.repo, call.ref)
    ensures Reaches(cfg, acts', s', false) && s'.now == 0 && s'.moves == s.moves && s'.repo == s.repo
    ensures s'.execs == s.execs + [Exec(call, Ready(0), 0)]
  {
    acts' := Extend(cfg, acts, s, false, Spawn(call));
    var s1, e := Next(cfg, s, Spawn(call)), |s.execs|;
    acts' := Prepare(cfg, acts', s1, false, e, 0);
    s' := Goto(s1, e, Ready(s1.now));
  }

  lemma DeletingCall(g: string, oid: string) returns (call: Call)
    requires g != "" && '|' !in g && IsSha(oid) && Lower(oid) == oid
    ensures Plain(call, g) && ZeroesOut(call, oid)
  {
    ExampleIsPlain(g, REF_A, oid, ZERO);
    call := Example(g, REF_A, oid, ZERO);
    assert OldOid(oid) == oid by { assert HexDigit(LowerChar(oid[2])) && "absent:"[2] == 's'; }
    assert Lower(ZERO) == ZERO;
  }

  /**
   * Without the non-zero hypothesis one use fails: forty zeros pass the 40-hex test, the batch deletes
   * the target and leaves no claim, and the same grant lands again.
   */
  lemma ZeroOidSpendsTwice(cfg: Config, g: string, oid: string) returns (acts: seq<Action>)
    requires HasGrant(cfg, g, oid)
    ensures Run(cfg, acts).Some? && !OneUse(Run(cfg, acts).value.moves)
    ensures LedgerRefFor(cfg.host.crypto, g) !in Run(cfg, acts).value.repo.refs
  {
    var call := DeletingCall(g, oid);
    var s := Init;
    acts := [];
    acts, s := DeleteOnce(cfg, call, oid, acts, s, 0);
    acts, s := DeleteOnce(cfg, call, oid, acts, s, 1);
    assert s.moves[0].jti == s.moves[1].jti;
  }
}
