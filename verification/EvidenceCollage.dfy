/** No cross-run collage: an accepted artifact is one run's, and one run's artifact is accepted. */
module EvidenceCollage {
  import opened Text
  import opened Crypto
  import opened Json
  import opened JsonCanon
  import opened EvidenceRoot
  import opened EvidenceBinding

  // ---------------------------------------------------------------- what a verified root says

  /** The root's members are the run's, member by member. */
  predicate Says(c: Crypto, root: Json, run: RunRecord) {
    && At(root, "run_id") == Str(run.runId)
    && At(root, "contract_commit") == OrNull(run.contractCommit)
    && At(root, "grant_id") == OrNull(run.claims.grantId)
    && At(root, "scope_hash") == OrNull(run.claims.scopeHash)
    && At(root, "policy_hash") == OrNull(run.claims.policyHash)
    && forall i :: 0 <= i < |SLOT_NAMES| ==>
         Recorded(root, SLOT_NAMES[i]) == DigestJson(DigestToken(c, TokenOf(run.tokens, SLOT_NAMES[i])))
  }

  /** root without its signature is, member order aside, the run's body. */
  predicate Signs(c: Crypto, root: Json, run: RunRecord) {
    root.Obj?
    && var rest := Obj(Without(root.fields, "signature"));
    Printable(rest) && Printable(Body(c, run)) && Equiv(Body(c, run), rest)
  }

  lemma FieldSays(c: Crypto, root: Json, run: RunRecord, i: nat, f: Field)
    requires Signs(c, root, run) && i < |BodyFields(c, run)| && BodyFields(c, run)[i] == f && f.key != "signature"
    ensures Equiv(f.value, At(root, f.key))
    ensures f.value.Str? || f.value.Null? ==> At(root, f.key) == f.value
  {
    EquivAt(Body(c, run), Obj(Without(root.fields, "signature")), i);
    WithoutAt(root.fields, "signature", f.key);
  }

  lemma DigestsSay(c: Crypto, root: Json, run: RunRecord, i: nat)
    requires i < |SLOT_NAMES| && Printable(Obj(DigestFields(c, run.tokens, SLOT_NAMES)))
    requires Equiv(Obj(DigestFields(c, run.tokens, SLOT_NAMES)), At(root, "artifact_digests"))
    requires Printable(At(root, "artifact_digests"))
    ensures Recorded(root, SLOT_NAMES[i]) == DigestJson(DigestToken(c, TokenOf(run.tokens, SLOT_NAMES[i])))
  {
    EquivAt(Obj(DigestFields(c, run.tokens, SLOT_NAMES)), At(root, "artifact_digests"), i);
  }

  lemma {:induction false} MemberAtPrintable(fields: seq<Field>, key: string)
    requires forall i :: 0 <= i < |fields| ==> Printable(fields[i].value)
    ensures MemberAt(fields, key).Undefined? || Printable(MemberAt(fields, key))
  {
    if fields != [] { MemberAtPrintable(fields[1..], key); }
  }

  lemma AllDigestsSay(c: Crypto, root: Json, run: RunRecord)
    requires Signs(c, root, run)
    ensures forall i :: 0 <= i < |SLOT_NAMES| ==>
              Recorded(root, SLOT_NAMES[i]) == DigestJson(DigestToken(c, TokenOf(run.tokens, SLOT_NAMES[i])))
  {
    var digests := Obj(DigestFields(c, run.tokens, SLOT_NAMES));
    var f := Field("artifact_digests", digests);
    assert BodyFields(c, run)[7] == f;
    assert Printable(BodyFields(c, run)[7].value);
    FieldSays(c, root, run, 7, f);
    MemberAtPrintable(Without(root.fields, "signature"), "artifact_digests");
    WithoutAt(root.fields, "signature", "artifact_digests");
    forall i | 0 <= i < |SLOT_NAMES|
      ensures Recorded(root, SLOT_NAMES[i]) == DigestJson(DigestToken(c, TokenOf(run.tokens, SLOT_NAMES[i])))
    {
      DigestsSay(c, root, run, i);
    }
  }

  lemma RootSays(c: Crypto, root: Json, run: RunRecord)
    requires Signs(c, root, run)
    ensures Says(c, root, run)
  {
    AllDigestsSay(c, root, run);
    FieldSays(c, root, run, 1, Field("run_id", Str(run.runId)));
    FieldSays(c, root, run, 6, Field("contract_commit", OrNull(run.contractCommit)));
    FieldSays(c, root, run, 8, Field("grant_id", OrNull(run.claims.grantId)));
    FieldSays(c, root, run, 10, Field("scope_hash", OrNull(run.claims.scopeHash)));
    FieldSays(c, root, run, 11, Field("policy_hash", OrNull(run.claims.policyHash)));
  }

  // ---------------------------------------------------------------- what passing every check means

  lemma {:induction false} MandatoryPassed(root: Json, names: seq<string>, i: nat)
    requires AllOk(MandatoryChecks(root, names)) && i < |names| && Mandatory(names[i])
    ensures !Nullish(Recorded(root, names[i]))
    decreases |names|
  {
    var init := names[..|names| - 1];
    var before, last := MandatoryChecks(root, init), MandatoryCheck(root, names[|names| - 1]);
    assert MandatoryChecks(root, names) == before + last;
    OkSplit(before, last);
    if i < |init| { MandatoryPassed(root, init, i); } else { assert last[0].ok; }
  }

  lemma OkSplit(a: seq<Check>, b: seq<Check>)
    ensures AllOk(a + b) <==> AllOk(a) && AllOk(b)
  {
    assert forall i :: 0 <= i < |a| ==> (a + b)[i] == a[i];
    assert forall i :: 0 <= i < |b| ==> (a + b)[|a| + i] == b[i];
  }

  lemma {:induction false} DigestsPassed(c: Crypto, root: Json, artifact: Json, sidecars: Sidecars, names: seq<string>, i: nat)
    requires var d := DigestChecks(c, root, artifact, sidecars, names); d.Some? && AllOk(d.value)
    requires i < |names|
    ensures var got := DigestToken(c, Carried(artifact, sidecars, names[i]));
            !got.Throws? && AllOk(DigestCheck(root, names[i], got))
    decreases |names|
  {
    var n := |names| - 1;
    var before := DigestChecks(c, root, artifact, sidecars, names[..n]).value;
    var last := DigestCheck(root, names[n], DigestToken(c, Carried(artifact, sidecars, names[n])));
    OkSplit(before, last);
    if i < n { DigestsPassed(c, root, artifact, sidecars, names[..n], i); }
  }

  /** One slot of an accepted artifact against the run its root came from. */
  predicate SlotBound(c: Crypto, artifact: Json, sidecars: Sidecars, run: RunRecord, name: string) {
    var carried := Carried(artifact, sidecars, name);
    && (Mandatory(name) ==> DigestToken(c, carried).Sha?)
    && (DigestToken(c, carried).Sha? ==>
          DigestToken(c, carried) == DigestToken(c, TokenOf(run.tokens, name)) && SameToken(carried, TokenOf(run.tokens, name)))
  }

  lemma SlotIsBound(c: Crypto, root: Json, artifact: Json, sidecars: Sidecars, run: RunRecord, name: string)
    requires IdealHash(c)
    requires Recorded(root, name) == DigestJson(DigestToken(c, TokenOf(run.tokens, name)))
    requires Mandatory(name) ==> !Nullish(Recorded(root, name))
    requires var got := DigestToken(c, Carried(artifact, sidecars, name));
             !got.Throws? && AllOk(DigestCheck(root, name, got))
    ensures SlotBound(c, artifact, sidecars, run, name)
  {
    var carried := Carried(artifact, sidecars, name);
    var got := DigestToken(c, carried);
    var check := DigestCheck(root, name, got);
    assert check != [] ==> check[0].ok;
    if got.Sha? { DigestBinds(c, carried, TokenOf(run.tokens, name)); }
  }

  /** What the outer documents say agrees with the run. */
  predicate ClaimsBound(env: Env, artifact: Json, sidecars: Sidecars, run: RunRecord) {
    var b := GrantBodyOf(env, Carried(artifact, sidecars, "execution_grant"));
    var correlation := Carried(artifact, sidecars, "correlation");
    && At(artifact, "run_id") == Str(run.runId)
    && (TruthyJson(b) && run.claims.grantId.Some? ==> GrantId(b) == Str(run.claims.grantId.value))
    && (TruthyJson(b) && run.claims.scopeHash.Some? ==> GrantScope(b) == Str(run.claims.scopeHash.value))
    && (run.claims.scopeHash.Some? && TruthyJson(correlation) ==>
          At(correlation, "scope_hash") == Str(run.claims.scopeHash.value))
    && (run.contractCommit.Some? && TruthyJson(correlation) ==>
          At(correlation, "contract_commit") == Str(run.contractCommit.value))
  }

  predicate SlotsBound(c: Crypto, artifact: Json, sidecars: Sidecars, run: RunRecord) {
    forall i :: 0 <= i < |SLOT_NAMES| ==> SlotBound(c, artifact, sidecars, run, SLOT_NAMES[i])
  }

  /** The parts of the concatenated checks. */
  lemma ChecksSplit(env: Env, root: Json, artifact: Json, sidecars: Sidecars, digests: seq<Check>)
    ensures AllOk(Checks(env, root, artifact, sidecars, digests)) <==>
            && AllOk(MandatoryChecks(root, SLOT_NAMES)) && AllOk(digests)
            && AllOk(GrantChecks(env, root, artifact, sidecars)) && AllOk(IdentityChecks(root, artifact))
            && AllOk(RunChecks(root, artifact, Carried(artifact, sidecars, "correlation")))
            && AllOk(TranscriptChecks(env, root, Carried(artifact, sidecars, "transcript_token")))
  {
    var a, b, d := [Check("root_signature", true)], MandatoryChecks(root, SLOT_NAMES), digests;
    var e := GrantChecks(env, root, artifact, sidecars);
    var f, g := IdentityChecks(root, artifact), RunChecks(root, artifact, Carried(artifact, sidecars, "correlation"));
    var h := TranscriptChecks(env, root, Carried(artifact, sidecars, "transcript_token"));
    OkSplit(a, b);
    OkSplit(a + b, d);
    OkSplit(a + b + d, e);
    OkSplit(a + b + d + e, f);
    OkSplit(a + b + d + e + f, g);
    OkSplit(a + b + d + e + f + g, h);
  }

  lemma RunChecksPassed(root: Json, artifact: Json, correlation: Json)
    requires AllOk(RunChecks(root, artifact, correlation))
    ensures StrictEq(At(artifact, "run_id"), At(root, "run_id"))
    ensures TruthyJson(correlation) && !Nullish(At(root, "scope_hash")) ==>
              StrictEq(At(correlation, "scope_hash"), At(root, "scope_hash"))
    ensures TruthyJson(correlation) && !Nullish(At(root, "contract_commit")) ==>
              StrictEq(At(correlation, "contract_commit"), At(root, "contract_commit"))
  {
    var a := [Check("run_id_artifact", StrictEq(At(artifact, "run_id"), At(root, "run_id")))];
    var b := if TruthyJson(correlation) && !Nullish(At(root, "scope_hash"))
      then [Check("run_id_correlation", StrictEq(At(correlation, "scope_hash"), At(root, "scope_hash")))] else [];
    var d := if TruthyJson(correlation) && !Nullish(At(root, "contract_commit"))
      then [Check("contract_commit", StrictEq(At(correlation, "contract_commit"), At(root, "contract_commit")))] else [];
    OkSplit(a, b);
    OkSplit(a + b, d);
    assert a[0].ok && (b != [] ==> b[0].ok) && (d != [] ==> d[0].ok);
  }

  lemma GrantChecksPassed(env: Env, root: Json, artifact: Json, sidecars: Sidecars)
    requires AllOk(GrantChecks(env, root, artifact, sidecars))
    ensures var b := GrantBodyOf(env, Carried(artifact, sidecars, "execution_grant"));
            TruthyJson(b) ==>
              && (Nullish(At(root, "grant_id")) || StrictEq(At(root, "grant_id"), GrantId(b)))
              && (Nullish(At(root, "scope_hash")) || StrictEq(At(root, "scope_hash"), GrantScope(b)))
  {
    var b := GrantBodyOf(env, Carried(artifact, sidecars, "execution_grant"));
    if TruthyJson(b) {
      OkSplit(ClaimChecks(root, b), ReceiptCheck(env.c, b, Carried(artifact, sidecars, "chain_receipt")));
      assert ClaimChecks(root, b)[0].ok && ClaimChecks(root, b)[1].ok;
    }
  }

  lemma SlotsAreBound(c: Crypto, root: Json, artifact: Json, sidecars: Sidecars, run: RunRecord)
    requires IdealHash(c) && Says(c, root, run) && AllOk(MandatoryChecks(root, SLOT_NAMES))
    requires var d := DigestChecks(c, root, artifact, sidecars, SLOT_NAMES); d.Some? && AllOk(d.value)
    ensures SlotsBound(c, artifact, sidecars, run)
  {
    forall i | 0 <= i < |SLOT_NAMES| ensures SlotBound(c, artifact, sidecars, run, SLOT_NAMES[i]) {
      if Mandatory(SLOT_NAMES[i]) { MandatoryPassed(root, SLOT_NAMES, i); }
      DigestsPassed(c, root, artifact, sidecars, SLOT_NAMES, i);
      SlotIsBound(c, root, artifact, sidecars, run, SLOT_NAMES[i]);
    }
  }

  lemma ClaimsAreBound(env: Env, root: Json, artifact: Json, sidecars: Sidecars, run: RunRecord)
    requires Says(env.c, root, run) && AllOk(GrantChecks(env, root, artifact, sidecars))
    requires AllOk(RunChecks(root, artifact, Carried(artifact, sidecars, "correlation")))
    ensures ClaimsBound(env, artifact, sidecars, run)
  {
    RunChecksPassed(root, artifact, Carried(artifact, sidecars, "correlation"));
    GrantChecksPassed(env, root, artifact, sidecars);
  }

  /** The same tokens: each mandatory slot carries the run's token, an optional one the run's or none. */
  predicate CarriesRun(c: Crypto, artifact: Json, sidecars: Sidecars, run: RunRecord) {
    forall i :: 0 <= i < |SLOT_NAMES| ==> CarriesSlot(c, artifact, sidecars, run, SLOT_NAMES[i])
  }

  predicate CarriesSlot(c: Crypto, artifact: Json, sidecars: Sidecars, run: RunRecord, name: string) {
    var got := DigestToken(c, Carried(artifact, sidecars, name));
    !got.Throws? && (Mandatory(name) ==> got.Sha?) && (got.Sha? ==> got == DigestToken(c, TokenOf(run.tokens, name)))
  }

  /**
   * The outer documents agree with the run wherever they say anything. These are the comparisons the
   * verifier makes, with the root's members replaced by the run's own: the weight of what is proved about
   * them is that those are the same, and in the root and the tokens.
   */
  predicate Agrees(env: Env, artifact: Json, sidecars: Sidecars, run: RunRecord) {
    var b := GrantBodyOf(env, Carried(artifact, sidecars, "execution_grant"));
    var receipt := Carried(artifact, sidecars, "chain_receipt");
    var ids := At(At(artifact, "continuity"), "identities");
    var token := Carried(artifact, sidecars, "transcript_token");
    var p := if token.Str? then env.transcript(token.s) else None;
    && ClaimsBound(env, artifact, sidecars, run)
    && (TruthyJson(b) && run.claims.policyHash.Some? ==>
          Nullish(At(b, "policy_hash")) || At(b, "policy_hash") == Str(run.claims.policyHash.value))
    && (TruthyJson(b) && TruthyJson(GrantReceipt(b)) && receipt.Str? ==>
          GrantReceipt(b) == DigestJson(DigestToken(env.c, receipt)))
    && (run.claims.grantId.Some? && !Nullish(At(ids, "issued_jti")) ==>
          && At(ids, "issued_jti") == Str(run.claims.grantId.value)
          && At(ids, "consumed_jti") == Str(run.claims.grantId.value)
          && At(ids, "attestation_jti") == Str(run.claims.grantId.value))
    && (p.Some? && TruthyJson(p.value) && TruthyJson(At(p.value, "run_id")) ==> At(p.value, "run_id") == Str(run.runId))
  }

  lemma SlotsAreCarried(c: Crypto, root: Json, artifact: Json, sidecars: Sidecars, run: RunRecord)
    requires SlotsBound(c, artifact, sidecars, run)
    requires DigestChecks(c, root, artifact, sidecars, SLOT_NAMES).Some?
    requires AllOk(DigestChecks(c, root, artifact, sidecars, SLOT_NAMES).value)
    ensures CarriesRun(c, artifact, sidecars, run)
  {
    forall i | 0 <= i < |SLOT_NAMES| ensures CarriesSlot(c, artifact, sidecars, run, SLOT_NAMES[i]) {
      assert SlotBound(c, artifact, sidecars, run, SLOT_NAMES[i]);
      DigestsPassed(c, root, artifact, sidecars, SLOT_NAMES, i);
    }
  }

  /** The grant's policy hash and the receipt it names. */
  lemma GrantAgrees(env: Env, root: Json, artifact: Json, sidecars: Sidecars, run: RunRecord)
    requires Says(env.c, root, run) && AllOk(GrantChecks(env, root, artifact, sidecars))
    ensures var b := GrantBodyOf(env, Carried(artifact, sidecars, "execution_grant"));
            var receipt := Carried(artifact, sidecars, "chain_receipt");
            && (TruthyJson(b) && run.claims.policyHash.Some? ==>
                  Nullish(At(b, "policy_hash")) || At(b, "policy_hash") == Str(run.claims.policyHash.value))
            && (TruthyJson(b) && TruthyJson(GrantReceipt(b)) && receipt.Str? ==>
                  GrantReceipt(b) == DigestJson(DigestToken(env.c, receipt)))
  {
    var b := GrantBodyOf(env, Carried(artifact, sidecars, "execution_grant"));
    var receipt := Carried(artifact, sidecars, "chain_receipt");
    if TruthyJson(b) {
      OkSplit(ClaimChecks(root, b), ReceiptCheck(env.c, b, receipt));
      assert ClaimChecks(root, b)[2].ok;
      if TruthyJson(GrantReceipt(b)) && receipt.Str? { assert ReceiptCheck(env.c, b, receipt)[0].ok; }
    }
  }

  /** The identity chain and the transcript's run. */
  lemma OthersAgree(env: Env, root: Json, artifact: Json, sidecars: Sidecars, run: RunRecord)
    requires Says(env.c, root, run) && AllOk(IdentityChecks(root, artifact))
    requires AllOk(TranscriptChecks(env, root, Carried(artifact, sidecars, "transcript_token")))
    ensures var ids := At(At(artifact, "continuity"), "identities");
            run.claims.grantId.Some? && !Nullish(At(ids, "issued_jti")) ==>
              && At(ids, "issued_jti") == Str(run.claims.grantId.value)
              && At(ids, "consumed_jti") == Str(run.claims.grantId.value)
              && At(ids, "attestation_jti") == Str(run.claims.grantId.value)
    ensures var token := Carried(artifact, sidecars, "transcript_token");
            var p := if token.Str? then env.transcript(token.s) else None;
            p.Some? && TruthyJson(p.value) && TruthyJson(At(p.value, "run_id")) ==> At(p.value, "run_id") == Str(run.runId)
  {
    var ids := At(At(artifact, "continuity"), "identities");
    if run.claims.grantId.Some? && !Nullish(At(ids, "issued_jti")) { assert IdentityChecks(root, artifact)[0].ok; }
    var token := Carried(artifact, sidecars, "transcript_token");
    var p := if token.Str? then env.transcript(token.s) else None;
    if p.Some? && TruthyJson(p.value) && TruthyJson(At(p.value, "run_id")) {
      assert TranscriptChecks(env, root, token)[0].ok;
    }
  }

  /**
   * NO COLLAGE. If the check accepts an artifact under an executor key that signs roots only of its own
   * runs, there is one such run whose root it is and whose tokens these are: every mandatory token is
   * carried and is the run's, every optional token carried is the run's, and whatever the outer documents
   * say of grant, scope, policy, receipt, identities, correlation and transcript agrees with the run.
   */
  lemma NoCollage(env: Env, artifact: Json, sidecars: Sidecars, runs: set<RunRecord>) returns (run: RunRecord)
    requires IdealHash(env.c) && env.key.Some? && SignsOnlyRoots(env.c, env.key.value, runs)
    requires Accepted(env, artifact, sidecars)
    ensures run in runs && SlotsBound(env.c, artifact, sidecars, run) && IsRuns(env, artifact, sidecars, run)
  {
    var c, root := env.c, At(artifact, "evidence_root");
    run := RootIsSomeRun(c, root, env.key.value, runs);
    RootSays(c, root, run);
    ChecksSplit(env, root, artifact, sidecars, DigestChecks(c, root, artifact, sidecars, SLOT_NAMES).value);
    SlotsAreBound(c, root, artifact, sidecars, run);
    SlotsAreCarried(c, root, artifact, sidecars, run);
    ClaimsAgree(env, root, artifact, sidecars, run);
  }

  lemma ClaimsAgree(env: Env, root: Json, artifact: Json, sidecars: Sidecars, run: RunRecord)
    requires Says(env.c, root, run)
    requires AllOk(GrantChecks(env, root, artifact, sidecars)) && AllOk(IdentityChecks(root, artifact))
    requires AllOk(RunChecks(root, artifact, Carried(artifact, sidecars, "correlation")))
    requires AllOk(TranscriptChecks(env, root, Carried(artifact, sidecars, "transcript_token")))
    ensures Agrees(env, artifact, sidecars, run)
  {
    ClaimsAreBound(env, root, artifact, sidecars, run);
    GrantAgrees(env, root, artifact, sidecars, run);
    OthersAgree(env, root, artifact, sidecars, run);
  }

  /** The artifact is this run's: its root, its tokens, and outer documents that agree with it. */
  predicate IsRuns(env: Env, artifact: Json, sidecars: Sidecars, run: RunRecord) {
    && Signs(env.c, At(artifact, "evidence_root"), run)
    && CarriesRun(env.c, artifact, sidecars, run) && Agrees(env, artifact, sidecars, run)
  }

  // ---------------------------------------------------------------- conversely

  lemma {:induction false} WithoutAbsent(fields: seq<Field>, last: Field)
    requires forall i :: 0 <= i < |fields| ==> fields[i].key != last.key
    ensures Without(fields + [last], last.key) == fields && MemberAt(fields + [last], last.key) == last.value
  {
    if fields != [] {
      WithoutAbsent(fields[1..], last);
      assert (fields + [last])[1..] == fields[1..] + [last];
      assert fields == [fields[0]] + fields[1..];
    }
  }

  lemma NoSignatureInBody(c: Crypto, run: RunRecord)
    ensures forall i :: 0 <= i < |BodyFields(c, run)| ==> BodyFields(c, run)[i].key != "signature"
  {
    var f := BodyFields(c, run);
    forall i | 0 <= i < |f| ensures f[i].key != "signature" {
      assert f[i].key[0] == 's' ==> f[i].key[1] != 'i';
    }
  }

  lemma RootParts(c: Crypto, key: Key, run: RunRecord)
    ensures var root := Root(c, key, run);
            && root.Obj? && Without(root.fields, "signature") == BodyFields(c, run)
            && At(root, "signature") == Str(c.sign(key, RootSigningInput(Canon(BodyText(c, run)))))
  {
    BodyPrintable(c, run);
    NoSignatureInBody(c, run);
    WithoutAbsent(BodyFields(c, run), Field("signature", Str(c.sign(key, RootSigningInput(Canon(Body(c, run)))))));
  }

  lemma BuiltRootSigns(c: Crypto, key: Key, run: RunRecord)
    ensures Signs(c, Root(c, key, run), run)
  {
    RootParts(c, key, run);
    BodyPrintable(c, run);
    CanonicalJsonIsExact(Body(c, run), Body(c, run));
  }

  lemma GoodSignatureVerifies(c: Crypto, key: Key, root: Json, text: string)
    requires Ideal(c) && root.Obj? && At(root, "v") == Str(ROOT_V)
    requires At(root, "signature") == Str(c.sign(key, RootSigningInput(text)))
    requires CanonicalJson(Obj(Without(root.fields, "signature"))) == Some(text)
    ensures VerifyEvidenceRoot(c, root, Some(key)) == RootValid
  {
    assert Segment(c.sign(key, RootSigningInput(text)));
    assert c.verify(key, RootSigningInput(text), c.sign(key, RootSigningInput(text)));
  }

  lemma BuiltRootVerifies(c: Crypto, key: Key, run: RunRecord, root: Json)
    requires Ideal(c) && root == Root(c, key, run)
    ensures VerifyEvidenceRoot(c, root, Some(key)) == RootValid && Signs(c, root, run)
  {
    BuiltRootSigns(c, key, run);
    RootParts(c, key, run);
    FieldSays(c, root, run, 0, Field("v", Str(ROOT_V)));
    assert CanonicalJson(BodyText(c, run)) == Some(Canon(BodyText(c, run)));
    GoodSignatureVerifies(c, key, root, Canon(BodyText(c, run)));
  }

  lemma {:induction false} MandatoryPass(root: Json, names: seq<string>)
    requires forall i :: 0 <= i < |names| && Mandatory(names[i]) ==> !Nullish(Recorded(root, names[i]))
    ensures AllOk(MandatoryChecks(root, names))
    decreases |names|
  {
    if names != [] {
      var n := |names| - 1;
      MandatoryPass(root, names[..n]);
      OkSplit(MandatoryChecks(root, names[..n]), MandatoryCheck(root, names[n]));
    }
  }

  lemma {:induction false} DigestsPass(c: Crypto, root: Json, artifact: Json, sidecars: Sidecars, names: seq<string>)
    requires forall i :: 0 <= i < |names| ==>
      var got := DigestToken(c, Carried(artifact, sidecars, names[i]));
      !got.Throws? && AllOk(DigestCheck(root, names[i], got))
    ensures var d := DigestChecks(c, root, artifact, sidecars, names); d.Some? && AllOk(d.value)
    decreases |names|
  {
    if names != [] {
      var n := |names| - 1;
      DigestsPass(c, root, artifact, sidecars, names[..n]);
      OkSplit(DigestChecks(c, root, artifact, sidecars, names[..n]).value,
              DigestCheck(root, names[n], DigestToken(c, Carried(artifact, sidecars, names[n]))));
    }
  }

  lemma GrantChecksPass(env: Env, root: Json, artifact: Json, sidecars: Sidecars, run: RunRecord)
    requires Says(env.c, root, run) && Agrees(env, artifact, sidecars, run)
    ensures AllOk(GrantChecks(env, root, artifact, sidecars))
  {
    var b := GrantBodyOf(env, Carried(artifact, sidecars, "execution_grant"));
    OkSplit(ClaimChecks(root, b), ReceiptCheck(env.c, b, Carried(artifact, sidecars, "chain_receipt")));
  }

  lemma RunChecksPass(root: Json, artifact: Json, correlation: Json)
    requires StrictEq(At(artifact, "run_id"), At(root, "run_id"))
    requires TruthyJson(correlation) && !Nullish(At(root, "scope_hash")) ==>
               StrictEq(At(correlation, "scope_hash"), At(root, "scope_hash"))
    requires TruthyJson(correlation) && !Nullish(At(root, "contract_commit")) ==>
               StrictEq(At(correlation, "contract_commit"), At(root, "contract_commit"))
    ensures AllOk(RunChecks(root, artifact, correlation))
  {
  }

  lemma SlotsPass(c: Crypto, root: Json, artifact: Json, sidecars: Sidecars, run: RunRecord)
    requires Says(c, root, run) && CarriesRun(c, artifact, sidecars, run)
    ensures AllOk(MandatoryChecks(root, SLOT_NAMES))
    ensures var d := DigestChecks(c, root, artifact, sidecars, SLOT_NAMES); d.Some? && AllOk(d.value)
  {
    forall i | 0 <= i < |SLOT_NAMES|
      ensures var got := DigestToken(c, Carried(artifact, sidecars, SLOT_NAMES[i]));
              && (Mandatory(SLOT_NAMES[i]) ==> !Nullish(Recorded(root, SLOT_NAMES[i])))
              && !got.Throws? && AllOk(DigestCheck(root, SLOT_NAMES[i], got))
    {
      assert CarriesSlot(c, artifact, sidecars, run, SLOT_NAMES[i]);
    }
    MandatoryPass(root, SLOT_NAMES);
    DigestsPass(c, root, artifact, sidecars, SLOT_NAMES);
  }

  lemma ClaimsPass(env: Env, root: Json, artifact: Json, sidecars: Sidecars, run: RunRecord)
    requires Says(env.c, root, run) && Agrees(env, artifact, sidecars, run)
    ensures AllOk(GrantChecks(env, root, artifact, sidecars)) && AllOk(IdentityChecks(root, artifact))
    ensures AllOk(RunChecks(root, artifact, Carried(artifact, sidecars, "correlation")))
    ensures AllOk(TranscriptChecks(env, root, Carried(artifact, sidecars, "transcript_token")))
  {
    GrantChecksPass(env, root, artifact, sidecars, run);
    RunChecksPass(root, artifact, Carried(artifact, sidecars, "correlation"));
  }

  lemma AgreeingArtifactPasses(env: Env, artifact: Json, sidecars: Sidecars, run: RunRecord, root: Json)
    requires root == At(artifact, "evidence_root") && Signs(env.c, root, run)
    requires VerifyEvidenceRoot(env.c, root, env.key) == RootValid
    requires CarriesRun(env.c, artifact, sidecars, run) && Agrees(env, artifact, sidecars, run)
    ensures Accepted(env, artifact, sidecars)
  {
    RootSays(env.c, root, run);
    SlotsPass(env.c, root, artifact, sidecars, run);
    ClaimsPass(env, root, artifact, sidecars, run);
    ChecksSplit(env, root, artifact, sidecars, DigestChecks(env.c, root, artifact, sidecars, SLOT_NAMES).value);
  }

  /** HONEST ARTIFACTS PASS. A run's own root over a run's own tokens, with agreeing claims, is accepted. */
  lemma HonestArtifactPasses(env: Env, artifact: Json, sidecars: Sidecars, run: RunRecord, key: Key)
    requires Ideal(env.c) && env.key == Some(key) && At(artifact, "evidence_root") == Root(env.c, key, run)
    requires CarriesRun(env.c, artifact, sidecars, run) && Agrees(env, artifact, sidecars, run)
    ensures Accepted(env, artifact, sidecars)
  {
    BuiltRootVerifies(env.c, key, run, At(artifact, "evidence_root"));
    AgreeingArtifactPasses(env, artifact, sidecars, run, At(artifact, "evidence_root"));
  }

  /**
   * ACCEPTED IS ONE RUN. Under a key that signs roots only of its own runs, an artifact is accepted exactly
   * when its root verifies and it is the artifact of one of those runs.
   */
  lemma AcceptedIffOneRun(env: Env, artifact: Json, sidecars: Sidecars, runs: set<RunRecord>)
    requires IdealHash(env.c) && env.key.Some? && SignsOnlyRoots(env.c, env.key.value, runs)
    ensures Accepted(env, artifact, sidecars) <==>
            && VerifyEvidenceRoot(env.c, At(artifact, "evidence_root"), env.key) == RootValid
            && exists run :: run in runs && IsRuns(env, artifact, sidecars, run)
  {
    if Accepted(env, artifact, sidecars) { var run := NoCollage(env, artifact, sidecars, runs); }
    if VerifyEvidenceRoot(env.c, At(artifact, "evidence_root"), env.key) == RootValid {
      forall run | run in runs && IsRuns(env, artifact, sidecars, run) ensures Accepted(env, artifact, sidecars) {
        AgreeingArtifactPasses(env, artifact, sidecars, run, At(artifact, "evidence_root"));
      }
    }
  }
}
