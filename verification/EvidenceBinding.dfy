/** The root check: is this set of tokens one run? The ten questions, and what a yes is worth. */
module EvidenceBinding {
  import opened Text
  import opened Crypto
  import opened Json
  import opened EvidenceRoot

  /**
   * The executor key, and the two decoders the check calls: JSON.parse on the first segment of a grant
   * token, and verifyProveTranscript under the executor key (the payload of a valid token).
   */
  datatype Env = Env(c: Crypto, key: Option<Key>, grantBody: string -> Option<Json>, transcript: string -> Option<Json>)

  datatype Check = Check(id: string, ok: bool)

  datatype Binding = Threw | Graded(ok: bool, checks: seq<Check>)

  type Sidecars = map<string, Json>

  function And(a: Json, b: Json): Json { if TruthyJson(a) then b else a }

  function Or(a: Json, b: Json): Json { if TruthyJson(a) then a else b }

  predicate AllOk(checks: seq<Check>) {
    forall i :: 0 <= i < |checks| ==> checks[i].ok
  }

  /** The token carried in a slot: sidecars override what the artifact holds. */
  function Carried(artifact: Json, sidecars: Sidecars, name: string): Json {
    var issuance := At(artifact, "issuance");
    if name in sidecars then sidecars[name]
    else if name == "chain_receipt" then And(issuance, At(issuance, "chain_receipt"))
    else if name == "execution_grant" then And(issuance, At(issuance, "execution_grant"))
    else if name == "transcript_token" then At(artifact, "transcript_token")
    else if name == "correlation" then Or(At(artifact, "correlation"), Null)
    else Null
  }

  // ---------------------------------------------------------------- questions 2 to 4

  function Recorded(root: Json, name: string): Json { At(At(root, "artifact_digests"), name) }

  function MandatoryChecks(root: Json, names: seq<string>): seq<Check> {
    if names == [] then []
    else MandatoryChecks(root, names[..|names| - 1]) + MandatoryCheck(root, names[|names| - 1])
  }

  function MandatoryCheck(root: Json, name: string): seq<Check> {
    if Mandatory(name) then [Check("root_slot_" + name, !Nullish(Recorded(root, name)))] else []
  }

  function DigestCheck(root: Json, name: string, got: Digest): seq<Check> {
    var want := Recorded(root, name);
    if Nullish(want) && !got.Sha? then []
    else if Nullish(want) then [Check("digest_" + name, false)]
    else if !got.Sha? then [Check("digest_" + name, !Mandatory(name))]
    else [Check("digest_" + name, want == Str(got.text))]
  }

  /** None when a carried token cannot be printed, which is where the check throws. */
  function DigestChecks(c: Crypto, root: Json, artifact: Json, sidecars: Sidecars, names: seq<string>): Option<seq<Check>> {
    if names == [] then Some([])
    else
      var name := names[|names| - 1];
      var before := DigestChecks(c, root, artifact, sidecars, names[..|names| - 1]);
      var got := DigestToken(c, Carried(artifact, sidecars, name));
      if before.None? || got.Throws? then None else Some(before.value + DigestCheck(root, name, got))
  }

  lemma {:induction false} ThrowPersists(c: Crypto, root: Json, artifact: Json, sidecars: Sidecars, names: seq<string>, i: nat)
    requires i <= |names| && DigestChecks(c, root, artifact, sidecars, names[..i]).None?
    ensures DigestChecks(c, root, artifact, sidecars, names).None?
    decreases |names|
  {
    if i == |names| {
      assert names[..i] == names;
    } else {
      var init := names[..|names| - 1];
      assert init[..i] == names[..i];
      ThrowPersists(c, root, artifact, sidecars, init, i);
    }
  }

  // ---------------------------------------------------------------- questions 5 to 9

  function GrantBodyOf(env: Env, token: Json): Json {
    if !token.Str? then Null
    else var b := env.grantBody(env.c.unb64(Split(token.s, '.')[0])); if b.Some? then b.value else Null
  }

  function GrantId(b: Json): Json { Or(Or(At(b, "grant_id"), At(b, "jti")), Null) }

  function GrantScope(b: Json): Json { Or(Or(At(b, "after_payload_hash"), At(b, "scope_hash")), Null) }

  function GrantReceipt(b: Json): Json { Or(Or(At(b, "receipt_hash"), At(b, "receipt_digest")), Null) }

  function ClaimChecks(root: Json, b: Json): seq<Check> {
    [Check("claim_grant_id", Nullish(At(root, "grant_id")) || StrictEq(At(root, "grant_id"), GrantId(b))),
     Check("claim_scope_hash", Nullish(At(root, "scope_hash")) || StrictEq(At(root, "scope_hash"), GrantScope(b))),
     Check("claim_policy_hash", Nullish(At(root, "policy_hash")) || Nullish(At(b, "policy_hash"))
                                || StrictEq(At(root, "policy_hash"), At(b, "policy_hash")))]
  }

  function ReceiptCheck(c: Crypto, b: Json, receipt: Json): seq<Check> {
    if TruthyJson(GrantReceipt(b)) && receipt.Str?
    then [Check("grant_binds_receipt", StrictEq(GrantReceipt(b), DigestJson(DigestToken(c, receipt))))] else []
  }

  function GrantChecks(env: Env, root: Json, artifact: Json, sidecars: Sidecars): seq<Check> {
    var b := GrantBodyOf(env, Carried(artifact, sidecars, "execution_grant"));
    if TruthyJson(b) then ClaimChecks(root, b) + ReceiptCheck(env.c, b, Carried(artifact, sidecars, "chain_receipt")) else []
  }

  function IdentityChecks(root: Json, artifact: Json): seq<Check> {
    var ids, grant := At(At(artifact, "continuity"), "identities"), At(root, "grant_id");
    if Nullish(grant) || Nullish(At(ids, "issued_jti")) then []
    else [Check("identity_chain", StrictEq(At(ids, "issued_jti"), grant) && StrictEq(At(ids, "consumed_jti"), grant)
                                  && StrictEq(At(ids, "attestation_jti"), grant))]
  }

  function RunChecks(root: Json, artifact: Json, correlation: Json): seq<Check> {
    [Check("run_id_artifact", StrictEq(At(artifact, "run_id"), At(root, "run_id")))]
    + (if TruthyJson(correlation) && !Nullish(At(root, "scope_hash"))
       then [Check("run_id_correlation", StrictEq(At(correlation, "scope_hash"), At(root, "scope_hash")))] else [])
    + (if TruthyJson(correlation) && !Nullish(At(root, "contract_commit"))
       then [Check("contract_commit", StrictEq(At(correlation, "contract_commit"), At(root, "contract_commit")))] else [])
  }

  function TranscriptChecks(env: Env, root: Json, token: Json): seq<Check> {
    var p := if token.Str? then env.transcript(token.s) else None;
    if p.Some? && TruthyJson(p.value) && TruthyJson(At(p.value, "run_id"))
    then [Check("transcript_run_id", StrictEq(At(p.value, "run_id"), At(root, "run_id")))] else []
  }

  /** Every check made once the root's signature stands, in order; digests are the checks of questions 3 and 4. */
  function Checks(env: Env, root: Json, artifact: Json, sidecars: Sidecars, digests: seq<Check>): seq<Check> {
    [Check("root_signature", true)]
    + MandatoryChecks(root, SLOT_NAMES)
    + digests
    + GrantChecks(env, root, artifact, sidecars)
    + IdentityChecks(root, artifact)
    + RunChecks(root, artifact, Carried(artifact, sidecars, "correlation"))
    + TranscriptChecks(env, root, Carried(artifact, sidecars, "transcript_token"))
  }

  // ---------------------------------------------------------------- the method

  method NoteMandatory(root: Json, names: seq<string>) returns (checks: seq<Check>)
    ensures checks == MandatoryChecks(root, names)
  {
    checks := [];
    for i := 0 to |names|
      invariant checks == MandatoryChecks(root, names[..i])
    {
      assert names[..i + 1][..i] == names[..i];
      if Mandatory(names[i]) {
        checks := checks + [Check("root_slot_" + names[i], !Nullish(Recorded(root, names[i])))];
      }
    }
    assert names[..|names|] == names;
  }

  lemma OneMoreDigest(c: Crypto, root: Json, artifact: Json, sidecars: Sidecars, names: seq<string>, i: nat)
    requires i < |names|
    ensures var before := DigestChecks(c, root, artifact, sidecars, names[..i]);
            var got := DigestToken(c, Carried(artifact, sidecars, names[i]));
            DigestChecks(c, root, artifact, sidecars, names[..i + 1]) ==
            (if before.None? || got.Throws? then None else Some(before.value + DigestCheck(root, names[i], got)))
  {
    assert names[..i + 1][..i] == names[..i];
  }

  method NoteDigests(c: Crypto, root: Json, artifact: Json, sidecars: Sidecars, names: seq<string>)
    returns (checks: Option<seq<Check>>)
    ensures checks == DigestChecks(c, root, artifact, sidecars, names)
  {
    checks := Some([]);
    var i := 0;
    while i < |names| && checks.Some?
      invariant 0 <= i <= |names|
      invariant checks == DigestChecks(c, root, artifact, sidecars, names[..i])
    {
      var got := DigestToken(c, Carried(artifact, sidecars, names[i]));
      OneMoreDigest(c, root, artifact, sidecars, names, i);
      checks := if got.Throws? then None else Some(checks.value + DigestCheck(root, names[i], got));
      i := i + 1;
    }
    if checks.None? { ThrowPersists(c, root, artifact, sidecars, names, i); }
    assert names[..|names|] == names;
  }

  /** What the method answers. */
  function BindingOf(env: Env, artifact: Json, sidecars: Sidecars): Binding {
    var root := At(artifact, "evidence_root");
    if !TruthyJson(root) then Graded(false, [])
    else if VerifyEvidenceRoot(env.c, root, env.key) != RootValid then Graded(false, [Check("root_signature", false)])
    else
      var digests := DigestChecks(env.c, root, artifact, sidecars, SLOT_NAMES);
      if digests.None? then Threw
      else
        var checks := Checks(env, root, artifact, sidecars, digests.value);
        Graded(AllOk(checks), checks)
  }

  method VerifyEvidenceRootBinding(env: Env, artifact: Json, sidecars: Sidecars) returns (r: Binding)
    ensures r == BindingOf(env, artifact, sidecars)
  {
    var root := At(artifact, "evidence_root");
    if !TruthyJson(root) { return Graded(false, []); }
    if VerifyEvidenceRoot(env.c, root, env.key) != RootValid { return Graded(false, [Check("root_signature", false)]); }
    var checks := NoteMandatory(root, SLOT_NAMES);
    var digests := NoteDigests(env.c, root, artifact, sidecars, SLOT_NAMES);
    if digests.None? { return Threw; }
    checks := [Check("root_signature", true)] + checks + digests.value;
    checks := checks + GrantChecks(env, root, artifact, sidecars);
    checks := checks + IdentityChecks(root, artifact);
    checks := checks + RunChecks(root, artifact, Carried(artifact, sidecars, "correlation"));
    checks := checks + TranscriptChecks(env, root, Carried(artifact, sidecars, "transcript_token"));
    r := Graded(AllOk(checks), checks);
  }

  predicate Accepted(env: Env, artifact: Json, sidecars: Sidecars) {
    var r := BindingOf(env, artifact, sidecars);
    r.Graded? && r.ok
  }
}
