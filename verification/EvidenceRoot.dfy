/** The evidence root: one signed manifest binding the digests of a run's tokens. */
module EvidenceRoot {
  import opened Text
  import opened Crypto
  import opened Json
  import opened JsonCanon

  const ROOT_V := "cr.evidence.root.v1"
  const ROOT_SIGNING_PREFIX := "crevidenceroot.v1"

  const SLOT_NAMES: seq<string> := [
    "chain_receipt", "execution_grant", "transcript_token", "correlation", "atomic_attestation", "provider_readback"]

  predicate Mandatory(name: string) { name in SLOT_NAMES[..4] }

  /** `{ key, ...rest } = v`: the members without one key. */
  function Without(fields: seq<Field>, key: string): seq<Field> {
    if fields == [] then [] else (if fields[0].key == key then [] else [fields[0]]) + Without(fields[1..], key)
  }

  // ---------------------------------------------------------------- digests

  datatype Digest = Absent | Sha(text: string) | Throws

  /** A string is hashed as it is, anything else by its canonical JSON; nothing and "" have no digest. */
  function DigestToken(c: Crypto, t: Json): Digest {
    if Nullish(t) then Absent
    else if t.Str? then (if t.s == "" then Absent else Sha(Sha256Pref(c, t.s)))
    else if CanonicalJson(t).None? then Throws
    else Sha(Sha256Pref(c, CanonicalJson(t).value))
  }

  /** The same token, up to member order, and up to a string that is an object's canonical JSON. */
  predicate SameToken(t: Json, u: Json) {
    if t.Str? && u.Str? then t.s == u.s
    else if t.Str? then CanonicalJson(u) == Some(t.s)
    else if u.Str? then CanonicalJson(t) == Some(u.s)
    else Equiv(t, u)
  }

  lemma DigestBinds(c: Crypto, t: Json, u: Json)
    requires IdealHash(c) && DigestToken(c, t).Sha? && DigestToken(c, t) == DigestToken(c, u)
    ensures SameToken(t, u)
  {
    var a, b := if t.Str? then t.s else Canon(t), if u.Str? then u.s else Canon(u);
    DigestInjective(c, a, b);
    if !t.Str? && !u.Str? { CanonicalJsonIsExact(t, u); }
  }

  // ---------------------------------------------------------------- building

  datatype Claims = Claims(
    grantId: Option<string>,
    receiptHash: Option<string>,
    scopeHash: Option<string>,
    policyHash: Option<string>,
    stateTokenHash: Option<string>)

  /** The inputs of buildEvidenceRoot after String(); tokens maps slot names to tokens as they travel. */
  datatype RunRecord = RunRecord(
    runId: string,
    executorKid: string,
    producerName: string,
    producerVersion: string,
    producerCommit: Option<string>,
    operation: Option<string>,
    targetUri: Option<string>,
    contractCommit: Option<string>,
    tokens: map<string, Json>,
    claims: Claims)

  function OrNull(s: Option<string>): Json { if s.Some? then Str(s.value) else Null }

  function TokenOf(tokens: map<string, Json>, name: string): Json { if name in tokens then tokens[name] else Undefined }

  function DigestJson(d: Digest): Json { if d.Sha? then Str(d.text) else Null }

  function DigestFields(c: Crypto, tokens: map<string, Json>, names: seq<string>): (r: seq<Field>)
    ensures |r| == |names|
    ensures forall i :: 0 <= i < |names| ==> r[i] == Field(names[i], DigestJson(DigestToken(c, TokenOf(tokens, names[i]))))
  {
    if names == [] then []
    else [Field(names[0], DigestJson(DigestToken(c, TokenOf(tokens, names[0]))))] + DigestFields(c, tokens, names[1..])
  }

  /** buildEvidenceRoot throws when a token does. */
  predicate Buildable(c: Crypto, run: RunRecord) {
    forall i :: 0 <= i < |SLOT_NAMES| ==> !DigestToken(c, TokenOf(run.tokens, SLOT_NAMES[i])).Throws?
  }

  function ProducerOf(run: RunRecord): Json {
    Obj([Field("name", Str(run.producerName)), Field("version", Str(run.producerVersion)),
         Field("commit", OrNull(run.producerCommit))])
  }

  function BodyFields(c: Crypto, run: RunRecord): seq<Field> {
    [Field("v", Str(ROOT_V)),
     Field("run_id", Str(run.runId)),
     Field("executor_kid", Str(run.executorKid)),
     Field("producer", ProducerOf(run)),
     Field("operation", OrNull(run.operation)),
     Field("target_uri", OrNull(run.targetUri)),
     Field("contract_commit", OrNull(run.contractCommit)),
     Field("artifact_digests", Obj(DigestFields(c, run.tokens, SLOT_NAMES))),
     Field("grant_id", OrNull(run.claims.grantId)),
     Field("receipt_hash", OrNull(run.claims.receiptHash)),
     Field("scope_hash", OrNull(run.claims.scopeHash)),
     Field("policy_hash", OrNull(run.claims.policyHash)),
     Field("state_token_hash", OrNull(run.claims.stateTokenHash))]
  }

  function Body(c: Crypto, run: RunRecord): Json { Obj(BodyFields(c, run)) }

  function RootSigningInput(text: string): string { ROOT_SIGNING_PREFIX + "|" + text }

  lemma SlotNamesDistinct()
    ensures forall i, j :: 0 <= i < j < |SLOT_NAMES| ==> SLOT_NAMES[i] != SLOT_NAMES[j]
    ensures forall n :: n in SLOT_NAMES ==> n != ""
  {
    assert SLOT_NAMES[0][1] == 'h' && SLOT_NAMES[1][0] == 'e' && SLOT_NAMES[2][0] == 't' && SLOT_NAMES[3][1] == 'o';
    assert SLOT_NAMES[4][0] == 'a' && SLOT_NAMES[5][0] == 'p';
  }

  lemma BodyPrintable(c: Crypto, run: RunRecord)
    ensures Printable(Body(c, run))
  {
    SlotNamesDistinct();
    var digests := DigestFields(c, run.tokens, SLOT_NAMES);
    assert DistinctKeys(digests);
    assert Printable(Obj(digests));
    assert DistinctKeys(ProducerOf(run).fields);
    assert Printable(ProducerOf(run));
    BodyKeysDistinct(c, run);
    var f := BodyFields(c, run);
    forall i | 0 <= i < |f| ensures Printable(f[i].value) {
    }
  }

  lemma BodyKeysDistinct(c: Crypto, run: RunRecord)
    ensures DistinctKeys(BodyFields(c, run))
  {
  }

  /** The signed root: the body, then its signature. */
  function Root(c: Crypto, key: Key, run: RunRecord): Json {
    BodyPrintable(c, run);
    Obj(BodyFields(c, run) + [Field("signature", Str(c.sign(key, RootSigningInput(Canon(Body(c, run))))))])
  }

  /** The digest loop: stops where a token throws. */
  method DigestAll(c: Crypto, tokens: map<string, Json>, names: seq<string>) returns (digests: Option<seq<Field>>)
    ensures digests.None? <==> exists i :: 0 <= i < |names| && DigestToken(c, TokenOf(tokens, names[i])).Throws?
    ensures digests.Some? ==> digests.value == DigestFields(c, tokens, names)
  {
    var out: seq<Field> := [];
    for i := 0 to |names|
      invariant |out| == i
      invariant forall k :: 0 <= k < i ==> !DigestToken(c, TokenOf(tokens, names[k])).Throws?
      invariant forall k :: 0 <= k < i ==> out[k] == Field(names[k], DigestJson(DigestToken(c, TokenOf(tokens, names[k]))))
    {
      var d := DigestToken(c, TokenOf(tokens, names[i]));
      if d.Throws? { return None; }
      out := out + [Field(names[i], DigestJson(d))];
    }
    digests := Some(out);
  }

  /** The digest loop, then one signature over the canonical body. */
  method BuildEvidenceRoot(c: Crypto, key: Key, run: RunRecord) returns (root: Option<Json>)
    ensures root.Some? <==> Buildable(c, run)
    ensures root.Some? ==> root.value == Root(c, key, run)
  {
    var digests := DigestAll(c, run.tokens, SLOT_NAMES);
    if digests.None? { return None; }
    var fields := [
      Field("v", Str(ROOT_V)),
      Field("run_id", Str(run.runId)),
      Field("executor_kid", Str(run.executorKid)),
      Field("producer", ProducerOf(run)),
      Field("operation", OrNull(run.operation)),
      Field("target_uri", OrNull(run.targetUri)),
      Field("contract_commit", OrNull(run.contractCommit)),
      Field("artifact_digests", Obj(digests.value)),
      Field("grant_id", OrNull(run.claims.grantId)),
      Field("receipt_hash", OrNull(run.claims.receiptHash)),
      Field("scope_hash", OrNull(run.claims.scopeHash)),
      Field("policy_hash", OrNull(run.claims.policyHash)),
      Field("state_token_hash", OrNull(run.claims.stateTokenHash))];
    BodyPrintable(c, run);
    var signature := c.sign(key, RootSigningInput(Canon(Obj(fields))));
    root := Some(Obj(fields + [Field("signature", Str(signature))]));
  }

  // ---------------------------------------------------------------- verifying a root

  datatype RootVerdict = RootValid | RootMalformed | RootUnknownKey | RootInvalidSignature

  function VerifyEvidenceRoot(c: Crypto, root: Json, key: Option<Key>): RootVerdict {
    if At(root, "v") != Str(ROOT_V) then RootMalformed
    else if !At(root, "signature").Str? || At(root, "signature").s == "" then RootMalformed
    else if key.None? then RootUnknownKey
    else
      var text := CanonicalJson(Obj(Without(root.fields, "signature")));
      if text.Some? && c.verify(key.value, RootSigningInput(text.value), At(root, "signature").s) then RootValid
      else RootInvalidSignature
  }

  /** Everything this key ever signed under the root prefix is a body some run of the ledger built. */
  ghost predicate SignsOnlyRoots(c: Crypto, key: Key, runs: set<RunRecord>) {
    forall text, sig :: c.verify(key, RootSigningInput(text), sig) ==>
      exists run :: run in runs && text == Canon(BodyText(c, run))
  }

  /** Body, with the fact that it prints. */
  function BodyText(c: Crypto, run: RunRecord): (b: Json)
    ensures Printable(b)
  {
    BodyPrintable(c, run);
    Body(c, run)
  }

  lemma {:induction false} WithoutAt(fields: seq<Field>, key: string, other: string)
    requires key != other
    ensures MemberAt(Without(fields, key), other) == MemberAt(fields, other)
  {
    if fields != [] {
      WithoutAt(fields[1..], key, other);
      var rest := Without(fields[1..], key);
      assert [] + rest == rest && ([fields[0]] + rest)[1..] == rest;
    }
  }

  /**
   * THE SIGNED BYTES DETERMINE EVERY FIELD. A root that verifies is, member order aside, the body of
   * one of the runs whose roots the key signed.
   */
  lemma RootIsSomeRun(c: Crypto, root: Json, key: Key, runs: set<RunRecord>) returns (run: RunRecord)
    requires SignsOnlyRoots(c, key, runs) && VerifyEvidenceRoot(c, root, Some(key)) == RootValid
    ensures run in runs && Equiv(Body(c, run), Obj(Without(root.fields, "signature")))
    ensures Printable(Obj(Without(root.fields, "signature"))) && Printable(Body(c, run))
  {
    var body := Obj(Without(root.fields, "signature"));
    var text := CanonicalJson(body).value;
    assert c.verify(key, RootSigningInput(text), At(root, "signature").s);
    run :| run in runs && text == Canon(BodyText(c, run));
    BodyPrintable(c, run);
    CanonicalJsonIsExact(Body(c, run), body);
  }
}
